/** The journals dashboard: the expand/collapse sidebar map and the search filter over the fixed journals table. */
module HemantPage {
  import Text
  import Collections

  datatype JournalRow = JournalRow(
    author: string,
    title: string,
    department: string,
    publisher: string,
    contact: string,
    email: string,
    country: string,
    status: string)

  /** `journalsData`. */
  const JournalsData: seq<JournalRow> := [
    JournalRow("SHRUTI JALAPUR", "An integrated", "CSE", "Springer Nature", "", "", "India", "Active"),
    JournalRow("Floyd Miles", "Yahoo", "—", "—", "(205) 555-0100", "floyd@yahoo.com", "India", "Inactive"),
    JournalRow("Ronald Richards", "Adobe", "—", "—", "(202) 555-0107", "ronald@adobe.com", "India", "Inactive"),
    JournalRow("Marvin McKinney", "Tesla", "—", "—", "(252) 555-0126", "marvin@tesla.com", "India", "Active"),
    JournalRow("Jerome Bell", "Google", "—", "—", "(262) 555-0199", "jerome@google.com", "India", "Active"),
    JournalRow("Kathryn Murphy", "Microsoft", "—", "—", "(406) 555-0120", "kathryn@microsoft.com", "India", "Active"),
    JournalRow("Jacob Jones", "Yahoo", "—", "—", "(208) 555-0112", "jacob@yahoo.com", "India", "Inactive"),
    JournalRow("Kristin Watson", "Facebook", "—", "—", "(704) 555-0127", "kristin@facebook.com", "India", "Inactive")
  ]

  const InitialExpanded: map<string, bool> := map[
    "home" := false, "conferences" := false, "journals" := true, "profile" := true, "department" := false,
    "year" := false, "work" := false, "publications" := false, "access" := false]

  /** The search test: the lower-cased query occurs in the lower-cased author, title or publisher. */
  predicate JournalMatches(j: JournalRow, query: string) {
    || Text.Contains(Text.Lower(j.author), Text.Lower(query))
    || Text.Contains(Text.Lower(j.title), Text.Lower(query))
    || Text.Contains(Text.Lower(j.publisher), Text.Lower(query))
  }

  /** The search over any table of rows: exactly the matching rows, in table order; all of them for an empty query. */
  function FilterRows(rows: seq<JournalRow>, query: string): (r: seq<JournalRow>)
    ensures |r| <= |rows|
    ensures forall i :: 0 <= i < |r| ==> r[i] in rows && JournalMatches(r[i], query)
    ensures forall i :: 0 <= i < |rows| && JournalMatches(rows[i], query) ==> rows[i] in r
    ensures forall i :: 0 <= i < |rows| ==>
      multiset(r)[rows[i]] == if JournalMatches(rows[i], query) then multiset(rows)[rows[i]] else 0
    ensures Collections.IsSubsequence(r, rows)
    ensures query == "" ==> r == rows
  {
    var p := (j: JournalRow) => JournalMatches(j, query);
    Collections.FilterIsSubsequence(rows, p);
    if query == "" then
      assert forall i :: 0 <= i < |rows| ==> p(rows[i]) by {
        forall i | 0 <= i < |rows| ensures p(rows[i]) {
          Text.ContainsEmpty(Text.Lower(rows[i].author));
        }
      }
      Collections.FilterKeepsAll(rows, p);
      Collections.Filter(rows, p)
    else
      Collections.Filter(rows, p)
  }

  /** `filteredJournals`: exactly the matching rows of the table, in table order; all eight for an empty query. */
  function FilteredJournals(query: string): (r: seq<JournalRow>)
    ensures |r| <= |JournalsData|
    ensures forall i :: 0 <= i < |r| ==> r[i] in JournalsData && JournalMatches(r[i], query)
    ensures forall i :: 0 <= i < |JournalsData| && JournalMatches(JournalsData[i], query) ==> JournalsData[i] in r
    ensures Collections.IsSubsequence(r, JournalsData)
    ensures query == "" ==> r == JournalsData && |r| == 8
  {
    FilterRows(JournalsData, query)
  }

  /** The "No journals found" note. */
  predicate NoResultsShown(query: string) {
    |FilteredJournals(query)| == 0 && query != ""
  }

  /** The note shows exactly when the query is non-empty and no row matches it. */
  lemma NoResultsExactly(query: string)
    ensures NoResultsShown(query) <==>
      query != "" && forall i :: 0 <= i < |JournalsData| ==> !JournalMatches(JournalsData[i], query)
  {
    var r := FilteredJournals(query);
    if query != "" && r != [] {
      assert r[0] in JournalsData;
    }
  }

  /** The search ignores case: "Shruti" finds the row whose author is written "SHRUTI JALAPUR". */
  lemma SearchIgnoresCase()
    ensures JournalsData[0] in FilteredJournals("Shruti")
  {
    var name := Text.Lower(JournalsData[0].author);
    var q := Text.Lower("Shruti");
    assert name[0..|q|] == q;
    assert Text.OccursAt(name, q, 0);
  }

  class Dashboard {
    var expandedItems: map<string, bool>
    var searchQuery: string

    constructor ()
      ensures expandedItems == InitialExpanded && searchQuery == ""
    {
      expandedItems := InitialExpanded;
      searchQuery := "";
    }

    /** `toggleExpanded`. */
    method ToggleExpanded(item: string)
      modifies this`expandedItems
      ensures expandedItems == Collections.Toggle(old(expandedItems), item)
    {
      expandedItems := expandedItems[item := !Collections.IsOn(expandedItems, item)];
    }

    /** `handleSearch`. */
    method HandleSearch(query: string)
      modifies this`searchQuery
      ensures searchQuery == query
    {
      searchQuery := query;
    }

    function Filtered(): (r: seq<JournalRow>)
      reads this
      ensures searchQuery == "" ==> |r| == 8
    {
      FilteredJournals(searchQuery)
    }
  }
}
