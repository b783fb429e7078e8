/**
 * The conferences dashboard: the expand/collapse sidebar map, the search
 * filter over the conference list, and the "new event" modal that appends
 * a conference.
 */
module RohitPage {
  import opened Wrappers
  import Text
  import Collections

  datatype Conference = Conference(
    id: int,
    icon: string,
    name: string,
    description: string,
    people: Option<int>,   // `parseInt` of the participants text; none for NaN
    date: string,
    participants: string,
    dueDate: string,
    tags: seq<string>)

  /** The modal's form. */
  datatype NewEvent = NewEvent(name: string, description: string, participants: string, date: string, icon: string)

  const BlankEvent := NewEvent("", "", "", "", "💻")

  const InitialConferences: seq<Conference> := [
    Conference(1, "💻", "ResNet for X-ray Detection",
      "A deep learning model applied to X-ray classification for disease detection.",
      Some(40), "01.03.23", "Participants", "Event date", ["🔴", "🟡", "🔵", "🟢"]),
    Conference(2, "🧠", "AI in Medical Imaging",
      "Symposium on AI-based image recognition at international level.",
      Some(60), "05.05.23", "Participants", "Event date", ["🟢", "🔵", "🟡", "🔴"]),
    Conference(3, "📡", "IoT-Based Smart Irrigation",
      "Presented a smart agricultural monitoring system using IoT sensors.",
      Some(30), "08.02.23", "Participants", "Due date", ["🔴", "🟡", "🔵"]),
    Conference(4, "⚡", "Deep Learning for Text Mining",
      "Discussed predictive analytics in text mining using CNN and RNN.",
      Some(35), "22.02.23", "Participants", "Due date", ["🟢", "🔴", "🟡", "🔵"]),
    Conference(5, "🌾", "AI in Crop Prediction",
      "Machine learning techniques for improving agricultural planning accuracy.",
      Some(25), "10.01.23", "Participants", "Due date", ["🟢", "🔵", "🟡", "🔴"]),
    Conference(6, "⚙️", "Edge AI for Maintenance",
      "Leveraging Edge AI for machinery failure prediction in industry.",
      Some(55), "18.03.23", "Participants", "Due date", ["🟢", "🔴", "🔵", "🟡"])
  ]

  const InitialExpanded: map<string, bool> := map[
    "home" := false, "conferences" := true, "profile" := true, "department" := false,
    "year" := false, "work" := false, "publications" := false, "access" := false]

  /** Every conference's id is its position plus one. */
  predicate IdsArePositions(cs: seq<Conference>) {
    forall i :: 0 <= i < |cs| ==> cs[i].id == i + 1
  }

  lemma InitialIdsArePositions()
    ensures IdsArePositions(InitialConferences) && |InitialConferences| == 6
  {
  }

  /** The search test: the lower-cased query occurs in the lower-cased name or description. */
  predicate ConferenceMatches(c: Conference, query: string) {
    Text.Contains(Text.Lower(c.name), Text.Lower(query)) || Text.Contains(Text.Lower(c.description), Text.Lower(query))
  }

  /** `filteredConferences`: exactly the matching conferences, in list order. */
  function FilteredConferences(cs: seq<Conference>, query: string): (r: seq<Conference>)
    ensures forall i :: 0 <= i < |r| ==> r[i] in cs && ConferenceMatches(r[i], query)
    ensures forall i :: 0 <= i < |cs| && ConferenceMatches(cs[i], query) ==> cs[i] in r
    ensures forall i :: 0 <= i < |cs| ==>
      multiset(r)[cs[i]] == if ConferenceMatches(cs[i], query) then multiset(cs)[cs[i]] else 0
    ensures Collections.IsSubsequence(r, cs)
    ensures query == "" ==> r == cs
  {
    var p := (c: Conference) => ConferenceMatches(c, query);
    Collections.FilterIsSubsequence(cs, p);
    if query == "" then
      assert forall i :: 0 <= i < |cs| ==> p(cs[i]) by {
        forall i | 0 <= i < |cs| ensures p(cs[i]) {
          Text.ContainsEmpty(Text.Lower(cs[i].name));
        }
      }
      Collections.FilterKeepsAll(cs, p);
      Collections.Filter(cs, p)
    else
      Collections.Filter(cs, p)
  }

  /** The "no results" note: nothing matches a non-empty query. */
  predicate NoResultsShown(cs: seq<Conference>, query: string) {
    |FilteredConferences(cs, query)| == 0 && query != ""
  }

  lemma NoResultsExactly(cs: seq<Conference>, query: string)
    ensures NoResultsShown(cs, query) <==>
      query != "" && forall i :: 0 <= i < |cs| ==> !ConferenceMatches(cs[i], query)
  {
    var r := FilteredConferences(cs, query);
    if query != "" && r != [] {
      assert r[0] in cs;
    }
  }

  /** The four modal fields the create button requires. */
  predicate CanCreate(e: NewEvent) {
    e.name != "" && e.description != "" && e.participants != "" && e.date != ""
  }

  /**
   * The list after creating event `e`: one conference appended, numbered one
   * past the list's length, the earlier ones untouched. `people` and `date`
   * are what `parseInt` and the en-GB date formatting give for the modal's text.
   */
  function WithEvent(cs: seq<Conference>, e: NewEvent, people: Option<int>, date: string): (r: seq<Conference>)
    ensures |r| == |cs| + 1 && r[..|cs|] == cs
    ensures r[|cs|].id == |cs| + 1 && r[|cs|].name == e.name && r[|cs|].description == e.description
    ensures r[|cs|].icon == e.icon && r[|cs|].people == people && r[|cs|].date == date
    ensures r[|cs|].participants == "Participants" && r[|cs|].dueDate == "Event date"
    ensures r[|cs|].tags == ["🟢", "🔵", "🟡", "🔴"]
    ensures IdsArePositions(cs) ==> IdsArePositions(r)
  {
    cs + [Conference(|cs| + 1, e.icon, e.name, e.description, people, date,
                     "Participants", "Event date", ["🟢", "🔵", "🟡", "🔴"])]
  }

  class Dashboard {
    var expandedItems: map<string, bool>
    var searchQuery: string
    var showNewEventModal: bool
    var newEvent: NewEvent
    var conferences: seq<Conference>

    ghost predicate Valid()
      reads this
    {
      IdsArePositions(conferences)
    }

    constructor ()
      ensures Valid()
      ensures conferences == InitialConferences && expandedItems == InitialExpanded
      ensures searchQuery == "" && !showNewEventModal && newEvent == BlankEvent
    {
      expandedItems := InitialExpanded;
      searchQuery := "";
      showNewEventModal := false;
      newEvent := BlankEvent;
      conferences := InitialConferences;
    }

    /** `toggleExpanded`. */
    method ToggleExpanded(item: string)
      requires Valid()
      modifies this`expandedItems
      ensures Valid() && expandedItems == Collections.Toggle(old(expandedItems), item)
    {
      expandedItems := expandedItems[item := !Collections.IsOn(expandedItems, item)];
    }

    /** `handleSearch`. */
    method HandleSearch(query: string)
      modifies this`searchQuery
      ensures searchQuery == query
    {
      searchQuery := query;
    }

    /** `handleNewEventClick`. */
    method HandleNewEventClick()
      modifies this`showNewEventModal
      ensures showNewEventModal
    {
      showNewEventModal := true;
    }

    /** The modal's inputs: `setNewEvent({...newEvent, [field]: value})`. */
    method EditNewEvent(e: NewEvent)
      modifies this`newEvent
      ensures newEvent == e
    {
      newEvent := e;
    }

    /**
     * `handleCreateEvent`: with all four required fields filled, appends the
     * event, closes the modal and clears the form; otherwise changes nothing.
     */
    method HandleCreateEvent(people: Option<int>, date: string) returns (created: bool)
      requires Valid()
      modifies this
      ensures Valid()
      ensures created == CanCreate(old(newEvent))
      ensures created ==>
        conferences == WithEvent(old(conferences), old(newEvent), people, date)
        && newEvent == BlankEvent && !showNewEventModal
      ensures !created ==>
        conferences == old(conferences) && newEvent == old(newEvent) && showNewEventModal == old(showNewEventModal)
      ensures expandedItems == old(expandedItems) && searchQuery == old(searchQuery)
    {
      created := newEvent.name != "" && newEvent.description != "" && newEvent.participants != "" && newEvent.date != "";
      if created {
        var added := Conference(|conferences| + 1, newEvent.icon, newEvent.name, newEvent.description, people, date,
                                "Participants", "Event date", ["🟢", "🔵", "🟡", "🔴"]);
        conferences := conferences + [added];
        showNewEventModal := false;
        newEvent := BlankEvent;
      }
    }

    /** `filteredConferences` for the current query. */
    function Filtered(): (r: seq<Conference>)
      reads this
      ensures searchQuery == "" ==> r == conferences
      ensures |r| <= |conferences|
    {
      FilteredConferences(conferences, searchQuery)
    }
  }
}
