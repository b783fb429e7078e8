/**
 * The multi-step research-output submission form: cohort selection, step
 * navigation guarded by a per-cohort validator, field and author edits, the
 * per-cohort draft autosave/load in local storage, and submission.
 *
 * The React state (`selectedCohort`, `currentStep`, `formData`, `authors`)
 * and the browser's local storage together form a `Form` value. Each handler
 * is a transition function on `Form`, followed by the autosave effect where
 * the source's effect dependencies change; the class `FormsFormat` holds the
 * same state in fields and its methods are proved against these functions.
 */
module SubmissionForm {
  import opened Wrappers
  import Text
  import Collections
  import TrackingIds

  datatype Cohort = Journal | Conference | Book | Copyright | Patent

  /** The value of each cohort option in the selector. */
  function CohortName(c: Cohort): string {
    match c
    case Journal => "journal"
    case Conference => "conference"
    case Book => "book"
    case Copyright => "copyright"
    case Patent => "patent"
  }

  /** A form field holds typed text, or the chosen options of a multi-select. */
  datatype FieldValue = TextValue(text: string) | ListValue(values: seq<string>)

  /** `formData`: dotted field keys such as "publication.title" to values. */
  type FieldMap = map<string, FieldValue>

  const TitleKey := "publication.title"

  datatype Author = Author(name: string, department: string, email: string, role: string)

  /** The author properties the author rows edit. */
  datatype AuthorField = Name | Department | Email | Role

  /** The author `addAuthor` appends. */
  const BlankAuthor := Author("", "", "", "Author")

  function FieldOf(a: Author, f: AuthorField): string {
    match f
    case Name => a.name
    case Department => a.department
    case Email => a.email
    case Role => a.role
  }

  /** `author[f] = v`: sets field `f` and keeps the other three. */
  function WithField(a: Author, f: AuthorField, v: string): (b: Author)
    ensures FieldOf(b, f) == v
    ensures forall g :: g != f ==> FieldOf(b, g) == FieldOf(a, g)
  {
    match f
    case Name => a.(name := v)
    case Department => a.(department := v)
    case Email => a.(email := v)
    case Role => a.(role := v)
  }

  // ---------------------------------------------------------------------------
  // Local storage
  // ---------------------------------------------------------------------------

  /** A stored `{formData, authors}` object as it reads back: either part may be absent. */
  datatype Draft = Draft(formData: Option<FieldMap>, authors: Option<seq<Author>>)

  /** The `lastSubmission` record. */
  datatype SubmissionRecord = SubmissionRecord(id: string, submittedAt: string, cohort: Cohort)

  datatype Entry = DraftEntry(draft: Draft) | SubmissionEntry(record: SubmissionRecord)

  /** Local storage: keys to the objects stored under them. */
  type Storage = map<string, Entry>

  function DraftKey(c: Cohort): string {
    "draft_" + CohortName(c)
  }

  const LastSubmissionKey := "lastSubmission"

  /** Each cohort has its own draft key, and none is the last-submission key. */
  lemma DraftKeysDistinct(c: Cohort, d: Cohort)
    ensures DraftKey(c) != LastSubmissionKey
    ensures DraftKey(c) == DraftKey(d) ==> c == d
  {
  }

  function DraftKeys(c: Option<Cohort>): set<string> {
    if c.Some? then {DraftKey(c.value)} else {}
  }

  /** `t` agrees with `s` on every key outside `keys`. */
  ghost predicate SameOutside(s: Storage, t: Storage, keys: set<string>) {
    forall k :: k !in keys ==> (k in s <==> k in t) && (k in s ==> s[k] == t[k])
  }

  /**
   * What the load effect puts in the form for cohort `c`: the stored draft's
   * parts, each defaulting to empty, or an empty form when nothing is stored.
   * An object of another shape under the key has neither part.
   */
  function LoadDraft(storage: Storage, c: Cohort): (FieldMap, seq<Author>) {
    if DraftKey(c) !in storage then (map[], [])
    else match storage[DraftKey(c)]
      case DraftEntry(d) => (d.formData.GetOr(map[]), d.authors.GetOr([]))
      case SubmissionEntry(_) => (map[], [])
  }

  /** Loading a draft reads only that cohort's key. */
  lemma LoadDraftReadsOneKey(s: Storage, t: Storage, keys: set<string>, c: Cohort)
    requires SameOutside(s, t, keys) && DraftKey(c) !in keys
    ensures LoadDraft(s, c) == LoadDraft(t, c)
  {
  }

  // ---------------------------------------------------------------------------
  // Steps and validation
  // ---------------------------------------------------------------------------

  /** `getTotalSteps`: one step for copyright and patent, three for everything else (no cohort included). */
  function TotalSteps(c: Option<Cohort>): (n: nat)
    ensures n == 1 <==> c == Some(Copyright) || c == Some(Patent)
    ensures n == 1 || n == 3
  {
    if c == Some(Copyright) || c == Some(Patent) then 1 else 3
  }

  /** The title is present as text and not white space only. */
  predicate TitleFilled(fd: FieldMap) {
    TitleKey in fd && fd[TitleKey].TextValue? && Text.Trim(fd[TitleKey].text) != ""
  }

  /**
   * `validateStep`: only step 0 of a journal or conference is checked, and only
   * for a title that is not white space only; every other step passes.
   */
  function ValidateStep(c: Option<Cohort>, step: int, fd: FieldMap): (ok: bool)
    ensures !(c == Some(Journal) || c == Some(Conference)) || step != 0 ==> ok
    ensures (c == Some(Journal) || c == Some(Conference)) && step == 0 ==>
      (ok <==> TitleKey in fd && fd[TitleKey].TextValue? && !Text.AllWhitespace(fd[TitleKey].text))
  {
    if (c == Some(Journal) || c == Some(Conference)) && step == 0 then TitleFilled(fd) else true
  }

  // ---------------------------------------------------------------------------
  // Form state and its transitions
  // ---------------------------------------------------------------------------

  datatype Form = Form(
    cohort: Option<Cohort>,
    step: int,
    formData: FieldMap,
    authors: seq<Author>,
    storage: Storage)

  /** The step index stays within the cohort's steps. */
  predicate StepInRange(f: Form) {
    0 <= f.step < TotalSteps(f.cohort)
  }

  /** Write-through: a non-empty form of a selected cohort is what its draft key reads back. */
  predicate Persisted(f: Form) {
    f.cohort.Some? && |f.formData| > 0 ==> LoadDraft(f.storage, f.cohort.value) == (f.formData, f.authors)
  }

  /**
   * The autosave effect: with a cohort selected and a non-empty form, writes
   * `{formData, authors}` under that cohort's draft key; otherwise does nothing.
   */
  function Autosave(f: Form): (g: Form)
    ensures g.(storage := f.storage) == f
    ensures SameOutside(f.storage, g.storage, DraftKeys(f.cohort))
    ensures Persisted(g)
    ensures f.cohort.None? || |f.formData| == 0 ==> g == f
  {
    if f.cohort.Some? && |f.formData| > 0 then
      f.(storage := f.storage[DraftKey(f.cohort.value) := DraftEntry(Draft(Some(f.formData), Some(f.authors)))])
    else f
  }

  /** `handleInputChange` / `handleSelectMultiple`: sets key `name` and no other. */
  function SetField(f: Form, name: string, v: FieldValue): (g: Form)
    ensures name in g.formData && g.formData[name] == v
    ensures g.formData.Keys == f.formData.Keys + {name}
    ensures forall k :: k in f.formData && k != name ==> g.formData[k] == f.formData[k]
    ensures g.cohort == f.cohort && g.step == f.step && g.authors == f.authors
    ensures SameOutside(f.storage, g.storage, DraftKeys(f.cohort))
    ensures Persisted(g)
    ensures f.cohort.Some? ==> LoadDraft(g.storage, f.cohort.value) == (g.formData, g.authors)
  {
    Autosave(f.(formData := f.formData[name := v]))
  }

  /** `addAuthor`: appends one blank author and keeps the earlier ones. */
  function AppendAuthor(f: Form): (g: Form)
    ensures |g.authors| == |f.authors| + 1
    ensures g.authors[..|f.authors|] == f.authors && g.authors[|f.authors|] == BlankAuthor
    ensures g.cohort == f.cohort && g.step == f.step && g.formData == f.formData
    ensures SameOutside(f.storage, g.storage, DraftKeys(f.cohort))
    ensures f.cohort.None? || |f.formData| == 0 ==> g.storage == f.storage
    ensures Persisted(g)
  {
    Autosave(f.(authors := f.authors + [BlankAuthor]))
  }

  /** `removeAuthor(i)`: drops position `i`, keeps the others in order; an index out of range changes nothing. */
  function DropAuthor(f: Form, i: int): (g: Form)
    ensures 0 <= i < |f.authors| ==> g.authors == f.authors[..i] + f.authors[i + 1..]
    ensures !(0 <= i < |f.authors|) ==> g.authors == f.authors
    ensures g.cohort == f.cohort && g.step == f.step && g.formData == f.formData
    ensures SameOutside(f.storage, g.storage, DraftKeys(f.cohort))
    ensures f.cohort.None? || |f.formData| == 0 ==> g.storage == f.storage
    ensures Persisted(g)
  {
    Autosave(f.(authors := Collections.WithoutIndex(f.authors, i)))
  }

  /** `updateAuthor(i, field, v)`: changes that one field of author `i` only. */
  function EditAuthor(f: Form, i: int, field: AuthorField, v: string): (g: Form)
    requires 0 <= i < |f.authors|
    ensures |g.authors| == |f.authors|
    ensures forall j :: 0 <= j < |f.authors| && j != i ==> g.authors[j] == f.authors[j]
    ensures FieldOf(g.authors[i], field) == v
    ensures forall h :: h != field ==> FieldOf(g.authors[i], h) == FieldOf(f.authors[i], h)
    ensures g.cohort == f.cohort && g.step == f.step && g.formData == f.formData
    ensures SameOutside(f.storage, g.storage, DraftKeys(f.cohort))
    ensures f.cohort.None? || |f.formData| == 0 ==> g.storage == f.storage
    ensures Persisted(g)
  {
    Autosave(f.(authors := f.authors[i := WithField(f.authors[i], field, v)]))
  }

  /**
   * `nextStep`: a failed validation leaves the step as it is; otherwise the
   * step advances unless it is already the last.
   */
  function Next(f: Form): (g: Form)
    ensures g.(step := f.step) == f
    ensures !ValidateStep(f.cohort, f.step, f.formData) ==> g == f
    ensures g.step != f.step <==> ValidateStep(f.cohort, f.step, f.formData) && f.step < TotalSteps(f.cohort) - 1
    ensures g.step == f.step || g.step == f.step + 1
    ensures StepInRange(f) ==> StepInRange(g)
    ensures Persisted(f) ==> Persisted(g)
  {
    if !ValidateStep(f.cohort, f.step, f.formData) then f
    else if f.step < TotalSteps(f.cohort) - 1 then f.(step := f.step + 1)
    else f
  }

  /** `prevStep`: goes back one step unless at the first. */
  function Prev(f: Form): (g: Form)
    ensures g.(step := f.step) == f
    ensures g.step != f.step <==> f.step > 0
    ensures g.step == f.step || g.step == f.step - 1
    ensures f.step >= 0 ==> g.step >= 0
    ensures StepInRange(f) ==> StepInRange(g)
    ensures Persisted(f) ==> Persisted(g)
  {
    if f.step > 0 then f.(step := f.step - 1) else f
  }

  /**
   * The load effect for cohort `c` followed by the autosave its state changes
   * trigger: the form becomes `c`'s stored draft, at step 0, and that draft
   * reads back as the form.
   */
  function LoadCohort(f: Form, c: Cohort): (g: Form)
    ensures g.cohort == Some(c) && g.step == 0
    ensures (g.formData, g.authors) == LoadDraft(f.storage, c)
    ensures LoadDraft(g.storage, c) == (g.formData, g.authors)
    ensures SameOutside(f.storage, g.storage, {DraftKey(c)})
    ensures Persisted(g)
  {
    var loaded := LoadDraft(f.storage, c);
    Autosave(f.(cohort := Some(c), step := 0, formData := loaded.0, authors := loaded.1))
  }

  /**
   * Choosing a cohort in the selector. Choosing the current one changes
   * nothing; choosing none only clears the selection; choosing another cohort
   * replaces the form with that cohort's draft (nothing of the previous form is
   * carried over) and restarts at step 0.
   */
  function Select(f: Form, c: Option<Cohort>): (g: Form)
    ensures g.cohort == c
    ensures c == f.cohort ==> g == f
    ensures c.None? ==> g == f.(cohort := None)
    ensures c.Some? && c != f.cohort ==>
      g.step == 0 && (g.formData, g.authors) == LoadDraft(f.storage, c.value)
    ensures SameOutside(f.storage, g.storage, DraftKeys(c))
    ensures c.Some? && c != f.cohort ==> LoadDraft(g.storage, c.value) == (g.formData, g.authors)
    ensures StepInRange(f) ==> StepInRange(g)
    ensures Persisted(f) ==> Persisted(g)
  {
    if c == f.cohort then f
    else if c.None? then f.(cohort := None)
    else LoadCohort(f, c.value)
  }

  /**
   * The cohort switch as the effects run it: the autosave effect is declared
   * first and also depends on the cohort, so on a switch it runs with the new
   * cohort and the previous form before the load effect reads the draft back.
   */
  function SelectAsWritten(f: Form, c: Option<Cohort>): (g: Form)
    ensures g.cohort == c
    ensures |f.formData| == 0 ==> g == Select(f, c)
  {
    if c == f.cohort then f
    else if c.None? then f.(cohort := None)
    else LoadCohort(Autosave(f.(cohort := c)), c.value)
  }

  /**
   * As written, switching away from a non-empty form carries that form into
   * the new cohort and overwrites the new cohort's stored draft with it.
   */
  lemma SelectAsWrittenCarriesForm(f: Form, c: Cohort)
    requires f.cohort != Some(c) && |f.formData| > 0
    ensures SelectAsWritten(f, Some(c)).formData == f.formData
    ensures SelectAsWritten(f, Some(c)).authors == f.authors
    ensures LoadDraft(SelectAsWritten(f, Some(c)).storage, c) == (f.formData, f.authors)
  {
    var h := Autosave(f.(cohort := Some(c)));
    assert LoadDraft(h.storage, c) == (f.formData, f.authors);
  }

  /** A journal title typed before switching to conference shows up in the conference form as written, but not in `Select`. */
  lemma SelectAsWrittenLeaksExample()
    ensures var f := Form(Some(Journal), 0, map[TitleKey := TextValue("ResNet")], [], map[]);
      && SelectAsWritten(f, Some(Conference)).formData == f.formData
      && Select(f, Some(Conference)).formData == map[]
  {
    var f := Form(Some(Journal), 0, map[TitleKey := TextValue("ResNet")], [], map[]);
    SelectAsWrittenCarriesForm(f, Conference);
  }

  /**
   * Switching to another cohort and back restores the form and authors the
   * first switch loaded: drafts of different cohorts do not leak into each other.
   */
  lemma SwitchBackRestores(f: Form, c1: Cohort, c2: Cohort)
    requires c1 != c2 && f.cohort != Some(c1)
    ensures var g1 := Select(f, Some(c1));
            var g3 := Select(Select(g1, Some(c2)), Some(c1));
            g3.formData == g1.formData && g3.authors == g1.authors && g3.step == 0
  {
    var g1 := Select(f, Some(c1));
    var g2 := Select(g1, Some(c2));
    DraftKeysDistinct(c1, c2);
    LoadDraftReadsOneKey(g1.storage, g2.storage, {DraftKey(c2)}, c1);
  }

  /**
   * `handleSubmit` (with its delayed reset): records the tracking id, the time
   * and the cohort under `lastSubmission`, removes the cohort's draft and
   * empties the form at step 0; every other key is kept.
   */
  function Submit(f: Form, trackingId: string, submittedAt: string): (g: Form)
    requires f.cohort.Some?
    ensures g.cohort == f.cohort && g.step == 0 && g.formData == map[] && g.authors == []
    ensures DraftKey(f.cohort.value) !in g.storage
    ensures LastSubmissionKey in g.storage
    ensures g.storage[LastSubmissionKey] ==
      SubmissionEntry(SubmissionRecord(trackingId, submittedAt, f.cohort.value))
    ensures SameOutside(f.storage, g.storage, {DraftKey(f.cohort.value), LastSubmissionKey})
    ensures StepInRange(g) && Persisted(g)
  {
    var c := f.cohort.value;
    DraftKeysDistinct(c, c);
    var record := SubmissionRecord(trackingId, submittedAt, c);
    var storage := f.storage[LastSubmissionKey := SubmissionEntry(record)] - {DraftKey(c)};
    Autosave(Form(f.cohort, 0, map[], [], storage))
  }

  /** After a submission, coming back to the cohort through another one finds an empty form. */
  lemma SubmitClearsDraft(f: Form, trackingId: string, submittedAt: string, other: Cohort)
    requires f.cohort.Some? && other != f.cohort.value
    ensures var g := Select(Select(Submit(f, trackingId, submittedAt), Some(other)), f.cohort);
            g.formData == map[] && g.authors == []
  {
    var c := f.cohort.value;
    var s := Submit(f, trackingId, submittedAt);
    var s2 := Select(s, Some(other));
    DraftKeysDistinct(c, other);
    LoadDraftReadsOneKey(s.storage, s2.storage, {DraftKey(other)}, c);
  }

  /** The Next button shows before the last step; only on the last step does the Submit button show. */
  predicate NextShown(f: Form) {
    f.step < TotalSteps(f.cohort) - 1
  }

  /** The form after pressing Next `k` times. */
  function Advance(f: Form, k: nat): Form
    decreases k
  {
    if k == 0 then f else Advance(Next(f), k - 1)
  }

  /**
   * Once the current step validates, pressing Next until the last step brings
   * up the Submit button: later steps never block.
   */
  lemma {:induction false} AdvanceReachesSubmit(f: Form)
    requires StepInRange(f) && ValidateStep(f.cohort, f.step, f.formData)
    ensures StepInRange(Advance(f, TotalSteps(f.cohort) - 1 - f.step))
    ensures !NextShown(Advance(f, TotalSteps(f.cohort) - 1 - f.step))
    decreases TotalSteps(f.cohort) - f.step
  {
    if NextShown(f) {
      var g := Next(f);
      assert g.step == f.step + 1 && g.cohort == f.cohort;
      AdvanceReachesSubmit(g);
    }
  }

  /** A white-space-only title blocks a journal or conference at step 0. */
  lemma WhitespaceTitleBlocks(f: Form, title: string)
    requires f.cohort == Some(Journal) || f.cohort == Some(Conference)
    requires f.step == 0 && TitleKey in f.formData && f.formData[TitleKey] == TextValue(title)
    requires Text.AllWhitespace(title)
    ensures Next(f) == f
  {
  }

  /** Copyright has a single step, so a freshly selected copyright form is ready to submit. */
  lemma CopyrightSubmitsAtOnce(f: Form)
    requires f.cohort != Some(Copyright)
    ensures !NextShown(Select(f, Some(Copyright)))
  {
  }

  /** Two added authors and the first removed leave exactly one blank author. */
  lemma AddTwiceRemoveFirst(f: Form)
    requires f.authors == []
    ensures DropAuthor(AppendAuthor(AppendAuthor(f)), 0).authors == [BlankAuthor]
  {
  }

  // ---------------------------------------------------------------------------
  // The component
  // ---------------------------------------------------------------------------

  /** The form component: its React state and the local storage it writes. */
  class FormsFormat {
    var selectedCohort: Option<Cohort>
    var currentStep: int
    var formData: FieldMap
    var authors: seq<Author>
    var storage: Storage

    function State(): Form
      reads this
    {
      Form(selectedCohort, currentStep, formData, authors, storage)
    }

    ghost predicate Valid()
      reads this
    {
      StepInRange(State()) && Persisted(State())
    }

    /** The component mounts with no cohort, step 0, an empty form, over the given storage. */
    constructor (initial: Storage)
      ensures Valid() && State() == Form(None, 0, map[], [], initial)
    {
      selectedCohort := None;
      currentStep := 0;
      formData := map[];
      authors := [];
      storage := initial;
    }

    /** The autosave effect. */
    method SaveDraft()
      modifies this`storage
      ensures State() == Autosave(old(State()))
    {
      if selectedCohort.Some? && |formData| > 0 {
        storage := storage[DraftKey(selectedCohort.value) := DraftEntry(Draft(Some(formData), Some(authors)))];
      }
    }

    method HandleInputChange(name: string, value: string)
      requires Valid()
      modifies this
      ensures Valid() && State() == SetField(old(State()), name, TextValue(value))
    {
      formData := formData[name := TextValue(value)];
      SaveDraft();
    }

    /** The chosen options' values of a multi-select become a list under `name`. */
    method HandleSelectMultiple(name: string, selected: seq<string>)
      requires Valid()
      modifies this
      ensures Valid() && State() == SetField(old(State()), name, ListValue(selected))
    {
      formData := formData[name := ListValue(selected)];
      SaveDraft();
    }

    method AddAuthor()
      requires Valid()
      modifies this
      ensures Valid() && State() == AppendAuthor(old(State()))
    {
      authors := authors + [BlankAuthor];
      SaveDraft();
    }

    method RemoveAuthor(index: int)
      requires Valid()
      modifies this
      ensures Valid() && State() == DropAuthor(old(State()), index)
    {
      authors := Collections.WithoutIndex(authors, index);
      SaveDraft();
    }

    /** Copies the list, then writes the field of the copied entry. */
    method UpdateAuthor(index: int, field: AuthorField, value: string)
      requires Valid() && 0 <= index < |authors|
      modifies this
      ensures Valid() && State() == EditAuthor(old(State()), index, field, value)
    {
      var updated := authors;
      updated := updated[index := WithField(updated[index], field, value)];
      authors := updated;
      SaveDraft();
    }

    /** `nextStep`; `alerted` is the "Please fill required fields" alert. */
    method NextStep() returns (alerted: bool)
      requires Valid()
      modifies this
      ensures alerted == !ValidateStep(old(selectedCohort), old(currentStep), old(formData))
      ensures Valid() && State() == Next(old(State()))
    {
      if !ValidateStep(selectedCohort, currentStep, formData) {
        return true;
      }
      var totalSteps := TotalSteps(selectedCohort);
      if currentStep < totalSteps - 1 {
        currentStep := currentStep + 1;
      }
      return false;
    }

    method PrevStep()
      requires Valid()
      modifies this
      ensures Valid() && State() == Prev(old(State()))
    {
      if currentStep > 0 {
        currentStep := currentStep - 1;
      }
    }

    /** Choosing in the cohort selector, then the load effect and the autosave it triggers. */
    method SelectCohort(c: Option<Cohort>)
      requires Valid()
      modifies this
      ensures Valid() && State() == Select(old(State()), c)
    {
      if c == selectedCohort {
        return;
      }
      selectedCohort := c;
      if c.Some? {
        var key := DraftKey(c.value);
        if key in storage && storage[key].DraftEntry? {
          var saved := storage[key].draft;
          formData := saved.formData.GetOr(map[]);
          authors := saved.authors.GetOr([]);
        } else {
          formData := map[];
          authors := [];
        }
        currentStep := 0;
        SaveDraft();
      }
    }

    /**
     * `handleSubmit` at time `now` (ms since the epoch, written `submittedAt`
     * in ISO form), reached through the Submit button of the last step.
     */
    method HandleSubmit(now: nat, submittedAt: string) returns (trackingId: string)
      requires Valid() && selectedCohort.Some? && !NextShown(State())
      modifies this
      ensures trackingId == TrackingIds.TrackingId(now)
      ensures Valid() && State() == Submit(old(State()), trackingId, submittedAt)
    {
      trackingId := TrackingIds.TrackingId(now);
      RecordSubmission(trackingId, submittedAt);
    }

    /** The storage writes of `handleSubmit` and its delayed reset of the form. */
    method RecordSubmission(trackingId: string, submittedAt: string)
      requires Valid() && selectedCohort.Some?
      modifies this
      ensures Valid() && State() == Submit(old(State()), trackingId, submittedAt)
    {
      var cohort := selectedCohort.value;
      storage := storage[LastSubmissionKey := SubmissionEntry(SubmissionRecord(trackingId, submittedAt, cohort))] - {DraftKey(cohort)};
      formData := map[];
      authors := [];
      currentStep := 0;
    }
  }
}
