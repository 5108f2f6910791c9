/**
 * The job table's filter (JobTableProxyModel): which rows of the job list
 * the user sees. A row is shown when its job is valid, is not hidden (or
 * hidden jobs are shown), its state's status box is ticked, and every term
 * of the filter string holds: a plain term must occur in some text column,
 * ignoring letter case, and a term written with a leading '-' must occur in
 * none.
 *
 * One class stands for both revisions. The application revision loads its
 * filter from the settings store when it is built and writes it back on
 * every change; the older revision keeps it in memory only, and calls the
 * Canceled box "Killed" (JobStates uses one enumeration for both).
 */
module JobTableFilter {
  import opened JobStates
  import TextOps

  /** One display column of a row: text, or a value with no text form. */
  datatype Display = Text(text: string) | NoText

  /** What the filter sees of one row of the job table. */
  datatype Row = Row(valid: bool, hideFromGui: bool, state: JobState, columns: seq<Display>)

  /** The filter settings: the filter string and the nine check boxes. */
  datatype Filter = Filter(
    filterString: string,
    showHidden: bool,
    showNew: bool,
    showSubmitted: bool,
    showQueued: bool,
    showRunning: bool,
    showFinished: bool,
    showCanceled: bool,
    showError: bool)

  // ---- The row test ----

  /** The status switch: each state is gated by the box of its group. */
  predicate StateShown(f: Filter, s: JobState) {
    match s
    case Unknown | None | Accepted => f.showNew
    case QueuedLocal | QueuedRemote => f.showQueued
    case Submitted => f.showSubmitted
    case RunningLocal | RunningRemote => f.showRunning
    case Finished => f.showFinished
    case Canceled => f.showCanceled
    case Error => f.showError
  }

  /** The tests made before the filter string is looked at. */
  predicate Gates(f: Filter, row: Row) {
    row.valid && (!row.hideFromGui || f.showHidden) && StateShown(f, row.state)
  }

  /** The filter string cut at runs of white space, empty parts dropped. */
  function Terms(filterString: string): seq<string> {
    TextOps.Split(filterString, TextOps.IsSpace)
  }

  /** A term written with a leading '-' asks for rows that lack it. */
  predicate Negated(fullTerm: string) {
    |fullTerm| > 0 && fullTerm[0] == '-'
  }

  /** The text a term looks for: the term without its leading '-'. */
  function Body(fullTerm: string): (t: string)
    ensures Negated(fullTerm) ==> fullTerm == "-" + t
    ensures !Negated(fullTerm) ==> t == fullTerm
  {
    if Negated(fullTerm) then fullTerm[1..] else fullTerm
  }

  /** Case-insensitive containment in a column that has a text form. */
  predicate ColumnMatches(c: Display, term: string) {
    c.Text? && TextOps.Contains(TextOps.Lower(c.text), TextOps.Lower(term))
  }

  /** Some column of the row holds the term. */
  predicate TermMatch(columns: seq<Display>, term: string) {
    exists i :: 0 <= i < |columns| && ColumnMatches(columns[i], term)
  }

  /** The row survives one term: a match for a plain term, none for a negated one. */
  predicate TermPasses(columns: seq<Display>, fullTerm: string) {
    TermMatch(columns, Body(fullTerm)) != Negated(fullTerm)
  }

  /** Every one of the terms lets the row through. */
  predicate AllPass(columns: seq<Display>, terms: seq<string>) {
    forall i :: 0 <= i < |terms| ==> TermPasses(columns, terms[i])
  }

  /** JobTableProxyModel::filterAcceptsRow: the row is shown. */
  predicate Accepts(f: Filter, row: Row) {
    Gates(f, row) && (f.filterString == [] || AllPass(row.columns, Terms(f.filterString)))
  }

  // ---- What the row test promises ----

  /** The empty-string test is only a shortcut: a row is shown exactly when the gates and all terms pass. */
  lemma AcceptsByTerms(f: Filter, row: Row)
    ensures Accepts(f, row) <==> Gates(f, row) && AllPass(row.columns, Terms(f.filterString))
  {
    if f.filterString == [] {
      assert Terms(f.filterString) == [];
    }
  }

  /** Each state follows its own box and no other: changing any box but its own leaves it as it was. */
  lemma {:induction false} StateFollowsOneBox(f: Filter, g: Filter, s: JobState)
    requires s in {Unknown, None, Accepted} ==> f.showNew == g.showNew
    requires s in {QueuedLocal, QueuedRemote} ==> f.showQueued == g.showQueued
    requires s == Submitted ==> f.showSubmitted == g.showSubmitted
    requires s in {RunningLocal, RunningRemote} ==> f.showRunning == g.showRunning
    requires s == Finished ==> f.showFinished == g.showFinished
    requires s == Canceled ==> f.showCanceled == g.showCanceled
    requires s == Error ==> f.showError == g.showError
    ensures StateShown(f, s) == StateShown(g, s)
  {
    match s
    case Unknown => {}
    case None => {}
    case Accepted => {}
    case QueuedLocal => {}
    case QueuedRemote => {}
    case Submitted => {}
    case RunningLocal => {}
    case RunningRemote => {}
    case Finished => {}
    case Canceled => {}
    case Error => {}
  }

  /** A filter string of white space alone filters nothing: only the gates decide. */
  lemma BlankFilterShowsAll(f: Filter, row: Row)
    requires forall i :: 0 <= i < |f.filterString| ==> TextOps.IsSpace(f.filterString[i])
    ensures Accepts(f, row) <==> Gates(f, row)
  {
    SplitBlank(f.filterString, []);
    AcceptsByTerms(f, row);
  }

  /** Splitting text made only of separators yields the part read so far, if any. */
  lemma {:induction false} SplitBlank(s: string, cur: string)
    requires TextOps.NoneOf(cur, TextOps.IsSpace)
    requires forall i :: 0 <= i < |s| ==> TextOps.IsSpace(s[i])
    ensures TextOps.SplitFrom(s, TextOps.IsSpace, cur) == (if cur == [] then [] else [cur])
    decreases |s|
  {
    if s != [] {
      SplitBlank(s[1..], []);
    }
  }

  /** Splitting at a separator character splits the parts: those before it, then those after. */
  lemma {:induction false} SplitAtSpace(a: string, c: char, b: string, cur: string)
    requires TextOps.IsSpace(c) && TextOps.NoneOf(cur, TextOps.IsSpace)
    ensures TextOps.SplitFrom(a + [c] + b, TextOps.IsSpace, cur)
         == TextOps.SplitFrom(a, TextOps.IsSpace, cur) + TextOps.SplitFrom(b, TextOps.IsSpace, [])
    decreases |a|
  {
    if a == [] {
      assert a + [c] + b == [c] + b;
      assert ([c] + b)[1..] == b;
    } else {
      assert (a + [c] + b)[1..] == a[1..] + [c] + b;
      if TextOps.IsSpace(a[0]) {
        SplitAtSpace(a[1..], c, b, []);
      } else {
        SplitAtSpace(a[1..], c, b, cur + [a[0]]);
      }
    }
  }

  /** Two filter strings joined by a space hold the terms of both, in order. */
  lemma JoinedTerms(s: string, t: string)
    ensures Terms(s + " " + t) == Terms(s) + Terms(t)
  {
    assert s + " " + t == s + [' '] + t;
    SplitAtSpace(s, ' ', t, []);
  }

  /** Joining two filter strings with a space shows exactly the rows both show. */
  lemma JoinedFilterIsConjunction(f: Filter, s: string, t: string, row: Row)
    ensures Accepts(f.(filterString := s + " " + t), row)
        <==> Accepts(f.(filterString := s), row) && Accepts(f.(filterString := t), row)
  {
    JoinedTerms(s, t);
    var g, h, k := f.(filterString := s + " " + t), f.(filterString := s), f.(filterString := t);
    assert Gates(g, row) == Gates(h, row) == Gates(k, row) by {
      StateFollowsOneBox(g, f, row.state);
      StateFollowsOneBox(h, f, row.state);
      StateFollowsOneBox(k, f, row.state);
    }
    ConjunctionOf(f.(filterString := s + " " + t), f.(filterString := s), f.(filterString := t), row);
  }

  /** Three filters with the same boxes, the first holding the terms of the other two. */
  lemma ConjunctionOf(g: Filter, h: Filter, k: Filter, row: Row)
    requires Gates(g, row) == Gates(h, row) == Gates(k, row)
    requires Terms(g.filterString) == Terms(h.filterString) + Terms(k.filterString)
    ensures Accepts(g, row) <==> Accepts(h, row) && Accepts(k, row)
  {
    var gates := Gates(g, row);
    assert Accepts(g, row) <==> gates && AllPass(row.columns, Terms(g.filterString)) by {
      AcceptsByTerms(g, row);
    }
    assert Accepts(h, row) <==> gates && AllPass(row.columns, Terms(h.filterString)) by {
      AcceptsByTerms(h, row);
    }
    assert Accepts(k, row) <==> gates && AllPass(row.columns, Terms(k.filterString)) by {
      AcceptsByTerms(k, row);
    }
    AllPassConcat(row.columns, Terms(h.filterString), Terms(k.filterString));
  }

  /** The terms of two lists all pass exactly when those of each list do. */
  lemma AllPassConcat(columns: seq<Display>, a: seq<string>, b: seq<string>)
    ensures AllPass(columns, a + b) <==> AllPass(columns, a) && AllPass(columns, b)
  {
    assert forall i :: 0 <= i < |a| ==> (a + b)[i] == a[i];
    assert forall i :: 0 <= i < |b| ==> (a + b)[|a| + i] == b[i];
  }

  /** A '-' in front of a plain term shows exactly the rows the plain term hides. */
  lemma NegationComplements(columns: seq<Display>, term: string)
    requires !Negated(term)
    ensures TermPasses(columns, "-" + term) <==> !TermPasses(columns, term)
  {
    assert ("-" + term)[1..] == term;
  }

  /** A lone '-' looks for the empty text, which every text column holds: it hides every row that has one. */
  lemma LoneDash(columns: seq<Display>)
    ensures TermPasses(columns, "-") <==> forall i :: 0 <= i < |columns| ==> columns[i].NoText?
  {
    assert Body("-") == [];
    forall i | 0 <= i < |columns| && columns[i].Text?
      ensures ColumnMatches(columns[i], [])
    {
      assert TextOps.OccursAt(TextOps.Lower(columns[i].text), [], 0);
    }
  }

  /** Lower-casing is idempotent. */
  lemma LowerTwice(s: string)
    ensures TextOps.Lower(TextOps.Lower(s)) == TextOps.Lower(s)
  {
  }

  /** Letter case in a term makes no difference to which rows it lets through. */
  lemma CaseBlindTerm(columns: seq<Display>, fullTerm: string)
    ensures TermPasses(columns, TextOps.Lower(fullTerm)) == TermPasses(columns, fullTerm)
  {
    var low := TextOps.Lower(fullTerm);
    assert Negated(low) == Negated(fullTerm);
    assert Body(low) == TextOps.Lower(Body(fullTerm));
    LowerTwice(Body(fullTerm));
    assert forall i :: 0 <= i < |columns| ==>
      ColumnMatches(columns[i], Body(low)) == ColumnMatches(columns[i], Body(fullTerm));
  }

  // ---- The settings store (application revision) ----

  /** The entries of the "jobTable/filter" settings group. */
  datatype SettingKey =
    | FilterStringKey   // "filterString"
    | ShowHiddenKey     // "showHidden"
    | StatusNewKey      // "status/new"
    | StatusSubmittedKey
    | StatusQueuedKey
    | StatusRunningKey
    | StatusFinishedKey
    | StatusCanceledKey
    | StatusErrorKey

  /** A stored setting: the store keeps strings and booleans. */
  datatype Setting = SText(s: string) | SBool(b: bool)

  /** QVariant::toString. */
  function AsText(v: Setting): string {
    match v
    case SText(s) => s
    case SBool(b) => if b then "true" else "false"
  }

  /** QVariant::toBool: a string is false when empty, "0" or "false" in any letter case. */
  function AsBool(v: Setting): bool {
    match v
    case SBool(b) => b
    case SText(s) => !(s == "" || s == "0" || TextOps.Lower(s) == "false")
  }

  /** A check box as read back: ticked when the store has no entry for it. */
  function BoxOr(stored: map<SettingKey, Setting>, k: SettingKey): bool {
    if k in stored then AsBool(stored[k]) else true
  }

  /** The filter the application revision's constructor reads from the store. */
  function Loaded(stored: map<SettingKey, Setting>): (f: Filter)
    ensures FilterStringKey !in stored ==> f.filterString == []
    ensures ShowHiddenKey !in stored ==> f.showHidden
  {
    Filter(
      if FilterStringKey in stored then AsText(stored[FilterStringKey]) else [],
      BoxOr(stored, ShowHiddenKey),
      BoxOr(stored, StatusNewKey),
      BoxOr(stored, StatusSubmittedKey),
      BoxOr(stored, StatusQueuedKey),
      BoxOr(stored, StatusRunningKey),
      BoxOr(stored, StatusFinishedKey),
      BoxOr(stored, StatusCanceledKey),
      BoxOr(stored, StatusErrorKey))
  }

  /** The entry saveState writes under each key. */
  function SavedValue(f: Filter, k: SettingKey): Setting {
    match k
    case FilterStringKey => SText(f.filterString)
    case ShowHiddenKey => SBool(f.showHidden)
    case StatusNewKey => SBool(f.showNew)
    case StatusSubmittedKey => SBool(f.showSubmitted)
    case StatusQueuedKey => SBool(f.showQueued)
    case StatusRunningKey => SBool(f.showRunning)
    case StatusFinishedKey => SBool(f.showFinished)
    case StatusCanceledKey => SBool(f.showCanceled)
    case StatusErrorKey => SBool(f.showError)
  }

  /** Every entry of the group. */
  const AllKeys: set<SettingKey> := {FilterStringKey, ShowHiddenKey, StatusNewKey, StatusSubmittedKey,
    StatusQueuedKey, StatusRunningKey, StatusFinishedKey, StatusCanceledKey, StatusErrorKey}

  /** The entries saveState writes: every key of the group. */
  function Saved(f: Filter): (m: map<SettingKey, Setting>) {
    map k | k in AllKeys :: SavedValue(f, k)
  }

  /** Whatever the store held before, the filter saved into it is the filter loaded from it. */
  lemma SaveLoadRoundTrip(stored: map<SettingKey, Setting>, f: Filter)
    ensures Loaded(stored + Saved(f)) == f
  {
    var w := Saved(f);
    assert FilterStringKey in w && w[FilterStringKey] == SText(f.filterString);
    assert ShowHiddenKey in w && w[ShowHiddenKey] == SBool(f.showHidden);
    assert StatusNewKey in w && w[StatusNewKey] == SBool(f.showNew);
    assert StatusSubmittedKey in w && w[StatusSubmittedKey] == SBool(f.showSubmitted);
    assert StatusQueuedKey in w && w[StatusQueuedKey] == SBool(f.showQueued);
    assert StatusRunningKey in w && w[StatusRunningKey] == SBool(f.showRunning);
    assert StatusFinishedKey in w && w[StatusFinishedKey] == SBool(f.showFinished);
    assert StatusCanceledKey in w && w[StatusCanceledKey] == SBool(f.showCanceled);
    assert StatusErrorKey in w && w[StatusErrorKey] == SBool(f.showError);
    LoadedOver(stored, w, f);
  }

  /** Entries written over the store, holding every field of `f`, load as `f`. */
  lemma LoadedOver(stored: map<SettingKey, Setting>, w: map<SettingKey, Setting>, f: Filter)
    requires FilterStringKey in w && w[FilterStringKey] == SText(f.filterString)
    requires ShowHiddenKey in w && w[ShowHiddenKey] == SBool(f.showHidden)
    requires StatusNewKey in w && w[StatusNewKey] == SBool(f.showNew)
    requires StatusSubmittedKey in w && w[StatusSubmittedKey] == SBool(f.showSubmitted)
    requires StatusQueuedKey in w && w[StatusQueuedKey] == SBool(f.showQueued)
    requires StatusRunningKey in w && w[StatusRunningKey] == SBool(f.showRunning)
    requires StatusFinishedKey in w && w[StatusFinishedKey] == SBool(f.showFinished)
    requires StatusCanceledKey in w && w[StatusCanceledKey] == SBool(f.showCanceled)
    requires StatusErrorKey in w && w[StatusErrorKey] == SBool(f.showError)
    ensures Loaded(stored + w) == f
  {
  }

  /** With nothing stored, the filter starts empty with every box ticked. */
  lemma FreshStoreShowsAll(row: Row)
    ensures Accepts(Loaded(map[]), row) <==> row.valid
  {
  }

  // ---- The proxy model ----

  class ProxyModel {
    /** The application revision keeps its filter in the settings store; the older one does not. */
    const persists: bool
    var filterString: string
    var showHiddenJobs: bool
    var showStatusNew: bool
    var showStatusSubmitted: bool
    var showStatusQueued: bool
    var showStatusRunning: bool
    var showStatusFinished: bool
    var showStatusCanceled: bool
    var showStatusError: bool
    /** The "jobTable/filter" group of the settings store. */
    var settings: map<SettingKey, Setting>
    /** How many times the view was told to filter its rows again (invalidateFilter). */
    var invalidations: nat

    /** The filter the fields hold. */
    function Current(): Filter
      reads this
    {
      Filter(filterString, showHiddenJobs, showStatusNew, showStatusSubmitted, showStatusQueued,
             showStatusRunning, showStatusFinished, showStatusCanceled, showStatusError)
    }

    /** The application revision's constructor: the filter is read from the store. */
    constructor Load(stored: map<SettingKey, Setting>)
      ensures persists && Current() == Loaded(stored)
      ensures settings == stored && invalidations == 0
    {
      var f := Loaded(stored);
      persists := true;
      filterString, showHiddenJobs := f.filterString, f.showHidden;
      showStatusNew, showStatusSubmitted, showStatusQueued := f.showNew, f.showSubmitted, f.showQueued;
      showStatusRunning, showStatusFinished := f.showRunning, f.showFinished;
      showStatusCanceled, showStatusError := f.showCanceled, f.showError;
      settings, invalidations := stored, 0;
    }

    /** The older revision's constructor: the starting filter is given, and nothing is stored. */
    constructor (initial: Filter)
      ensures !persists && Current() == initial
      ensures settings == map[] && invalidations == 0
    {
      persists := false;
      filterString, showHiddenJobs := initial.filterString, initial.showHidden;
      showStatusNew, showStatusSubmitted, showStatusQueued := initial.showNew, initial.showSubmitted, initial.showQueued;
      showStatusRunning, showStatusFinished := initial.showRunning, initial.showFinished;
      showStatusCanceled, showStatusError := initial.showCanceled, initial.showError;
      settings, invalidations := map[], 0;
    }

    /** saveState (application revision; also run by its destructor). */
    method SaveState()
      requires persists
      modifies this
      ensures settings == old(settings) + Saved(Current())
      ensures Loaded(settings) == Current()
      ensures Current() == old(Current()) && invalidations == old(invalidations)
    {
      settings := settings + Saved(Current());
      SaveLoadRoundTrip(old(settings), Current());
    }

    /** What every setter does after a change: save (application revision only), then refilter. */
    method Changed()
      modifies this
      ensures settings == (if persists then old(settings) + Saved(Current()) else old(settings))
      ensures invalidations == old(invalidations) + 1
      ensures Current() == old(Current())
    {
      if persists {
        settings := settings + Saved(Current());
      }
      invalidations := invalidations + 1;
    }

    /** setFilterString. */
    method SetFilterString(str: string)
      modifies this
      ensures Current() == old(Current()).(filterString := str)
      ensures old(filterString) == str ==> settings == old(settings) && invalidations == old(invalidations)
      ensures old(filterString) != str ==> invalidations == old(invalidations) + 1
      ensures old(filterString) != str ==> settings == (if persists then old(settings) + Saved(Current()) else old(settings))
    {
      if filterString == str { return; }
      filterString := str;
      Changed();
    }

    /** setShowHiddenJobs. */
    method SetShowHiddenJobs(show: bool)
      modifies this
      ensures Current() == old(Current()).(showHidden := show)
      ensures old(showHiddenJobs) == show ==> settings == old(settings) && invalidations == old(invalidations)
      ensures old(showHiddenJobs) != show ==> invalidations == old(invalidations) + 1
      ensures old(showHiddenJobs) != show ==> settings == (if persists then old(settings) + Saved(Current()) else old(settings))
    {
      if showHiddenJobs == show { return; }
      showHiddenJobs := show;
      Changed();
    }

    /** setShowStatusNew. */
    method SetShowStatusNew(show: bool)
      modifies this
      ensures Current() == old(Current()).(showNew := show)
      ensures old(showStatusNew) == show ==> settings == old(settings) && invalidations == old(invalidations)
      ensures old(showStatusNew) != show ==> invalidations == old(invalidations) + 1
      ensures old(showStatusNew) != show ==> settings == (if persists then old(settings) + Saved(Current()) else old(settings))
    {
      if showStatusNew == show { return; }
      showStatusNew := show;
      Changed();
    }

    /** setShowStatusSubmitted. */
    method SetShowStatusSubmitted(show: bool)
      modifies this
      ensures Current() == old(Current()).(showSubmitted := show)
      ensures old(showStatusSubmitted) == show ==> settings == old(settings) && invalidations == old(invalidations)
      ensures old(showStatusSubmitted) != show ==> invalidations == old(invalidations) + 1
      ensures old(showStatusSubmitted) != show ==> settings == (if persists then old(settings) + Saved(Current()) else old(settings))
    {
      if showStatusSubmitted == show { return; }
      showStatusSubmitted := show;
      Changed();
    }

    /** setShowStatusQueued. */
    method SetShowStatusQueued(show: bool)
      modifies this
      ensures Current() == old(Current()).(showQueued := show)
      ensures old(showStatusQueued) == show ==> settings == old(settings) && invalidations == old(invalidations)
      ensures old(showStatusQueued) != show ==> invalidations == old(invalidations) + 1
      ensures old(showStatusQueued) != show ==> settings == (if persists then old(settings) + Saved(Current()) else old(settings))
    {
      if showStatusQueued == show { return; }
      showStatusQueued := show;
      Changed();
    }

    /** setShowStatusRunning. */
    method SetShowStatusRunning(show: bool)
      modifies this
      ensures Current() == old(Current()).(showRunning := show)
      ensures old(showStatusRunning) == show ==> settings == old(settings) && invalidations == old(invalidations)
      ensures old(showStatusRunning) != show ==> invalidations == old(invalidations) + 1
      ensures old(showStatusRunning) != show ==> settings == (if persists then old(settings) + Saved(Current()) else old(settings))
    {
      if showStatusRunning == show { return; }
      showStatusRunning := show;
      Changed();
    }

    /** setShowStatusFinished. */
    method SetShowStatusFinished(show: bool)
      modifies this
      ensures Current() == old(Current()).(showFinished := show)
      ensures old(showStatusFinished) == show ==> settings == old(settings) && invalidations == old(invalidations)
      ensures old(showStatusFinished) != show ==> invalidations == old(invalidations) + 1
      ensures old(showStatusFinished) != show ==> settings == (if persists then old(settings) + Saved(Current()) else old(settings))
    {
      if showStatusFinished == show { return; }
      showStatusFinished := show;
      Changed();
    }

    /** setShowStatusCanceled (setShowStatusKilled in the older revision). */
    method SetShowStatusCanceled(show: bool)
      modifies this
      ensures Current() == old(Current()).(showCanceled := show)
      ensures old(showStatusCanceled) == show ==> settings == old(settings) && invalidations == old(invalidations)
      ensures old(showStatusCanceled) != show ==> invalidations == old(invalidations) + 1
      ensures old(showStatusCanceled) != show ==> settings == (if persists then old(settings) + Saved(Current()) else old(settings))
    {
      if showStatusCanceled == show { return; }
      showStatusCanceled := show;
      Changed();
    }

    /** setShowStatusError. */
    method SetShowStatusError(show: bool)
      modifies this
      ensures Current() == old(Current()).(showError := show)
      ensures old(showStatusError) == show ==> settings == old(settings) && invalidations == old(invalidations)
      ensures old(showStatusError) != show ==> invalidations == old(invalidations) + 1
      ensures old(showStatusError) != show ==> settings == (if persists then old(settings) + Saved(Current()) else old(settings))
    {
      if showStatusError == show { return; }
      showStatusError := show;
      Changed();
    }

    /** filterAcceptsRow, over the current filter. */
    method FilterAcceptsRow(row: Row) returns (accept: bool)
      ensures accept == Accepts(Current(), row)
    {
      if !row.valid || (row.hideFromGui && !showHiddenJobs) {
        return false;
      }
      var shown := match row.state
        case Unknown | None | Accepted => showStatusNew
        case QueuedLocal | QueuedRemote => showStatusQueued
        case Submitted => showStatusSubmitted
        case RunningLocal | RunningRemote => showStatusRunning
        case Finished => showStatusFinished
        case Canceled => showStatusCanceled
        case Error => showStatusError;
      if !shown {
        return false;
      }
      if filterString == [] {
        return true;
      }
      accept := TermsPass(row.columns, Terms(filterString));
    }

    /** The loop over the terms, then over the columns, of filterAcceptsRow. */
    static method TermsPass(columns: seq<Display>, terms: seq<string>) returns (pass: bool)
      ensures pass == AllPass(columns, terms)
    {
      var i := 0;
      while i < |terms|
        invariant 0 <= i <= |terms|
        invariant forall k :: 0 <= k < i ==> TermPasses(columns, terms[k])
      {
        var fullTerm := terms[i];
        var isNegated := false;
        var term := fullTerm;
        if |fullTerm| > 0 && fullTerm[0] == '-' {
          isNegated := true;
          term := fullTerm[1..];
        }
        var termMatch := AnyColumnMatches(columns, term);
        if termMatch == isNegated {
          return false;
        }
        i := i + 1;
      }
      return true;
    }

    /** The loop over the columns: does some column hold the term? */
    static method AnyColumnMatches(columns: seq<Display>, term: string) returns (termMatch: bool)
      ensures termMatch == TermMatch(columns, term)
    {
      var needle := TextOps.Lower(term);
      var j := 0;
      while j < |columns|
        invariant 0 <= j <= |columns|
        invariant forall k :: 0 <= k < j ==> !ColumnMatches(columns[k], term)
      {
        if columns[j].Text? && TextOps.Contains(TextOps.Lower(columns[j].text), needle) {
          return true;
        }
        j := j + 1;
      }
      return false;
    }
  }
}
