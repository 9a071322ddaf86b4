/**
 * The header's search box: the debounced search it issues as the query changes, the answers it
 * receives, the dropdown it shows and the result click that navigates away.
 *
 * Time is abstracted into events: `TimerFired` is the end of the 300 ms debounce, `SearchResolved`
 * the end of the search's own latency. Searches that have been sent are answered in the order they
 * were sent, since every one waits the same latency.
 */
module HeaderSearch {
  import opened Wrappers
  import opened Types
  import opened Text
  import Search

  datatype HeaderState = HeaderState(
    query: string,
    results: seq<SearchResult>,
    loading: bool,
    focused: bool,
    mobileOpen: bool,
    profileOpen: bool,
    pending: Option<string>,   // the query whose debounce timer is running, if any
    inFlight: seq<string>)     // the queries sent and not yet answered, oldest first

  const Initial: HeaderState := HeaderState("", [], false, false, false, false, None, [])

  /** The query is blank: only white space, which the effect treats as no query at all. */
  predicate Blank(q: string)
  {
    Trim(q) == ""
  }

  /**
   * The search effect, as written: changing the query cancels the running debounce timer; a blank
   * query empties the results, and any other query turns on the spinner and starts a new timer for
   * the untrimmed query. The blank branch leaves the spinner as it was. Setting the query it
   * already holds does not re-run the effect.
   */
  function QueryChanged(s: HeaderState, q: string): (r: HeaderState)
    ensures r.query == q && r.inFlight == s.inFlight
    ensures r.focused == s.focused && r.mobileOpen == s.mobileOpen && r.profileOpen == s.profileOpen
    ensures q != s.query && Blank(q) ==> r.results == [] && r.pending.None? && r.loading == s.loading
    ensures q != s.query && !Blank(q) ==> r.results == s.results && r.loading && r.pending == Some(q)
    ensures q == s.query ==> r == s
  {
    if q == s.query then s
    else if Blank(q) then s.(query := q, results := [], pending := None)
    else s.(query := q, loading := true, pending := Some(q))
  }

  /** The search effect with the spinner turned off for a blank query, as the dropdown needs. */
  function QueryChangedIntended(s: HeaderState, q: string): (r: HeaderState)
    ensures r.query == q && r.inFlight == s.inFlight
    ensures r.focused == s.focused && r.mobileOpen == s.mobileOpen && r.profileOpen == s.profileOpen
    ensures q != s.query && Blank(q) ==> r.results == [] && r.pending.None? && !r.loading
    ensures q != s.query && !Blank(q) ==> r.results == s.results && r.loading && r.pending == Some(q)
    ensures q == s.query ==> r == s
    ensures !Blank(q) ==> r == QueryChanged(s, q)
  {
    if q == s.query then s
    else if Blank(q) then s.(query := q, results := [], pending := None, loading := false)
    else QueryChanged(s, q)
  }

  /** The debounce timer ends: its query is sent to the search service. */
  function TimerFired(s: HeaderState): (r: HeaderState)
    ensures r.pending.None?
    ensures s.pending.Some? ==> r.inFlight == s.inFlight + [s.pending.value]
    ensures s.pending.None? ==> r == s
    ensures r.query == s.query && r.results == s.results && r.loading == s.loading
  {
    match s.pending
    case None => s
    case Some(q) => s.(pending := None, inFlight := s.inFlight + [q])
  }

  /**
   * The oldest search sent is answered: its results replace the shown ones and the spinner stops,
   * whatever the query has become meanwhile.
   */
  function SearchResolved(s: HeaderState, c: Search.Catalog): (r: HeaderState)
    ensures |s.inFlight| > 0 ==>
      r.results == Search.GlobalSearch(s.inFlight[0], c) && !r.loading && r.inFlight == s.inFlight[1..]
      && r.query == s.query && r.pending == s.pending
    ensures |s.inFlight| == 0 ==> r == s
  {
    if |s.inFlight| == 0 then s
    else s.(results := Search.GlobalSearch(s.inFlight[0], c), loading := false, inFlight := s.inFlight[1..])
  }

  /**
   * A click on a result: its screen is opened, the query and results are cleared, the box loses
   * focus and the mobile search closes. Clearing the query runs the search effect. Results are
   * only listed once loading has finished, so the spinner is off when a result is clicked.
   */
  function ResultClicked(s: HeaderState, res: SearchResult): (r: (HeaderState, View))
    requires !s.loading
    ensures r.1 == res.view
    ensures r.0.query == "" && r.0.results == [] && !r.0.focused && !r.0.mobileOpen && !r.0.loading
    ensures s.query != "" ==> r.0.pending.None?
    ensures s.query == "" ==> r.0.pending == s.pending
    ensures r.0.inFlight == s.inFlight && r.0.profileOpen == s.profileOpen
    ensures !ShowDropdown(r.0)
  {
    var cleared := s.(results := [], focused := false, mobileOpen := false);
    (QueryChanged(cleared, ""), res.view)
  }

  /**
   * A mouse press outside the profile menu closes it; one outside the search box unfocuses it and,
   * on a narrow window, closes the mobile search.
   */
  function ClickOutside(s: HeaderState, inProfile: bool, inSearch: bool, narrow: bool): (r: HeaderState)
    ensures r.profileOpen == (s.profileOpen && inProfile)
    ensures r.focused == (s.focused && inSearch)
    ensures r.mobileOpen == (s.mobileOpen && (inSearch || !narrow))
    ensures r.query == s.query && r.results == s.results && r.loading == s.loading
    ensures r.pending == s.pending && r.inFlight == s.inFlight
  {
    var s1 := if inProfile then s else s.(profileOpen := false);
    if inSearch then s1
    else if narrow then s1.(focused := false, mobileOpen := false)
    else s1.(focused := false)
  }

  /** The dropdown shows while the box has focus and the query is not empty; white space counts. */
  predicate ShowDropdown(s: HeaderState)
  {
    s.focused && |s.query| > 0
  }

  datatype Dropdown = Hidden | Searching | ResultList(items: seq<SearchResult>) | NoResults(query: string)

  /** What the dropdown shows: nothing, the spinner, the results, or a no-results line naming the query. */
  function DropdownOf(s: HeaderState): (r: Dropdown)
    ensures r.Hidden? <==> !ShowDropdown(s)
    ensures r.Searching? <==> ShowDropdown(s) && s.loading
    ensures r.ResultList? ==> r.items == s.results && |r.items| > 0
    ensures r.NoResults? <==> ShowDropdown(s) && !s.loading && s.results == []
  {
    if !ShowDropdown(s) then Hidden
    else if s.loading then Searching
    else if |s.results| > 0 then ResultList(s.results)
    else NoResults(s.query)
  }

  datatype HeaderEvent =
    | Typed(q: string)
    | Focused
    | TimerEnds
    | SearchAnswered
    | PressedOutside(inProfile: bool, inSearch: bool, narrow: bool)
    | SearchIconClicked
    | CloseSearchClicked
    | ProfileToggled
    | ResultChosen(res: SearchResult)

  /**
   * One event, with the effect as written; the second component is the screen a result click
   * opens. Only a listed result can be clicked.
   */
  function Step(s: HeaderState, e: HeaderEvent, c: Search.Catalog): (r: (HeaderState, Option<View>))
    ensures r.1.Some? <==> e.ResultChosen? && DropdownOf(s).ResultList? && e.res in s.results
    ensures e.Typed? ==> r.0 == QueryChanged(s, e.q)
  {
    match e
    case Typed(q) => (QueryChanged(s, q), None)
    case Focused => (s.(focused := true), None)
    case TimerEnds => (TimerFired(s), None)
    case SearchAnswered => (SearchResolved(s, c), None)
    case PressedOutside(p, i, n) => (ClickOutside(s, p, i, n), None)
    case SearchIconClicked => (s.(mobileOpen := true), None)
    case CloseSearchClicked => (s.(mobileOpen := false), None)
    case ProfileToggled => (s.(profileOpen := !s.profileOpen), None)
    case ResultChosen(res) =>
      if DropdownOf(s).ResultList? && res in s.results then
        var (t, v) := ResultClicked(s, res);
        (t, Some(v))
      else (s, None)
  }

  function Run(s: HeaderState, events: seq<HeaderEvent>, c: Search.Catalog): HeaderState
    decreases |events|
  {
    if |events| == 0 then s else Run(Step(s, events[0], c).0, events[1..], c)
  }

  /** One event, with the spinner turned off after a blank query. */
  function StepIntended(s: HeaderState, e: HeaderEvent, c: Search.Catalog): (r: (HeaderState, Option<View>))
    ensures e.Typed? ==> r.0 == QueryChangedIntended(s, e.q) && r.1.None?
    ensures !e.Typed? ==> r == Step(s, e, c)
  {
    match e
    case Typed(q) => (QueryChangedIntended(s, q), None)
    case _ => Step(s, e, c)
  }

  function RunIntended(s: HeaderState, events: seq<HeaderEvent>, c: Search.Catalog): HeaderState
    decreases |events|
  {
    if |events| == 0 then s else RunIntended(StepIntended(s, events[0], c).0, events[1..], c)
  }

  /** The two headers differ only when a new blank query is typed. */
  lemma StepsDifferOnlyOnBlank(s: HeaderState, e: HeaderEvent, c: Search.Catalog)
    ensures StepIntended(s, e, c) != Step(s, e, c) ==> e.Typed? && e.q != s.query && Blank(e.q) && s.loading
  {
  }

  /** A running debounce timer is for the current query, and that query is not blank. */
  predicate TimerForQuery(s: HeaderState)
  {
    s.pending.Some? ==> s.pending.value == s.query && !Blank(s.query)
  }

  /**
   * What the header as written keeps: the timer is for the current query, and the spinner turns
   * only while there is a timer or a search to answer, or when the query is blank.
   */
  predicate ConsistentAsWritten(s: HeaderState)
  {
    TimerForQuery(s) && (s.loading ==> s.pending.Some? || |s.inFlight| > 0 || Blank(s.query))
  }

  /**
   * What the intended header keeps: the timer is for the current query, and the spinner turns
   * only while there is a timer or a search still to be answered.
   */
  predicate Consistent(s: HeaderState)
  {
    TimerForQuery(s) && (s.loading ==> s.pending.Some? || |s.inFlight| > 0)
  }

  lemma StepKeepsConsistent(s: HeaderState, e: HeaderEvent, c: Search.Catalog)
    requires ConsistentAsWritten(s)
    ensures ConsistentAsWritten(Step(s, e, c).0)
  {
    match e
    case Typed(q) =>
      var r := QueryChanged(s, q);
      if q == s.query {
        assert r == s;
      } else if Blank(q) {
        assert r.pending.None? && r.query == q;
      } else {
        assert r.pending == Some(q) && r.query == q;
      }
    case TimerEnds =>
      var r := TimerFired(s);
      assert s.pending.Some? ==> |r.inFlight| > 0;
    case SearchAnswered =>
      var r := SearchResolved(s, c);
      assert !r.loading || r == s;
    case ResultChosen(res) =>
      if DropdownOf(s).ResultList? && res in s.results {
        assert s.query != "";
        var r := ResultClicked(s, res).0;
        assert r.pending.None? && !r.loading;
      }
    case _ =>
  }

  lemma {:induction false} RunKeepsConsistent(s: HeaderState, events: seq<HeaderEvent>, c: Search.Catalog)
    requires ConsistentAsWritten(s)
    ensures ConsistentAsWritten(Run(s, events, c))
    decreases |events|
  {
    if |events| > 0 {
      StepKeepsConsistent(s, events[0], c);
      RunKeepsConsistent(Step(s, events[0], c).0, events[1..], c);
    }
  }

  /** As written, from the opening state the spinner shows only while a search is coming or the query is blank. */
  lemma SpinnerAwaitsAnswerOrBlank(events: seq<HeaderEvent>, c: Search.Catalog)
    ensures DropdownOf(Run(Initial, events, c)).Searching? ==>
      Run(Initial, events, c).pending.Some? || |Run(Initial, events, c).inFlight| > 0
      || Blank(Run(Initial, events, c).query)
  {
    RunKeepsConsistent(Initial, events, c);
  }

  lemma StepIntendedKeepsConsistent(s: HeaderState, e: HeaderEvent, c: Search.Catalog)
    requires Consistent(s)
    ensures Consistent(StepIntended(s, e, c).0)
  {
    match e
    case Typed(q) =>
      var r := QueryChangedIntended(s, q);
      if q == s.query {
        assert r == s;
      } else if Blank(q) {
        assert r.pending.None? && !r.loading;
      } else {
        assert r.pending == Some(q) && r.query == q;
      }
    case TimerEnds =>
      var r := TimerFired(s);
      assert s.pending.Some? ==> |r.inFlight| > 0;
    case SearchAnswered =>
      var r := SearchResolved(s, c);
      assert !r.loading || r == s;
    case ResultChosen(res) =>
      if DropdownOf(s).ResultList? && res in s.results {
        var r := ResultClicked(s, res).0;
        assert !r.loading && TimerForQuery(r);
      }
    case _ =>
  }

  lemma {:induction false} RunIntendedKeepsConsistent(s: HeaderState, events: seq<HeaderEvent>, c: Search.Catalog)
    requires Consistent(s)
    ensures Consistent(RunIntended(s, events, c))
    decreases |events|
  {
    if |events| > 0 {
      StepIntendedKeepsConsistent(s, events[0], c);
      RunIntendedKeepsConsistent(StepIntended(s, events[0], c).0, events[1..], c);
    }
  }

  /** With the intended effect, from the opening state, whenever the spinner shows there is a search still coming. */
  lemma SpinnerAlwaysAwaitsAnswerIntended(events: seq<HeaderEvent>, c: Search.Catalog)
    ensures DropdownOf(RunIntended(Initial, events, c)).Searching? ==>
      RunIntended(Initial, events, c).pending.Some? || |RunIntended(Initial, events, c).inFlight| > 0
  {
    RunIntendedKeepsConsistent(Initial, events, c);
  }

  /** A single space is blank. */
  lemma SpaceIsBlank()
    ensures Blank(" ")
  {
    TrimEmptyIffBlank(" ");
  }

  /** A letter is not blank. */
  lemma LetterIsNotBlank()
    ensures !Blank("a")
  {
    assert "a"[0] == 'a';
    assert !IsSpace('a');
    TrimEmptyIffBlank("a");
  }

  /**
   * With the effect as written, replacing a non-blank query with a blank one before the debounce
   * ends, starting from a focused idle box, cancels the only search while the spinner stays on.
   */
  lemma BlankAfterTypingSpins(s0: HeaderState, a: string, b: string, c: Search.Catalog)
    requires s0.focused && !s0.loading && s0.pending.None? && s0.inFlight == []
    requires a != s0.query && !Blank(a) && b != a && Blank(b) && |b| > 0
    ensures var s := QueryChanged(QueryChanged(s0, a), b);
      DropdownOf(s) == Searching && s.pending.None? && s.inFlight == []
      && TimerFired(s) == s && SearchResolved(s, c) == s && !Consistent(s)
  {
    var s1 := QueryChanged(s0, a);
    assert s1.loading && s1.pending == Some(a) && s1.focused;
    var s2 := QueryChanged(s1, b);
    assert s2.loading && s2.pending.None? && s2.focused && s2.query == b && s2.inFlight == [];
  }

  /**
   * With the effect as written, typing a letter and replacing it with a space before the debounce
   * ends cancels the only search while the spinner stays on: the dropdown says "Searching..."
   * with nothing left to answer it, and timer or answer events change nothing.
   */
  lemma BlankQuerySpinsForever(c: Search.Catalog)
    ensures var s := QueryChanged(QueryChanged(Initial.(focused := true), "a"), " ");
      DropdownOf(s) == Searching && s.pending.None? && s.inFlight == []
      && TimerFired(s) == s && SearchResolved(s, c) == s && !Consistent(s)
  {
    SpaceIsBlank();
    LetterIsNotBlank();
    BlankAfterTypingSpins(Initial.(focused := true), "a", " ", c);
  }

  /**
   * With the intended effect, replacing a non-blank query with a blank one leaves the dropdown
   * saying there are no results.
   */
  lemma BlankAfterTypingIntended(s0: HeaderState, a: string, b: string)
    requires Consistent(s0) && s0.focused && s0.inFlight == []
    requires a != s0.query && !Blank(a) && b != a && Blank(b) && |b| > 0
    ensures var s := QueryChangedIntended(QueryChangedIntended(s0, a), b);
      DropdownOf(s) == NoResults(b) && Consistent(s)
  {
    var s1 := QueryChangedIntended(s0, a);
    assert s1.pending == Some(a) && s1.focused;
    var s2 := QueryChangedIntended(s1, b);
    assert s2.results == [] && !s2.loading && s2.pending.None? && s2.focused && s2.query == b;
  }

  /** With the intended effect the same keystrokes leave the dropdown saying there are no results. */
  lemma BlankQueryIntendedShowsNoResults()
    ensures var s := QueryChangedIntended(QueryChangedIntended(Initial.(focused := true), "a"), " ");
      DropdownOf(s) == NoResults(" ") && Consistent(s)
  {
    SpaceIsBlank();
    LetterIsNotBlank();
    BlankAfterTypingIntended(Initial.(focused := true), "a", " ");
  }
}
