/**
 * The command palette: the state it keeps, its keyboard handling while open, and the grouping
 * of results by type for display.
 */
module Palette {
  import opened Wrappers
  import opened Types
  import opened Seqs
  import Search

  // The selection index.

  /** A JavaScript number as the selection handler produces it: an integer, or NaN after `x % 0`. */
  datatype Index = Num(v: int) | NaN

  /** JavaScript's `%`, which truncates toward zero; the sign follows the dividend. */
  function TruncRem(a: int, n: nat): (r: int)
    requires n > 0
    ensures a >= 0 ==> 0 <= r < n && r == a % n
    ensures a < 0 ==> -(n as int) < r <= 0 && r == -((-a) % n)
  {
    if a >= 0 then a % n else -((-a) % n)
  }

  /** `(x + delta) % n` on a JavaScript number: NaN stays NaN, and a zero divisor yields NaN. */
  function AddMod(x: Index, delta: int, n: nat): (r: Index)
    ensures n == 0 || x.NaN? <==> r.NaN?
    ensures x.Num? && n > 0 && 0 <= x.v + delta ==> r == Num((x.v + delta) % n)
  {
    if n == 0 || x.NaN? then NaN else Num(TruncRem(x.v + delta, n))
  }

  // The palette's state.

  datatype PaletteState = PaletteState(
    open: bool, query: string, results: seq<SearchResult>, selected: Index, loading: bool)

  /** The state of a palette that has never been opened. */
  const Initial: PaletteState := PaletteState(false, "", [], Num(0), false)

  /** The selection names a row of the results. */
  predicate SelectionInRange(s: PaletteState)
  {
    s.selected.Num? && 0 <= s.selected.v < |s.results|
  }

  /** Opening issues a search for the empty query: loading begins and `""` is the query sent. */
  function Open(s: PaletteState): (r: (PaletteState, string))
    ensures r.0.open && r.0.loading && r.1 == ""
    ensures r.0.query == s.query && r.0.results == s.results && r.0.selected == s.selected
  {
    (s.(open := true, loading := true), "")
  }

  /** Closing clears the query and the results and puts the selection back on the first row. */
  function Close(s: PaletteState): (r: PaletteState)
    ensures !r.open && r.query == "" && r.results == [] && r.selected == Num(0)
    ensures r.loading == s.loading
  {
    s.(open := false, query := "", results := [], selected := Num(0))
  }

  /** An answer arriving replaces the results, selects the first row and ends loading. */
  function ResultsArrived(s: PaletteState, res: seq<SearchResult>): (r: PaletteState)
    ensures r.results == res && r.selected == Num(0) && !r.loading
    ensures r.open == s.open && r.query == s.query
    ensures |res| > 0 ==> SelectionInRange(r)
  {
    s.(results := res, selected := Num(0), loading := false)
  }

  /** Typing replaces the query; the search for it waits for the debounce. */
  function QueryTyped(s: PaletteState, q: string): (r: PaletteState)
    ensures r.query == q
    ensures r.open == s.open && r.results == s.results && r.selected == s.selected && r.loading == s.loading
  {
    s.(query := q)
  }

  /** The 200 ms debounce ends: the current query is sent and loading begins. */
  function DebounceEnded(s: PaletteState): (r: (PaletteState, string))
    ensures r.1 == s.query && r.0.loading
    ensures r.0.open == s.open && r.0.query == s.query && r.0.results == s.results && r.0.selected == s.selected
  {
    (s.(loading := true), s.query)
  }

  /**
   * Typing a query, letting the debounce end and receiving the answer shows the search for that
   * query with the first row selected, and that row exists whenever anything was found.
   */
  lemma TypeThenAnswer(s: PaletteState, q: string, c: Search.Catalog)
    ensures var (t, sent) := DebounceEnded(QueryTyped(s, q));
      sent == q
      && ResultsArrived(t, Search.GlobalSearch(sent, c)).results == Search.GlobalSearch(q, c)
      && ResultsArrived(t, Search.GlobalSearch(sent, c)).query == q
      && ResultsArrived(t, Search.GlobalSearch(sent, c)).open == s.open
      && (|Search.GlobalSearch(q, c)| > 0 <==> SelectionInRange(ResultsArrived(t, Search.GlobalSearch(sent, c))))
  {
  }

  datatype Key = Escape | ArrowDown | ArrowUp | Enter | OtherKey

  /**
   * The window key handler. While closed every key is ignored. Escape closes; the arrows move the
   * selection around the results, wrapping at either end; Enter on a row that exists opens that
   * row's screen and closes. The second component is the screen to switch to, if any.
   */
  function HandleKey(s: PaletteState, k: Key): (r: (PaletteState, Option<View>))
    ensures !s.open ==> r == (s, None)
    ensures r.1.Some? <==> s.open && k == Enter && SelectionInRange(s)
    ensures r.1.Some? ==> r.1.value == s.results[s.selected.v].view && !r.0.open
    ensures s.open && k == Escape ==> r.0 == Close(s)
    ensures s.open && (k == ArrowDown || k == ArrowUp) ==> r.0 == s.(selected := r.0.selected)
  {
    if !s.open then (s, None)
    else
      var n := |s.results|;
      match k
      case Escape => (Close(s), None)
      case ArrowDown => (s.(selected := AddMod(s.selected, 1, n)), None)
      case ArrowUp => (s.(selected := AddMod(s.selected, n - 1, n)), None)
      case Enter =>
        if SelectionInRange(s) then (Close(s), Some(s.results[s.selected.v].view))
        else (s, None)
      case OtherKey => (s, None)
  }

  /** The arrows keep a selection on a row of a non-empty list. */
  lemma ArrowsKeepSelectionInRange(s: PaletteState, k: Key)
    requires s.open && SelectionInRange(s) && (k == ArrowDown || k == ArrowUp)
    ensures SelectionInRange(HandleKey(s, k).0)
  {
  }

  /** A product of a positive factor and a positive multiplier is at least the multiplier. */
  lemma MulAtLeast(a: int, n: int)
    ensures a >= 1 && n > 0 ==> a * n >= n
  {
  }

  /** Euclidean division has one answer: a value written as `k * n + r` with `0 <= r < n` leaves remainder `r`. */
  lemma ModUnique(x: int, k: int, r: int, n: int)
    requires n > 0 && 0 <= r < n && x == k * n + r
    ensures x % n == r
  {
    var q := x / n;
    var m := x % n;
    assert (q - k) * n == r - m;
    MulAtLeast(q - k, n);
    MulAtLeast(k - q, n);
    assert q == k;
  }

  /** The row after `i`, wrapping from the last to the first. */
  function Next(i: int, n: int): int
  {
    if i + 1 == n then 0 else i + 1
  }

  /** The row before `i`, wrapping from the first to the last. */
  function Prev(i: int, n: int): int
  {
    if i == 0 then n - 1 else i - 1
  }

  lemma ArrowArithmetic(i: int, n: nat)
    requires 0 <= i < n
    ensures (i + 1) % n == Next(i, n)
    ensures (i + (n - 1)) % n == Prev(i, n)
  {
    if i + 1 == n {
      ModUnique(i + 1, 1, 0, n);
    } else {
      ModUnique(i + 1, 0, i + 1, n);
    }
    if i == 0 {
      ModUnique(i + (n - 1), 0, n - 1, n);
    } else {
      ModUnique(i + (n - 1), 1, i - 1, n);
    }
  }

  /** Down moves to the next row and Up to the previous one, wrapping at either end; each undoes the other. */
  lemma DownThenUp(s: PaletteState)
    requires s.open && SelectionInRange(s)
    ensures HandleKey(s, ArrowDown).0.selected == Num(Next(s.selected.v, |s.results|))
    ensures HandleKey(s, ArrowUp).0.selected == Num(Prev(s.selected.v, |s.results|))
    ensures HandleKey(HandleKey(s, ArrowDown).0, ArrowUp).0 == s
    ensures HandleKey(HandleKey(s, ArrowUp).0, ArrowDown).0 == s
  {
    var n := |s.results|;
    var i := s.selected.v;
    ArrowArithmetic(i, n);
    ArrowArithmetic(Next(i, n), n);
    ArrowArithmetic(Prev(i, n), n);
  }

  function Presses(s: PaletteState, k: Key, times: nat): PaletteState
    decreases times
  {
    if times == 0 then s else Presses(HandleKey(s, k).0, k, times - 1)
  }

  /** Pressing Down `times` times from row `i`, `i + times <= n`, lands on row `i + times`, or on the first row when that is `n`. */
  lemma {:induction false} DownPresses(s: PaletteState, times: nat)
    requires s.open && SelectionInRange(s)
    requires s.selected.v + times <= |s.results|
    ensures Presses(s, ArrowDown, times)
         == s.(selected := Num(if s.selected.v + times == |s.results| then 0 else s.selected.v + times))
    decreases times
  {
    if times > 0 {
      var n := |s.results|;
      DownThenUp(s);
      var next := HandleKey(s, ArrowDown).0;
      assert next == s.(selected := Num(Next(s.selected.v, n)));
      if s.selected.v + 1 < n {
        DownPresses(next, times - 1);
      }
    }
  }

  /** Going once round the list with Down brings the selection back to the first row. */
  lemma FullCircle(s: PaletteState)
    requires s.open && |s.results| > 0 && s.selected == Num(0)
    ensures Presses(s, ArrowDown, |s.results|) == s
  {
    DownPresses(s, |s.results|);
  }

  /** On an empty list the arrows make the selection NaN, after which Enter does nothing. */
  lemma EmptyResultsEnterInert(s: PaletteState)
    requires s.open && |s.results| == 0
    ensures HandleKey(s, ArrowDown).0.selected == NaN
    ensures HandleKey(HandleKey(s, ArrowDown).0, Enter) == (HandleKey(s, ArrowDown).0, None)
  {
  }

  // Grouping for display.

  /** A heading and the results under it. */
  datatype Group = Group(kind: ResultType, items: seq<SearchResult>)

  /** Where the group for `k` is, if there is one. */
  function FindGroup(groups: seq<Group>, k: ResultType): (r: int)
    ensures -1 <= r < |groups|
    ensures r >= 0 ==> groups[r].kind == k
    ensures r == -1 <==> forall i :: 0 <= i < |groups| ==> groups[i].kind != k
  {
    if |groups| == 0 then -1
    else if groups[|groups| - 1].kind == k then |groups| - 1
    else FindGroup(groups[..|groups| - 1], k)
  }

  /** One step of the `reduce`: push onto the type's group, opening a new group at the end for a new type. */
  function Push(groups: seq<Group>, x: SearchResult): (r: seq<Group>)
    ensures FindGroup(groups, x.kind) == -1 ==> r == groups + [Group(x.kind, [x])]
    ensures FindGroup(groups, x.kind) != -1 ==>
      r == groups[FindGroup(groups, x.kind) := Group(x.kind, groups[FindGroup(groups, x.kind)].items + [x])]
  {
    var g := FindGroup(groups, x.kind);
    if g == -1 then groups + [Group(x.kind, [x])]
    else groups[g := Group(x.kind, groups[g].items + [x])]
  }

  /** `results.reduce(...)` into a record keyed by type; keys keep first-appearance order. */
  function GroupByType(results: seq<SearchResult>): seq<Group>
    decreases |results|
  {
    if |results| == 0 then []
    else Push(GroupByType(results[..|results| - 1]), results[|results| - 1])
  }

  /** `Object.values(groupedResults).flat()`. */
  function Flatten(groups: seq<Group>): (r: seq<SearchResult>)
    decreases |groups|
  {
    if |groups| == 0 then [] else Flatten(groups[..|groups| - 1]) + groups[|groups| - 1].items
  }

  predicate DistinctKinds(groups: seq<Group>)
  {
    forall i, j :: 0 <= i < j < |groups| ==> groups[i].kind != groups[j].kind
  }

  /** Each group holds exactly the results of its type, in result order. */
  predicate GroupsFaithful(groups: seq<Group>, results: seq<SearchResult>)
  {
    forall i :: 0 <= i < |groups| ==> groups[i].items == Search.OfKind(results, groups[i].kind)
  }

  /** Every type present in the results has a group. */
  predicate GroupsCover(groups: seq<Group>, results: seq<SearchResult>)
  {
    forall j :: 0 <= j < |results| ==> FindGroup(groups, results[j].kind) != -1
  }

  predicate NoEmptyGroup(groups: seq<Group>)
  {
    forall i :: 0 <= i < |groups| ==> |groups[i].items| > 0
  }

  /** What the grouping guarantees about the results grouped so far. */
  predicate Grouped(groups: seq<Group>, results: seq<SearchResult>)
  {
    DistinctKinds(groups) && GroupsFaithful(groups, results) && GroupsCover(groups, results) && NoEmptyGroup(groups)
  }

  lemma OfKindSnoc(r: seq<SearchResult>, x: SearchResult, k: ResultType)
    ensures Search.OfKind(r + [x], k) == Search.OfKind(r, k) + (if x.kind == k then [x] else [])
  {
    Search.OfKindAppend(r, [x], k);
    assert Search.OfKind([x], k) == (if x.kind == k then [x] else []) + Search.OfKind([x][1..], k);
  }

  /** A type without a group does not occur in the results grouped so far. */
  lemma UngroupedKindAbsent(groups: seq<Group>, results: seq<SearchResult>, k: ResultType)
    requires GroupsCover(groups, results) && FindGroup(groups, k) == -1
    ensures Search.OfKind(results, k) == []
  {
    forall j | 0 <= j < |results| ensures results[j].kind != k {
      assert FindGroup(groups, results[j].kind) != -1;
    }
    FilterNone(results, Search.KindIs(k));
  }

  lemma PushKeepsDistinct(groups: seq<Group>, x: SearchResult)
    requires DistinctKinds(groups)
    ensures DistinctKinds(Push(groups, x))
  {
  }

  /** A group of another type than `x` still holds exactly its type's results once `x` is added. */
  lemma OtherGroupStillFaithful(g: Group, results: seq<SearchResult>, x: SearchResult)
    requires g.items == Search.OfKind(results, g.kind) && g.kind != x.kind
    ensures g.items == Search.OfKind(results + [x], g.kind)
  {
    OfKindSnoc(results, x, g.kind);
  }

  /** The group of `x`'s type, grown by `x`, holds exactly that type's results once `x` is added. */
  lemma OwnGroupStillFaithful(items: seq<SearchResult>, results: seq<SearchResult>, x: SearchResult)
    requires items == Search.OfKind(results, x.kind)
    ensures items + [x] == Search.OfKind(results + [x], x.kind)
  {
    OfKindSnoc(results, x, x.kind);
  }

  lemma {:induction false} PushKeepsFaithful(groups: seq<Group>, results: seq<SearchResult>, x: SearchResult)
    requires Grouped(groups, results)
    ensures GroupsFaithful(Push(groups, x), results + [x])
  {
    var r := Push(groups, x);
    var g := FindGroup(groups, x.kind);
    if g == -1 {
      UngroupedKindAbsent(groups, results, x.kind);
      OwnGroupStillFaithful([], results, x);
      assert r == groups + [Group(x.kind, [x])];
      forall i | 0 <= i < |r| ensures r[i].items == Search.OfKind(results + [x], r[i].kind) {
        if i < |groups| {
          assert r[i] == groups[i];
          OtherGroupStillFaithful(groups[i], results, x);
        }
      }
    } else {
      OwnGroupStillFaithful(groups[g].items, results, x);
      forall i | 0 <= i < |r| ensures r[i].items == Search.OfKind(results + [x], r[i].kind) {
        if i != g {
          assert r[i] == groups[i];
          OtherGroupStillFaithful(groups[i], results, x);
        }
      }
    }
  }

  lemma PushKeepsCover(groups: seq<Group>, results: seq<SearchResult>, x: SearchResult)
    requires Grouped(groups, results)
    ensures GroupsCover(Push(groups, x), results + [x])
  {
    var r := Push(groups, x);
    var all := results + [x];
    var g := FindGroup(groups, x.kind);
    forall j | 0 <= j < |all| ensures FindGroup(r, all[j].kind) != -1 {
      if j < |results| {
        var h := FindGroup(groups, results[j].kind);
        assert r[h].kind == results[j].kind;
      } else {
        assert r[if g == -1 then |groups| else g].kind == x.kind;
      }
    }
  }

  lemma PushKeepsGrouped(groups: seq<Group>, results: seq<SearchResult>, x: SearchResult)
    requires Grouped(groups, results)
    ensures Grouped(Push(groups, x), results + [x])
  {
    PushKeepsDistinct(groups, x);
    PushKeepsFaithful(groups, results, x);
    PushKeepsCover(groups, results, x);
  }

  /** The grouping has one group per type present, in order of first appearance, holding that type's results. */
  lemma {:induction false} GroupByTypeCorrect(results: seq<SearchResult>)
    ensures Grouped(GroupByType(results), results)
    decreases |results|
  {
    if |results| > 0 {
      var pre := results[..|results| - 1];
      var x := results[|results| - 1];
      assert results == pre + [x];
      GroupByTypeCorrect(pre);
      PushKeepsGrouped(GroupByType(pre), pre, x);
    }
  }

  /** Results whose types come in runs: a type never reappears after another one. */
  predicate Contiguous(results: seq<SearchResult>)
  {
    forall i, j, k :: 0 <= i < j < k < |results| && results[i].kind == results[k].kind ==> results[j].kind == results[i].kind
  }

  lemma FlattenSnoc(groups: seq<Group>, g: Group)
    ensures Flatten(groups + [g]) == Flatten(groups) + g.items
  {
    assert (groups + [g])[..|groups|] == groups;
  }

  lemma FlattenGrowLast(groups: seq<Group>, x: SearchResult)
    requires |groups| > 0
    ensures Flatten(groups[|groups| - 1 := Group(x.kind, groups[|groups| - 1].items + [x])]) == Flatten(groups) + [x]
  {
    var last := |groups| - 1;
    var r := groups[last := Group(x.kind, groups[last].items + [x])];
    assert r[..last] == groups[..last];
  }

  /** In results that come in runs, a type seen earlier and again at the end is the type just before the end. */
  lemma RunReachesEnd(pre: seq<SearchResult>, x: SearchResult, j: nat)
    requires Contiguous(pre + [x]) && j < |pre| && pre[j].kind == x.kind
    ensures pre[|pre| - 1].kind == x.kind
  {
    var all := pre + [x];
    if j < |pre| - 1 {
      assert all[j] == pre[j] && all[|all| - 1] == x && all[|pre| - 1] == pre[|pre| - 1];
      assert all[j].kind == all[|all| - 1].kind;
    }
  }

  /** In results that come in runs, a type already grouped is the type of the last group. */
  lemma GroupedKindIsLast(groups: seq<Group>, pre: seq<SearchResult>, x: SearchResult)
    requires Contiguous(pre + [x]) && Grouped(groups, pre)
    requires |pre| > 0 && |groups| > 0 && groups[|groups| - 1].kind == pre[|pre| - 1].kind
    requires FindGroup(groups, x.kind) != -1
    ensures FindGroup(groups, x.kind) == |groups| - 1
  {
    var g := FindGroup(groups, x.kind);
    assert GroupsFaithful(groups, pre) && NoEmptyGroup(groups);
    assert groups[g].items == Search.OfKind(pre, x.kind);
    assert |groups[g].items| > 0;
    assert groups[g].items[0] in Search.OfKind(pre, x.kind);
    var j :| 0 <= j < |pre| && pre[j] == groups[g].items[0];
    RunReachesEnd(pre, x, j);
  }

  /** One step of the grouping over results in runs: the new result lands at the end of the flattening. */
  lemma FlattenPushStep(gs: seq<Group>, pre: seq<SearchResult>, x: SearchResult)
    requires Contiguous(pre + [x]) && Grouped(gs, pre) && Flatten(gs) == pre
    requires |pre| == 0 ==> gs == []
    requires |pre| > 0 ==> |gs| > 0 && gs[|gs| - 1].kind == pre[|pre| - 1].kind
    ensures Flatten(Push(gs, x)) == pre + [x]
    ensures |Push(gs, x)| > 0 && Push(gs, x)[|Push(gs, x)| - 1].kind == x.kind
  {
    if FindGroup(gs, x.kind) == -1 {
      FlattenSnoc(gs, Group(x.kind, [x]));
    } else {
      GroupedKindIsLast(gs, pre, x);
      FlattenGrowLast(gs, x);
    }
  }

  /** For results in runs, the flattened groups are the results themselves. */
  lemma {:induction false} FlattenContiguous(results: seq<SearchResult>)
    requires Contiguous(results)
    ensures Flatten(GroupByType(results)) == results
    ensures |results| > 0 ==>
      (|GroupByType(results)| > 0 && GroupByType(results)[|GroupByType(results)| - 1].kind == results[|results| - 1].kind)
    decreases |results|
  {
    if |results| > 0 {
      var pre := results[..|results| - 1];
      var x := results[|results| - 1];
      assert results == pre + [x];
      assert Contiguous(pre);
      FlattenContiguous(pre);
      GroupByTypeCorrect(pre);
      FlattenPushStep(GroupByType(pre), pre, x);
    }
  }

  /** Ranked results come in runs. */
  lemma RankedIsContiguous(results: seq<SearchResult>)
    requires Search.RankedByType(results)
    ensures Contiguous(results)
  {
    forall i, j, k | 0 <= i < j < k < |results| && results[i].kind == results[k].kind
      ensures results[j].kind == results[i].kind
    {
      assert Search.Rank(results[i].kind) <= Search.Rank(results[j].kind) <= Search.Rank(results[k].kind);
    }
  }

  /**
   * The palette highlights row `flatResults.indexOf(result)` but Enter opens `results[selectedIndex]`;
   * for answers of the search these are the same list, so the highlighted row is the one Enter opens.
   */
  lemma DisplayOrderMatchesSelection(query: string, c: Search.Catalog)
    ensures Flatten(GroupByType(Search.GlobalSearch(query, c))) == Search.GlobalSearch(query, c)
  {
    RankedIsContiguous(Search.GlobalSearch(query, c));
    FlattenContiguous(Search.GlobalSearch(query, c));
  }

  /** Growing one group by one result grows the flattening by one. */
  lemma {:induction false} FlattenGrowAt(groups: seq<Group>, g: nat, x: SearchResult)
    requires g < |groups|
    ensures |Flatten(groups[g := Group(x.kind, groups[g].items + [x])])| == |Flatten(groups)| + 1
    decreases |groups|
  {
    var last := |groups| - 1;
    var r := groups[g := Group(x.kind, groups[g].items + [x])];
    if g == last {
      assert r[..last] == groups[..last];
    } else {
      assert r[..last] == groups[..last][g := Group(x.kind, groups[g].items + [x])];
      assert r[last] == groups[last];
      FlattenGrowAt(groups[..last], g, x);
    }
  }

  /** Grouping loses and invents nothing: the display holds as many rows as the results. */
  lemma {:induction false} GroupByTypeLength(results: seq<SearchResult>)
    ensures |Flatten(GroupByType(results))| == |results|
    decreases |results|
  {
    if |results| > 0 {
      var pre := results[..|results| - 1];
      var x := results[|results| - 1];
      GroupByTypeLength(pre);
      var gs := GroupByType(pre);
      var g := FindGroup(gs, x.kind);
      if g == -1 {
        FlattenSnoc(gs, Group(x.kind, [x]));
      } else {
        FlattenGrowAt(gs, g, x);
      }
    }
  }

  /** What the list area shows: a loading line while a non-empty query is pending, the groups, or "No results found.". */
  datatype Display = Loading | Groups(groups: seq<Group>) | NoResults

  function Show(s: PaletteState): (r: Display)
    ensures r == Loading <==> s.loading && s.query != ""
    ensures r.Groups? ==> r.groups == GroupByType(s.results) && |Flatten(r.groups)| > 0
    ensures r == NoResults <==> !(s.loading && s.query != "") && |s.results| == 0
    ensures r.Groups? <==> !(s.loading && s.query != "") && |s.results| > 0
  {
    GroupByTypeLength(s.results);
    if s.loading && s.query != "" then Loading
    else if |Flatten(GroupByType(s.results))| > 0 then Groups(GroupByType(s.results))
    else NoResults
  }

  // The mouse.

  /** The rows in display order, the groups flattened: `flatResults`. */
  function DisplayRows(s: PaletteState): seq<SearchResult>
  {
    Flatten(GroupByType(s.results))
  }

  /** A row can be pointed at only while the palette is open and lists its groups. */
  predicate RowShown(s: PaletteState, j: int)
  {
    s.open && Show(s).Groups? && 0 <= j < |DisplayRows(s)|
  }

  /**
   * The mouse entering displayed row `j` selects `flatResults.indexOf(result)`. Each result
   * object is pushed into exactly one group once, so that index is the row's own position `j`.
   */
  function RowHovered(s: PaletteState, j: int): (r: PaletteState)
    requires RowShown(s, j)
    ensures SelectionInRange(r) && r.selected == Num(j)
    ensures r.open == s.open && r.query == s.query && r.results == s.results && r.loading == s.loading
  {
    GroupByTypeLength(s.results);
    s.(selected := Num(j))
  }

  /** A click on displayed row `j` runs `handleSelect` on it: its screen opens and the palette closes. */
  function RowClicked(s: PaletteState, j: int): (r: (PaletteState, View))
    requires RowShown(s, j)
    ensures r.1 == DisplayRows(s)[j].view
    ensures !r.0.open && r.0.query == "" && r.0.results == [] && r.0.selected == Num(0)
  {
    (Close(s), DisplayRows(s)[j].view)
  }

  /** A click on the dimmed backdrop closes the palette, exactly as Escape does. */
  function BackdropClicked(s: PaletteState): (r: PaletteState)
    ensures !r.open && r.query == "" && r.results == [] && r.selected == Num(0)
    ensures s.open ==> r == HandleKey(s, Escape).0 && HandleKey(s, Escape).1.None?
  {
    Close(s)
  }

  /** Enter after hovering row `j` opens the screen of `results[j]`, the row Enter reads. */
  lemma HoverThenEnter(s: PaletteState, j: int)
    requires RowShown(s, j)
    ensures j < |s.results|
    ensures HandleKey(RowHovered(s, j), Enter) == (Close(s), Some(s.results[j].view))
  {
    var t := RowHovered(s, j);
    assert Close(t) == Close(s);
  }

  /**
   * When the results come in runs of one type, Enter after hovering a row opens that row's
   * screen, just as a click on it does: the hovered display index names the same result.
   */
  lemma HoverThenEnterOpensRow(s: PaletteState, j: int)
    requires RowShown(s, j) && Contiguous(s.results)
    ensures HandleKey(RowHovered(s, j), Enter) == (Close(s), Some(DisplayRows(s)[j].view))
    ensures HandleKey(RowHovered(s, j), Enter).1 == Some(RowClicked(s, j).1)
  {
    HoverThenEnter(s, j);
    FlattenContiguous(s.results);
  }

  /** Every search answer comes in runs, so hover then Enter agrees with a click on any shown row. */
  lemma HoverThenEnterOnAnswer(s: PaletteState, j: int, query: string, c: Search.Catalog)
    requires s.results == Search.GlobalSearch(query, c) && RowShown(s, j)
    ensures HandleKey(RowHovered(s, j), Enter).1 == Some(RowClicked(s, j).1)
  {
    RankedIsContiguous(s.results);
    HoverThenEnterOpensRow(s, j);
  }
}
