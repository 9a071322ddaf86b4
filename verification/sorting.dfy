/**
 * The column sort of the management tables: a comparator built from `<` and `>` on one
 * field, a direction, and the click handler that toggles it.
 */
module Sorting {
  import opened Text
  import opened Seqs

  /** The value of one sortable field: a number or a string. */
  datatype KeyValue = Num(n: real) | Str(s: string)

  /**
   * JavaScript's `<` on two values of one column: numeric order on numbers and UTF-16 code-unit
   * order on strings (`StrLess`). A column never mixes the two; numbers are put first only to
   * make the order total.
   */
  predicate KeyLess(a: KeyValue, b: KeyValue)
  {
    match (a, b)
    case (Num(x), Num(y)) => x < y
    case (Str(x), Str(y)) => StrLess(x, y)
    case (Num(_), Str(_)) => true
    case (Str(_), Num(_)) => false
  }

  lemma KeyLessIrreflexive(a: KeyValue)
    ensures !KeyLess(a, a)
  {
    if a.Str? {
      StrLessIrreflexive(a.s);
    }
  }

  lemma KeyLessTransitive(a: KeyValue, b: KeyValue, c: KeyValue)
    requires KeyLess(a, b) && KeyLess(b, c)
    ensures KeyLess(a, c)
  {
    if a.Str? && b.Str? && c.Str? {
      StrLessTransitive(a.s, b.s, c.s);
    }
  }

  lemma KeyLessTotal(a: KeyValue, b: KeyValue)
    ensures a == b || KeyLess(a, b) || KeyLess(b, a)
  {
    if a.Str? && b.Str? {
      StrLessTotal(a.s, b.s);
    }
  }

  datatype Direction = Ascending | Descending

  /** The comparator handed to `Array.prototype.sort`: negative puts `a` first, positive puts `b` first. */
  function Compare(a: KeyValue, b: KeyValue, dir: Direction): (r: int)
    ensures r == -1 || r == 0 || r == 1
    ensures r == 0 <==> a == b
  {
    KeyLessTotal(a, b);
    KeyLessIrreflexive(a);
    if KeyLess(a, b) then (if dir == Ascending then -1 else 1)
    else if KeyLess(b, a) then (if dir == Ascending then 1 else -1)
    else 0
  }

  /** The comparator is antisymmetric, and flipping the direction flips its sign. */
  lemma CompareAntisymmetric(a: KeyValue, b: KeyValue, dir: Direction)
    ensures Compare(b, a, dir) == -Compare(a, b, dir)
    ensures Compare(a, b, Descending) == -Compare(a, b, Ascending)
  {
    if KeyLess(a, b) && KeyLess(b, a) {
      KeyLessTransitive(a, b, a);
      KeyLessIrreflexive(a);
    }
  }

  /** `a` may stand before `b` in the sorted table. */
  predicate InOrder(a: KeyValue, b: KeyValue, dir: Direction)
  {
    Compare(a, b, dir) <= 0
  }

  /** Ascending, `a` may come first when it is the smaller or equal key; descending, the larger or equal. */
  lemma InOrderMeaning(a: KeyValue, b: KeyValue, dir: Direction)
    ensures dir == Ascending ==> (InOrder(a, b, dir) <==> a == b || KeyLess(a, b))
    ensures dir == Descending ==> (InOrder(a, b, dir) <==> a == b || KeyLess(b, a))
  {
    KeyLessIrreflexive(a);
    if KeyLess(a, b) && KeyLess(b, a) {
      KeyLessTransitive(a, b, a);
    }
  }

  lemma InOrderTransitive(a: KeyValue, b: KeyValue, c: KeyValue, dir: Direction)
    requires InOrder(a, b, dir) && InOrder(b, c, dir)
    ensures InOrder(a, c, dir)
  {
    InOrderMeaning(a, b, dir);
    InOrderMeaning(b, c, dir);
    InOrderMeaning(a, c, dir);
    if a != b && b != c {
      if dir == Ascending {
        KeyLessTransitive(a, b, c);
      } else {
        KeyLessTransitive(c, b, a);
      }
    }
  }

  /** Every pair of rows is in order. */
  predicate Sorted<T>(s: seq<T>, key: T -> KeyValue, dir: Direction)
  {
    forall i, j :: 0 <= i < j < |s| ==> InOrder(key(s[i]), key(s[j]), dir)
  }

  /** Puts `x` in front of the first row that does not sort strictly before it. */
  function Insert<T>(x: T, s: seq<T>, key: T -> KeyValue, dir: Direction): (r: seq<T>)
    requires Sorted(s, key, dir)
    ensures |r| == |s| + 1
    ensures multiset(r) == multiset(s) + multiset{x}
    ensures Sorted(r, key, dir)
    decreases |s|
  {
    if |s| == 0 then [x]
    else if Compare(key(s[0]), key(x), dir) < 0 then
      var rest := Insert(x, s[1..], key, dir);
      assert s == [s[0]] + s[1..];
      InsertHeadInOrder(s[0], x, s[1..], rest, key, dir);
      [s[0]] + rest
    else
      InsertFrontInOrder(x, s, key, dir);
      [x] + s
  }

  lemma InsertHeadInOrder<T>(h: T, x: T, t: seq<T>, rest: seq<T>, key: T -> KeyValue, dir: Direction)
    requires Sorted([h] + t, key, dir)
    requires Compare(key(h), key(x), dir) < 0
    requires multiset(rest) == multiset(t) + multiset{x}
    requires Sorted(rest, key, dir)
    ensures Sorted([h] + rest, key, dir)
  {
    var r := [h] + rest;
    forall j | 1 <= j < |r|
      ensures InOrder(key(h), key(r[j]), dir)
    {
      assert r[j] in multiset(rest);
      if r[j] != x {
        assert r[j] in multiset(t);
        assert r[j] in t;
        var k :| 0 <= k < |t| && t[k] == r[j];
        assert ([h] + t)[0] == h && ([h] + t)[k + 1] == r[j];
      }
    }
    forall i, j | 0 <= i < j < |r|
      ensures InOrder(key(r[i]), key(r[j]), dir)
    {
      if i > 0 {
        assert r[i] == rest[i - 1] && r[j] == rest[j - 1];
      }
    }
  }

  lemma InsertFrontInOrder<T>(x: T, s: seq<T>, key: T -> KeyValue, dir: Direction)
    requires |s| > 0
    requires Sorted(s, key, dir)
    requires Compare(key(s[0]), key(x), dir) >= 0
    ensures Sorted([x] + s, key, dir)
  {
    CompareAntisymmetric(key(s[0]), key(x), dir);
    var r := [x] + s;
    forall i, j | 0 <= i < j < |r|
      ensures InOrder(key(r[i]), key(r[j]), dir)
    {
      if i == 0 {
        if j > 1 {
          InOrderTransitive(key(x), key(s[0]), key(s[j - 1]), dir);
        }
      } else {
        assert r[i] == s[i - 1] && r[j] == s[j - 1];
      }
    }
  }

  /** `sortableItems.sort(comparator)`: a permutation of the rows, in order. */
  function Sort<T>(s: seq<T>, key: T -> KeyValue, dir: Direction): (r: seq<T>)
    ensures |r| == |s|
    ensures multiset(r) == multiset(s)
    ensures Sorted(r, key, dir)
    decreases |s|
  {
    if |s| == 0 then []
    else
      assert s == [s[0]] + s[1..];
      Insert(s[0], Sort(s[1..], key, dir), key, dir)
  }

  function HasKeyValue<T>(key: T -> KeyValue, k: KeyValue): T -> bool
  {
    (x: T) => key(x) == k
  }

  /** Dropping the first row of a sorted table leaves it sorted. */
  lemma SortedTail<T>(s: seq<T>, key: T -> KeyValue, dir: Direction)
    requires |s| > 0 && Sorted(s, key, dir)
    ensures Sorted(s[1..], key, dir)
  {
    var t := s[1..];
    forall i, j | 0 <= i < j < |t| ensures InOrder(key(t[i]), key(t[j]), dir) {
      assert t[i] == s[i + 1] && t[j] == s[j + 1];
    }
  }

  /** One step of a left-to-right filter. */
  lemma FilterCons<T(!new)>(h: T, t: seq<T>, f: T -> bool)
    ensures Filter([h] + t, f) == (if f(h) then [h] else []) + Filter(t, f)
  {
    assert ([h] + t)[1..] == t;
  }

  /** Rows whose keys tie keep their input order: inserting `x` puts it before every tie. */
  lemma {:induction false} InsertStable<T(!new)>(x: T, s: seq<T>, key: T -> KeyValue, dir: Direction, k: KeyValue)
    requires Sorted(s, key, dir)
    ensures Filter(Insert(x, s, key, dir), HasKeyValue(key, k))
         == Filter([x], HasKeyValue(key, k)) + Filter(s, HasKeyValue(key, k))
    decreases |s|
  {
    var f := HasKeyValue(key, k);
    if |s| == 0 {
      assert Insert(x, s, key, dir) == [x] == [x] + s;
    } else if Compare(key(s[0]), key(x), dir) < 0 {
      SortedTail(s, key, dir);
      InsertStable(x, s[1..], key, dir, k);
      InsertPastHead(x, s, key, dir);
      FilterPastHead(s[0], x, s[1..], Insert(x, s[1..], key, dir), f);
    } else {
      assert Insert(x, s, key, dir) == [x] + s;
      FilterAppend([x], s, f);
    }
  }

  /** A row that sorts strictly before `x` stays in front of it, and is not a tie of it. */
  lemma InsertPastHead<T>(x: T, s: seq<T>, key: T -> KeyValue, dir: Direction)
    requires |s| > 0 && Sorted(s, key, dir) && Sorted(s[1..], key, dir)
    requires Compare(key(s[0]), key(x), dir) < 0
    ensures Insert(x, s, key, dir) == [s[0]] + Insert(x, s[1..], key, dir)
    ensures s == [s[0]] + s[1..]
    ensures key(s[0]) != key(x)
  {
  }

  /** The step of `InsertStable` where `x` travels past a first row `h` that is not a tie of it. */
  lemma FilterPastHead<T(!new)>(h: T, x: T, t: seq<T>, rest: seq<T>, f: T -> bool)
    requires !(f(h) && f(x))
    requires Filter(rest, f) == Filter([x], f) + Filter(t, f)
    ensures Filter([h] + rest, f) == Filter([x], f) + Filter([h] + t, f)
  {
    FilterCons(h, rest, f);
    FilterCons(h, t, f);
    if f(h) {
      assert Filter([x], f) == [] by {
        FilterCons(x, [], f);
        assert [x] + [] == [x];
      }
      assert Filter([h] + rest, f) == [h] + Filter(t, f);
    } else {
      assert Filter([h] + rest, f) == Filter(rest, f);
      assert Filter([h] + t, f) == Filter(t, f);
    }
  }

  /** `Array.prototype.sort` is stable: among rows with equal keys the input order survives. */
  lemma {:induction false} SortStable<T(!new)>(s: seq<T>, key: T -> KeyValue, dir: Direction, k: KeyValue)
    ensures Filter(Sort(s, key, dir), HasKeyValue(key, k)) == Filter(s, HasKeyValue(key, k))
    decreases |s|
  {
    if |s| > 0 {
      var f := HasKeyValue(key, k);
      SortStable(s[1..], key, dir, k);
      InsertStable(s[0], Sort(s[1..], key, dir), key, dir, k);
      assert s == [s[0]] + s[1..];
      FilterAppend([s[0]], s[1..], f);
    }
  }

  /** The column headers a table offers: sortable fields, plus the image column, which is not. */
  datatype Column<F> = Field(field: F) | ImageUrls

  /** The sort currently applied to a table. */
  datatype SortConfig<F> = SortConfig(key: F, direction: Direction)

  /**
   * `requestSort`: the image column is ignored; clicking the sorted ascending column turns it
   * descending; any other click sorts that column ascending.
   */
  function RequestSort<F(==)>(c: SortConfig<F>, column: Column<F>): (r: SortConfig<F>)
    ensures column == ImageUrls ==> r == c
    ensures column.Field? ==> r.key == column.field
    ensures column.Field? ==>
      (r.direction == Descending <==> c.key == column.field && c.direction == Ascending)
  {
    match column
    case ImageUrls => c
    case Field(f) =>
      SortConfig(f, if c.key == f && c.direction == Ascending then Descending else Ascending)
  }

  /** Three clicks on one column return to the direction two clicks gave: the header toggles. */
  lemma RequestSortToggles<F>(c: SortConfig<F>, f: F)
    ensures RequestSort(RequestSort(c, Field(f)), Field(f)).direction
         != RequestSort(c, Field(f)).direction
    ensures RequestSort(RequestSort(RequestSort(c, Field(f)), Field(f)), Field(f)) == RequestSort(c, Field(f))
  {
  }
}
