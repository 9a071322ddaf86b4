/**
 * The list operations every management screen applies to its records:
 * add to the top, replace by id, remove by id. `key` projects a record to its id.
 */
module Crud {
  import opened Seqs

  /** No two records of the list share an id. */
  predicate UniqueKeys<T>(s: seq<T>, key: T -> string)
  {
    forall i, j :: 0 <= i < j < |s| ==> key(s[i]) != key(s[j])
  }

  /** Some record of the list carries the id. */
  predicate HasKey<T>(s: seq<T>, key: T -> string, id: string)
  {
    exists i :: 0 <= i < |s| && key(s[i]) == id
  }

  /** `[item, ...prev]`: the new record is shown first and the rest keep their order. */
  function Add<T>(items: seq<T>, item: T): (r: seq<T>)
    ensures |r| == |items| + 1
    ensures r[0] == item && r[1..] == items
  {
    [item] + items
  }

  /** `prev.map(p => p.id === updated.id ? updated : p)`: every record with the id is replaced. */
  function UpdateById<T>(items: seq<T>, key: T -> string, updated: T): (r: seq<T>)
    ensures |r| == |items|
    ensures forall i :: 0 <= i < |items| && key(items[i]) == key(updated) ==> r[i] == updated
    ensures forall i :: 0 <= i < |items| && key(items[i]) != key(updated) ==> r[i] == items[i]
  {
    if |items| == 0 then []
    else [if key(items[0]) == key(updated) then updated else items[0]] + UpdateById(items[1..], key, updated)
  }

  function KeyIsNot<T>(key: T -> string, id: string): T -> bool
  {
    (x: T) => key(x) != id
  }

  /** `prev.filter(p => p.id !== id)`: every record with the id is dropped, the others keep their order. */
  function DeleteById<T(!new)>(items: seq<T>, key: T -> string, id: string): (r: seq<T>)
    ensures |r| <= |items|
    ensures forall x :: x in r <==> x in items && key(x) != id
    ensures !HasKey(r, key, id)
  {
    Filter(items, KeyIsNot(key, id))
  }

  /** Deleting a record right after adding it restores the list, provided its id was fresh. */
  lemma {:induction false} DeleteAfterAdd<T(!new)>(items: seq<T>, key: T -> string, item: T)
    requires !HasKey(items, key, key(item))
    ensures DeleteById(Add(items, item), key, key(item)) == items
  {
    var f := KeyIsNot(key, key(item));
    assert Add(items, item) == [item] + items;
    FilterAppend([item], items, f);
    assert Filter([item], f) == [] by {
      assert Filter([item], f) == (if f(item) then [item] else []) + Filter([item][1..], f);
    }
    FilterAll(items, f);
  }

  /** Adding a record with a fresh id keeps the ids unique. */
  lemma AddKeepsKeysUnique<T>(items: seq<T>, key: T -> string, item: T)
    requires UniqueKeys(items, key)
    requires !HasKey(items, key, key(item))
    ensures UniqueKeys(Add(items, item), key)
  {
    var r := Add(items, item);
    forall i, j | 0 <= i < j < |r|
      ensures key(r[i]) != key(r[j])
    {
      if i == 0 {
        assert r[j] == items[j - 1];
      } else {
        assert r[i] == items[i - 1] && r[j] == items[j - 1];
      }
    }
  }

  /** Replacing by id leaves the sequence of ids as it was. */
  lemma UpdateKeepsKeys<T>(items: seq<T>, key: T -> string, updated: T)
    ensures Map(UpdateById(items, key, updated), key) == Map(items, key)
  {
  }

  /** ...and therefore keeps them unique. */
  lemma UpdateKeepsKeysUnique<T>(items: seq<T>, key: T -> string, updated: T)
    requires UniqueKeys(items, key)
    ensures UniqueKeys(UpdateById(items, key, updated), key)
  {
    var r := UpdateById(items, key, updated);
    forall i, j | 0 <= i < j < |r|
      ensures key(r[i]) != key(r[j])
    {
      assert key(r[i]) == key(items[i]) && key(r[j]) == key(items[j]);
    }
  }

  /** Dropping the first record keeps ids unique. */
  lemma TailKeysUnique<T>(items: seq<T>, key: T -> string)
    requires |items| > 0 && UniqueKeys(items, key)
    ensures UniqueKeys(items[1..], key)
    ensures forall x :: x in items[1..] ==> key(x) != key(items[0])
  {
    var tail := items[1..];
    forall i, j | 0 <= i < j < |tail| ensures key(tail[i]) != key(tail[j]) {
      assert tail[i] == items[i + 1] && tail[j] == items[j + 1];
    }
    forall x | x in tail ensures key(x) != key(items[0]) {
      var k :| 0 <= k < |tail| && tail[k] == x;
      assert items[k + 1] == x;
    }
  }

  /** Putting a record whose id none of the others has in front keeps ids unique. */
  lemma ConsKeysUnique<T>(h: T, rest: seq<T>, key: T -> string)
    requires UniqueKeys(rest, key) && forall x :: x in rest ==> key(x) != key(h)
    ensures UniqueKeys([h] + rest, key)
  {
    var r := [h] + rest;
    forall i, j | 0 <= i < j < |r|
      ensures key(r[i]) != key(r[j])
    {
      assert r[j] == rest[j - 1];
      if i > 0 {
        assert r[i] == rest[i - 1];
      }
    }
  }

  /** Filtering keeps a subsequence, so unique ids stay unique. */
  lemma {:induction false} FilterKeepsKeysUnique<T(!new)>(items: seq<T>, key: T -> string, f: T -> bool)
    requires UniqueKeys(items, key)
    ensures UniqueKeys(Filter(items, f), key)
    decreases |items|
  {
    if |items| > 0 {
      var tail := items[1..];
      TailKeysUnique(items, key);
      FilterKeepsKeysUnique(tail, key, f);
      var rest := Filter(tail, f);
      if f(items[0]) {
        ConsKeysUnique(items[0], rest, key);
        assert Filter(items, f) == [items[0]] + rest;
      } else {
        assert Filter(items, f) == rest;
      }
    }
  }

  lemma DeleteKeepsKeysUnique<T(!new)>(items: seq<T>, key: T -> string, id: string)
    requires UniqueKeys(items, key)
    ensures UniqueKeys(DeleteById(items, key, id), key)
  {
    FilterKeepsKeysUnique(items, key, KeyIsNot(key, id));
  }

  /** Submitting the same edit twice has the effect of submitting it once. */
  lemma UpdateIdempotent<T>(items: seq<T>, key: T -> string, updated: T)
    ensures UpdateById(UpdateById(items, key, updated), key, updated) == UpdateById(items, key, updated)
  {
  }

  /** An edit is visible afterwards exactly when some record carried its id. */
  lemma UpdateFound<T(!new)>(items: seq<T>, key: T -> string, updated: T)
    ensures updated in UpdateById(items, key, updated) <==> HasKey(items, key, key(updated)) || updated in items
  {
    var r := UpdateById(items, key, updated);
    if HasKey(items, key, key(updated)) {
      var i :| 0 <= i < |items| && key(items[i]) == key(updated);
      assert r[i] == updated;
    }
    if updated in items {
      var i :| 0 <= i < |items| && items[i] == updated;
      assert r[i] == updated;
    }
    if updated in r {
      var i :| 0 <= i < |r| && r[i] == updated;
      if key(items[i]) != key(updated) {
        assert items[i] == updated;
      }
    }
  }

  /** Removing an id after editing it gives the same list as removing it straight away. */
  lemma {:induction false} DeleteAfterUpdate<T(!new)>(items: seq<T>, key: T -> string, updated: T)
    ensures DeleteById(UpdateById(items, key, updated), key, key(updated)) == DeleteById(items, key, key(updated))
    decreases |items|
  {
    var f := KeyIsNot(key, key(updated));
    if |items| > 0 {
      DeleteAfterUpdate(items[1..], key, updated);
      var u := UpdateById(items, key, updated);
      assert u[1..] == UpdateById(items[1..], key, updated);
      assert f(u[0]) == f(items[0]);
      assert Filter(u, f) == (if f(u[0]) then [u[0]] else []) + Filter(u[1..], f);
      assert Filter(items, f) == (if f(items[0]) then [items[0]] else []) + Filter(items[1..], f);
    }
  }
}
