/**
 * The three list updates every CRUD screen applies to its state after the
 * server answers: append the created record (`[...list, created]`), replace
 * by id (`list.map(x => x.id === key ? updated : x)`) and remove by id
 * (`list.filter(x => x.id !== key)`). Records are generic; `idOf` reads
 * their `id` field.
 */
module EntityLists {

  /** The ids of `s`, in list order. */
  function Ids<T>(s: seq<T>, idOf: T -> int): seq<int>
  {
    seq(|s|, i requires 0 <= i < |s| => idOf(s[i]))
  }

  /** Number of records in `s` whose id is `key`. */
  function CountId<T>(s: seq<T>, idOf: T -> int, key: int): nat
  {
    if s == [] then 0 else (if idOf(s[0]) == key then 1 else 0) + CountId(s[1..], idOf, key)
  }

  /** `s.map(x => x.id === key ? y : x)`. */
  function ReplaceWhere<T>(s: seq<T>, idOf: T -> int, key: int, y: T): seq<T>
  {
    if s == [] then [] else [if idOf(s[0]) == key then y else s[0]] + ReplaceWhere(s[1..], idOf, key, y)
  }

  /** `s.filter(x => x.id !== key)`. */
  function RemoveWhere<T>(s: seq<T>, idOf: T -> int, key: int): seq<T>
  {
    if s == [] then []
    else if idOf(s[0]) == key then RemoveWhere(s[1..], idOf, key)
    else [s[0]] + RemoveWhere(s[1..], idOf, key)
  }

  // ------------------------------------------------------------ replace by id

  /**
   * Replacing by id keeps the length and the positions: exactly the records
   * whose id is `key` become `y`, every other record stays where it was.
   */
  lemma {:induction false} ReplaceWhereAt<T>(s: seq<T>, idOf: T -> int, key: int, y: T)
    ensures |ReplaceWhere(s, idOf, key, y)| == |s|
    ensures forall i :: 0 <= i < |s| ==>
      ReplaceWhere(s, idOf, key, y)[i] == (if idOf(s[i]) == key then y else s[i])
  {
    if s != [] {
      ReplaceWhereAt(s[1..], idOf, key, y);
      var r := ReplaceWhere(s, idOf, key, y);
      forall i | 0 <= i < |s| ensures r[i] == (if idOf(s[i]) == key then y else s[i]) {
        if i > 0 { assert s[i] == s[1..][i - 1]; }
      }
    }
  }

  /** Replacing an id that is not in the list changes nothing. */
  lemma {:induction false} ReplaceWhereAbsent<T>(s: seq<T>, idOf: T -> int, key: int, y: T)
    requires CountId(s, idOf, key) == 0
    ensures ReplaceWhere(s, idOf, key, y) == s
  {
    if s != [] {
      ReplaceWhereAbsent(s[1..], idOf, key, y);
    }
  }

  /**
   * When the server returns the record under the id it was asked to update,
   * the list keeps its ids, in order: nothing is added or lost.
   */
  lemma {:induction false} ReplaceWhereKeepsIds<T>(s: seq<T>, idOf: T -> int, y: T)
    ensures Ids(ReplaceWhere(s, idOf, idOf(y), y), idOf) == Ids(s, idOf)
  {
    ReplaceWhereAt(s, idOf, idOf(y), y);
  }

  /** Applying the same update twice is the same as applying it once. */
  lemma ReplaceWhereIdempotent<T>(s: seq<T>, idOf: T -> int, key: int, y: T)
    ensures ReplaceWhere(ReplaceWhere(s, idOf, key, y), idOf, key, y) == ReplaceWhere(s, idOf, key, y)
  {
    var r := ReplaceWhere(s, idOf, key, y);
    ReplaceWhereAt(s, idOf, key, y);
    ReplaceWhereAt(r, idOf, key, y);
  }

  // ------------------------------------------------------------- remove by id

  /**
   * Removing by id leaves no record with that id and keeps every other record,
   * in order: the result is the list with exactly the `key` records taken out.
   */
  lemma {:induction false} RemoveWhereSound<T>(s: seq<T>, idOf: T -> int, key: int)
    ensures CountId(RemoveWhere(s, idOf, key), idOf, key) == 0
    ensures |RemoveWhere(s, idOf, key)| + CountId(s, idOf, key) == |s|
    ensures forall x :: x in RemoveWhere(s, idOf, key) <==> x in s && idOf(x) != key
  {
    if s != [] {
      RemoveWhereSound(s[1..], idOf, key);
      assert s == [s[0]] + s[1..];
    }
  }

  /** Removal distributes over concatenation, so survivors keep their relative order. */
  lemma {:induction false} RemoveWhereConcat<T>(a: seq<T>, b: seq<T>, idOf: T -> int, key: int)
    ensures RemoveWhere(a + b, idOf, key) == RemoveWhere(a, idOf, key) + RemoveWhere(b, idOf, key)
  {
    if a != [] {
      assert (a + b)[1..] == a[1..] + b;
      RemoveWhereConcat(a[1..], b, idOf, key);
    } else {
      assert a + b == b;
    }
  }

  /** Removing the same id twice is the same as removing it once. */
  lemma {:induction false} RemoveWhereIdempotent<T>(s: seq<T>, idOf: T -> int, key: int)
    ensures RemoveWhere(RemoveWhere(s, idOf, key), idOf, key) == RemoveWhere(s, idOf, key)
  {
    if s != [] {
      RemoveWhereIdempotent(s[1..], idOf, key);
    }
  }

  /** Removing an id that is not in the list changes nothing. */
  lemma {:induction false} RemoveWhereAbsent<T>(s: seq<T>, idOf: T -> int, key: int)
    requires CountId(s, idOf, key) == 0
    ensures RemoveWhere(s, idOf, key) == s
  {
    if s != [] {
      RemoveWhereAbsent(s[1..], idOf, key);
      assert [s[0]] + s[1..] == s;
    }
  }

  // ----------------------------------------------------------- append, remove

  /**
   * Deleting a record that was just created under a fresh id gives the list
   * back as it was before the create.
   */
  lemma AppendThenRemove<T>(s: seq<T>, idOf: T -> int, x: T)
    requires CountId(s, idOf, idOf(x)) == 0
    ensures RemoveWhere(s + [x], idOf, idOf(x)) == s
  {
    RemoveWhereConcat(s, [x], idOf, idOf(x));
    RemoveWhereAbsent(s, idOf, idOf(x));
    assert RemoveWhere([x], idOf, idOf(x)) == [];
  }

  /** Appending a record adds one occurrence of its id and none of any other. */
  lemma {:induction false} CountIdAppend<T>(s: seq<T>, idOf: T -> int, x: T, key: int)
    ensures CountId(s + [x], idOf, key) == CountId(s, idOf, key) + (if idOf(x) == key then 1 else 0)
  {
    if s != [] {
      assert (s + [x])[1..] == s[1..] + [x];
      CountIdAppend(s[1..], idOf, x, key);
    } else {
      assert s + [x] == [x];
    }
  }
}
