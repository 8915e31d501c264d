/** The order in which `Object.entries` lists the own properties of a plain object
    (ECMAScript's OrdinaryOwnPropertyKeys): first every key that is an array index, in
    ascending numeric order, then every other string key in the order the properties
    were created. Also the names a plain object literal inherits from Object.prototype. */
module JsObject {
  import opened JsNumber

  predicate Distinct<T(==)>(s: seq<T>) {
    forall i, j :: 0 <= i < j < |s| ==> s[i] != s[j]
  }

  /** Names that `{}` already answers through its prototype, Object.prototype: reading
      `o[k]` for one of these gives an inherited function or object, not `undefined`,
      and assigning a string or number to `o["__proto__"]` is ignored, so no key is
      created. */
  const ObjectPrototypeKeys: set<string> := {
    "constructor", "hasOwnProperty", "isPrototypeOf", "propertyIsEnumerable",
    "toLocaleString", "toString", "valueOf", "__proto__",
    "__defineGetter__", "__defineSetter__", "__lookupGetter__", "__lookupSetter__"
  }

  /** The keys of `keys` that are array indices, in their order in `keys`. */
  function IndexKeys(keys: seq<string>): seq<string> {
    if keys == [] then []
    else (if IsArrayIndex(keys[0]) then [keys[0]] else []) + IndexKeys(keys[1..])
  }

  /** The keys of `keys` that are not array indices, in their order in `keys`. */
  function NamedKeys(keys: seq<string>): seq<string> {
    if keys == [] then []
    else (if IsArrayIndex(keys[0]) then [] else [keys[0]]) + NamedKeys(keys[1..])
  }

  predicate AllArrayIndices(s: seq<string>) {
    forall i :: 0 <= i < |s| ==> IsArrayIndex(s[i])
  }

  /** Array-index keys in strictly ascending numeric order. */
  predicate Ascending(s: seq<string>) {
    AllArrayIndices(s) &&
    forall i, j :: 0 <= i < j < |s| ==> DecimalValue(s[i]) < DecimalValue(s[j])
  }

  function InsertAscending(k: string, sorted: seq<string>): (r: seq<string>)
    requires IsArrayIndex(k) && AllArrayIndices(sorted)
    ensures AllArrayIndices(r)
  {
    if sorted == [] || DecimalValue(k) < DecimalValue(sorted[0]) then [k] + sorted
    else [sorted[0]] + InsertAscending(k, sorted[1..])
  }

  function SortAscending(keys: seq<string>): (r: seq<string>)
    requires AllArrayIndices(keys)
    ensures AllArrayIndices(r)
  {
    if keys == [] then [] else InsertAscending(keys[0], SortAscending(keys[1..]))
  }

  /** `Object.keys(o)` (and so the order of `Object.entries(o)`) for a plain object whose
      own properties were created in the order `created`. */
  function OwnKeys(created: seq<string>): seq<string> {
    IndexKeysSorted(created);
    SortAscending(IndexKeys(created)) + NamedKeys(created)
  }

  // ---------------------------------------------------------------------------------
  // Filtering

  lemma {:induction false} IndexKeysSorted(keys: seq<string>)
    ensures AllArrayIndices(IndexKeys(keys))
    ensures forall k <- NamedKeys(keys) :: !IsArrayIndex(k)
  {
    if keys != [] {
      IndexKeysSorted(keys[1..]);
    }
  }

  /** Splitting the keys into array indices and the rest loses and adds nothing. */
  lemma {:induction false} FilterSplit(keys: seq<string>)
    ensures multiset(IndexKeys(keys)) + multiset(NamedKeys(keys)) == multiset(keys)
  {
    if keys != [] {
      FilterSplit(keys[1..]);
      assert keys == [keys[0]] + keys[1..];
    }
  }

  lemma {:induction false} NamedKeysAppend(a: seq<string>, b: seq<string>)
    ensures NamedKeys(a + b) == NamedKeys(a) + NamedKeys(b)
  {
    if a != [] {
      assert (a + b)[1..] == a[1..] + b;
      NamedKeysAppend(a[1..], b);
    } else {
      assert a + b == b;
    }
  }

  lemma {:induction false} NamedKeysOfIndices(s: seq<string>)
    requires AllArrayIndices(s)
    ensures NamedKeys(s) == []
  {
    if s != [] {
      NamedKeysOfIndices(s[1..]);
    }
  }

  lemma {:induction false} NamedKeysIdempotent(keys: seq<string>)
    ensures NamedKeys(NamedKeys(keys)) == NamedKeys(keys)
  {
    if keys != [] {
      var head := if IsArrayIndex(keys[0]) then [] else [keys[0]];
      NamedKeysAppend(head, NamedKeys(keys[1..]));
      NamedKeysIdempotent(keys[1..]);
      if head != [] {
        assert NamedKeys(head) == head + NamedKeys(head[1..]);
      }
    }
  }

  lemma {:induction false} NoIndexKeys(keys: seq<string>)
    requires forall k <- keys :: !IsArrayIndex(k)
    ensures IndexKeys(keys) == [] && NamedKeys(keys) == keys
  {
    if keys != [] {
      NoIndexKeys(keys[1..]);
      assert keys == [keys[0]] + keys[1..];
    }
  }

  // ---------------------------------------------------------------------------------
  // Sorting

  lemma {:induction false} InsertAscendingPermutes(k: string, sorted: seq<string>)
    requires IsArrayIndex(k) && AllArrayIndices(sorted)
    ensures multiset(InsertAscending(k, sorted)) == multiset(sorted) + multiset{k}
  {
    if !(sorted == [] || DecimalValue(k) < DecimalValue(sorted[0])) {
      InsertAscendingPermutes(k, sorted[1..]);
      assert sorted == [sorted[0]] + sorted[1..];
    }
  }

  /** Every key of `InsertAscending(k, s)` is `k` or a key of `s`. */
  lemma InsertAscendingFrom(k: string, sorted: seq<string>, i: int)
    requires IsArrayIndex(k) && AllArrayIndices(sorted)
    requires 0 <= i < |InsertAscending(k, sorted)|
    ensures var x := InsertAscending(k, sorted)[i];
      x == k || exists j :: 0 <= j < |sorted| && sorted[j] == x
  {
    var r := InsertAscending(k, sorted);
    InsertAscendingPermutes(k, sorted);
    assert r[i] in multiset(r);
    if r[i] != k {
      assert r[i] in multiset(sorted);
      assert r[i] in sorted;
    }
  }

  /** Keys all above `bound` stay above it when one more such key is inserted. */
  lemma InsertAscendingAbove(k: string, sorted: seq<string>, bound: nat)
    requires IsArrayIndex(k) && AllArrayIndices(sorted)
    requires bound < DecimalValue(k)
    requires forall i :: 0 <= i < |sorted| ==> bound < DecimalValue(sorted[i])
    ensures forall i :: 0 <= i < |InsertAscending(k, sorted)| ==> bound < DecimalValue(InsertAscending(k, sorted)[i])
  {
    var r := InsertAscending(k, sorted);
    forall i | 0 <= i < |r|
      ensures bound < DecimalValue(r[i])
    {
      InsertAscendingFrom(k, sorted, i);
    }
  }

  /** A key below every key of an ascending list can go in front of it. */
  lemma AscendingCons(h: string, rest: seq<string>)
    requires IsArrayIndex(h) && Ascending(rest)
    requires forall i :: 0 <= i < |rest| ==> DecimalValue(h) < DecimalValue(rest[i])
    ensures Ascending([h] + rest)
  {
    var r := [h] + rest;
    forall i, j | 0 <= i < j < |r|
      ensures DecimalValue(r[i]) < DecimalValue(r[j])
    {
      assert r[j] == rest[j - 1];
      if i > 0 {
        assert r[i] == rest[i - 1];
      }
    }
  }

  lemma {:induction false} InsertAscendingSorts(k: string, sorted: seq<string>)
    requires IsArrayIndex(k) && Ascending(sorted) && k !in sorted
    ensures Ascending(InsertAscending(k, sorted))
  {
    if sorted == [] || DecimalValue(k) < DecimalValue(sorted[0]) {
      AscendingCons(k, sorted);
    } else {
      var tail := sorted[1..];
      assert Ascending(tail);
      InsertAscendingSorts(k, tail);
      if DecimalValue(k) == DecimalValue(sorted[0]) {
        CanonicalInjective(k, sorted[0]);
        assert false;
      }
      forall i | 0 <= i < |tail|
        ensures DecimalValue(sorted[0]) < DecimalValue(tail[i])
      {
        assert tail[i] == sorted[i + 1];
      }
      var rest := InsertAscending(k, tail);
      InsertAscendingAbove(k, tail, DecimalValue(sorted[0]));
      AscendingCons(sorted[0], rest);
    }
  }

  lemma {:induction false} SortAscendingPermutes(keys: seq<string>)
    requires AllArrayIndices(keys)
    ensures multiset(SortAscending(keys)) == multiset(keys)
  {
    if keys != [] {
      var rest := keys[1..];
      assert AllArrayIndices(rest);
      SortAscendingPermutes(rest);
      InsertAscendingPermutes(keys[0], SortAscending(rest));
      assert keys == [keys[0]] + rest;
    }
  }

  lemma {:induction false} SortAscendingSorts(keys: seq<string>)
    requires AllArrayIndices(keys) && Distinct(keys)
    ensures Ascending(SortAscending(keys))
  {
    if keys != [] {
      assert Distinct(keys[1..]);
      SortAscendingSorts(keys[1..]);
      SortAscendingPermutes(keys[1..]);
      var sortedRest := SortAscending(keys[1..]);
      assert keys[0] !in keys[1..];
      assert keys[0] !in multiset(sortedRest);
      InsertAscendingSorts(keys[0], sortedRest);
    } else {
      assert Ascending([]);
    }
  }

  // ---------------------------------------------------------------------------------
  // Distinctness and multisets

  lemma {:induction false} DistinctMultiplicity<T>(s: seq<T>, x: T)
    requires Distinct(s)
    ensures multiset(s)[x] <= 1
  {
    if s != [] {
      assert Distinct(s[1..]);
      DistinctMultiplicity(s[1..], x);
      assert s == [s[0]] + s[1..];
      assert s[0] !in s[1..];
    }
  }

  lemma RepeatedMultiplicity<T>(s: seq<T>, i: int, j: int)
    requires 0 <= i < j < |s| && s[i] == s[j]
    ensures multiset(s)[s[i]] >= 2
  {
    assert s == s[..j] + [s[j]] + s[j + 1..];
    assert s[i] in s[..j];
  }

  /** A rearrangement of distinct elements has distinct elements. */
  lemma PermutationKeepsDistinct<T>(a: seq<T>, b: seq<T>)
    requires multiset(a) == multiset(b) && Distinct(a)
    ensures Distinct(b)
  {
    forall i, j | 0 <= i < j < |b|
      ensures b[i] != b[j]
    {
      if b[i] == b[j] {
        RepeatedMultiplicity(b, i, j);
        DistinctMultiplicity(a, b[i]);
        assert false;
      }
    }
  }

  // ---------------------------------------------------------------------------------
  // The property order

  /** `Object.entries` lists each created key exactly once. */
  lemma OwnKeysPermutation(created: seq<string>)
    ensures multiset(OwnKeys(created)) == multiset(created)
    ensures Distinct(created) ==> Distinct(OwnKeys(created))
  {
    IndexKeysSorted(created);
    SortAscendingPermutes(IndexKeys(created));
    FilterSplit(created);
    if Distinct(created) {
      PermutationKeepsDistinct(created, OwnKeys(created));
    }
  }

  /** With no array-index key among them, properties come back in creation order. */
  lemma OwnKeysCreationOrder(created: seq<string>)
    requires forall k <- created :: !IsArrayIndex(k)
    ensures OwnKeys(created) == created
  {
    NoIndexKeys(created);
  }

  /** Array-index keys come first, in ascending numeric order; the other keys follow
      in creation order. */
  lemma OwnKeysOrder(created: seq<string>)
    requires Distinct(created)
    ensures var r := OwnKeys(created);
      && (forall i, j :: 0 <= i < j < |r| && IsArrayIndex(r[j]) ==>
            IsArrayIndex(r[i]) && DecimalValue(r[i]) < DecimalValue(r[j]))
      && NamedKeys(r) == NamedKeys(created)
  {
    IndexKeysSorted(created);
    var idx := IndexKeys(created);
    FilterSplit(created);
    assert Distinct(idx) by {
      assert multiset(idx) <= multiset(created);
      forall i, j | 0 <= i < j < |idx|
        ensures idx[i] != idx[j]
      {
        if idx[i] == idx[j] {
          RepeatedMultiplicity(idx, i, j);
          DistinctMultiplicity(created, idx[i]);
          assert false;
        }
      }
    }
    SortAscendingPermutes(idx);
    SortAscendingSorts(idx);
    var sorted := SortAscending(idx);
    var named := NamedKeys(created);
    var r := OwnKeys(created);
    assert r == sorted + named;
    forall i, j | 0 <= i < j < |r| && IsArrayIndex(r[j])
      ensures IsArrayIndex(r[i]) && DecimalValue(r[i]) < DecimalValue(r[j])
    {
      if j >= |sorted| {
        assert false;
      }
      assert r[i] == sorted[i] && r[j] == sorted[j];
    }
    NamedKeysAppend(sorted, named);
    NamedKeysOfIndices(sorted);
    NamedKeysIdempotent(created);
  }
}
