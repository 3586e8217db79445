/** The list operations the source applies to arrays of ids: MongoDB's
    `$pull` and `$addToSet` update operators, JavaScript's
    `filter(x => !list.includes(x))`, `[...new Set(list)]`, and Mongoose
    `populate`, which drops the references whose document is missing. */
module Lists {

  /** No element occurs twice. */
  ghost predicate NoDup<T>(s: seq<T>)
  {
    forall i, j :: 0 <= i < j < |s| ==> s[i] != s[j]
  }

  /** `s.filter(y => !xs.includes(y))`; `$pull: { f: x }` is `RemoveAll(s, [x])`. */
  function RemoveAll<T(==,!new)>(s: seq<T>, xs: seq<T>): (r: seq<T>)
    ensures forall y :: y in r <==> y in s && y !in xs
    ensures |r| <= |s|
    ensures (forall y :: y in s ==> y !in xs) ==> r == s
    ensures NoDup(s) ==> NoDup(r)
  {
    if s == [] then []
    else
      var rest := RemoveAll(s[1..], xs);
      assert s[0] !in s[1..] ==> s[0] !in rest;
      if s[0] in xs then rest else [s[0]] + rest
  }

  /** Removal keeps the relative order: it distributes over concatenation. */
  lemma {:induction false} RemoveAllAppend<T(!new)>(a: seq<T>, b: seq<T>, xs: seq<T>)
    ensures RemoveAll(a + b, xs) == RemoveAll(a, xs) + RemoveAll(b, xs)
  {
    if a == [] {
      assert a + b == b;
    } else {
      assert (a + b)[1..] == a[1..] + b;
      RemoveAllAppend(a[1..], b, xs);
    }
  }

  /** `$addToSet: { f: { $each: xs } }`: each element of xs that is not yet in
      the list is appended, in the order of xs; the list itself is kept as a
      prefix. */
  function AddToSet<T(==,!new)>(s: seq<T>, xs: seq<T>): (r: seq<T>)
    ensures forall y :: y in r <==> y in s || y in xs
    ensures |s| <= |r| && r[..|s|] == s
    ensures NoDup(s) ==> NoDup(r)
    ensures (forall y :: y in xs ==> y in s) ==> r == s
    decreases |xs|
  {
    if xs == [] then s
    else
      var s' := if xs[0] in s then s else s + [xs[0]];
      assert s'[..|s|] == s;
      AddToSet(s', xs[1..])
  }

  /** Adding the same elements twice is the same as adding them once. */
  lemma AddToSetIdempotent<T(!new)>(s: seq<T>, xs: seq<T>)
    ensures AddToSet(AddToSet(s, xs), xs) == AddToSet(s, xs)
  {
  }

  /** Adding a + b is adding a, then b. */
  lemma {:induction false} AddToSetAppend<T(!new)>(s: seq<T>, a: seq<T>, b: seq<T>)
    ensures AddToSet(s, a + b) == AddToSet(AddToSet(s, a), b)
    decreases |a|
  {
    if a == [] {
      assert a + b == b;
    } else {
      assert (a + b)[0] == a[0] && (a + b)[1..] == a[1..] + b;
      var s' := if a[0] in s then s else s + [a[0]];
      AddToSetAppend(s', a[1..], b);
    }
  }

  /** Without duplicates anywhere, adding to a set is plain concatenation. */
  lemma {:induction false} AddToSetFresh<T(!new)>(s: seq<T>, xs: seq<T>)
    requires NoDup(s + xs)
    ensures AddToSet(s, xs) == s + xs
    decreases |xs|
  {
    if xs != [] {
      assert (s + xs)[|s|] == xs[0];
      assert xs[0] !in s by {
        forall i | 0 <= i < |s| ensures s[i] != xs[0] {
          assert (s + xs)[i] == s[i];
        }
      }
      assert s + xs == (s + [xs[0]]) + xs[1..];
      AddToSetFresh(s + [xs[0]], xs[1..]);
    }
  }

  /** `[...new Set(s)]`: the first occurrence of each element, in order. */
  function Dedup<T(==,!new)>(s: seq<T>): (r: seq<T>)
    ensures NoDup(r)
    ensures forall y :: y in r <==> y in s
  {
    AddToSet([], s)
  }

  /** A list without duplicates is its own `[...new Set(...)]`. */
  lemma DedupOfNoDup<T(!new)>(s: seq<T>)
    requires NoDup(s)
    ensures Dedup(s) == s
  {
    assert [] + s == s;
    AddToSetFresh([], s);
  }

  /** `[...new Set([...a, ...b])]` keeps the deduplicated a as a prefix and
      appends the elements of b that a lacks. */
  lemma DedupAppend<T(!new)>(a: seq<T>, b: seq<T>)
    ensures Dedup(a + b) == AddToSet(Dedup(a), b)
  {
    AddToSetAppend([], a, b);
  }

  /** Mongoose `populate` on an array of references: the ids whose document
      exists, in order. */
  function Present<K(!new), V>(ids: seq<K>, m: map<K, V>): (r: seq<K>)
    ensures forall y :: y in r <==> y in ids && y in m
    ensures (forall y :: y in ids ==> y in m) ==> r == ids
    ensures |r| <= |ids|
  {
    if ids == [] then []
    else (if ids[0] in m then [ids[0]] else []) + Present(ids[1..], m)
  }

  /** `populate` keeps the order of the references: resolving a
      concatenation resolves each part and concatenates the results. */
  lemma {:induction false} PresentAppend<K(!new), V>(a: seq<K>, b: seq<K>, m: map<K, V>)
    ensures Present(a + b, m) == Present(a, m) + Present(b, m)
  {
    if a == [] {
      assert a + b == b;
    } else {
      var head := if a[0] in m then [a[0]] else [];
      assert (a + b)[0] == a[0] && (a + b)[1..] == a[1..] + b;
      PresentAppend(a[1..], b, m);
      calc {
        Present(a + b, m);
        head + Present(a[1..] + b, m);
        head + (Present(a[1..], m) + Present(b, m));
        { AppendAssoc(head, Present(a[1..], m), Present(b, m)); }
        (head + Present(a[1..], m)) + Present(b, m);
      }
    }
  }

  lemma AppendAssoc<T>(x: seq<T>, y: seq<T>, z: seq<T>)
    ensures x + (y + z) == (x + y) + z
  {
  }
}
