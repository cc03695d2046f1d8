/** The published JWK Set: every key, newest first. Section 5 of RFC 7517 defines the container; the
    order is the registry's own. */
module Keys {
  import opened Gobl

  /** Byte-wise order of key ids. */
  predicate StringLess(a: string, b: string) {
    if b == [] then false
    else if a == [] then true
    else if a[0] != b[0] then a[0] < b[0]
    else StringLess(a[1..], b[1..])
  }

  /** The comparator of the set: later start of validity first, undated keys last, then greater id. */
  predicate Newer(a: PublicKey, b: PublicKey) {
    if a.validFrom.Some? && b.validFrom.Some? && a.validFrom != b.validFrom then a.validFrom.value > b.validFrom.value
    else if a.validFrom.Some? && b.validFrom.None? then true
    else if a.validFrom.None? && b.validFrom.Some? then false
    else StringLess(b.kid, a.kid)
  }

  lemma {:induction false} StringLessTotal(a: string, b: string)
    ensures !(StringLess(a, b) && StringLess(b, a))
    ensures a != b <==> StringLess(a, b) || StringLess(b, a)
  {
    if a != [] && b != [] && a[0] == b[0] {
      StringLessTotal(a[1..], b[1..]);
      assert a == [a[0]] + a[1..] && b == [b[0]] + b[1..];
    }
  }

  lemma {:induction false} StringLessTransitive(a: string, b: string, c: string)
    requires StringLess(a, b) && StringLess(b, c)
    ensures StringLess(a, c)
  {
    if a != [] && a[0] == b[0] == c[0] {
      StringLessTransitive(a[1..], b[1..], c[1..]);
    }
  }

  /** The comparator is a strict weak order: irreflexive, asymmetric, transitive, and it leaves only
      keys with equal dates and ids unordered, so being unordered is an equivalence. */
  lemma NewerIsStrictWeakOrder(a: PublicKey, b: PublicKey, c: PublicKey)
    ensures !Newer(a, a)
    ensures !(Newer(a, b) && Newer(b, a))
    ensures Newer(a, b) && Newer(b, c) ==> Newer(a, c)
    ensures !Newer(a, b) && !Newer(b, a) <==> a.validFrom == b.validFrom && a.kid == b.kid
  {
    StringLessTotal(a.kid, a.kid);
    StringLessTotal(a.kid, b.kid);
    if StringLess(b.kid, a.kid) && StringLess(c.kid, b.kid) {
      StringLessTransitive(c.kid, b.kid, a.kid);
    }
  }

  /** Id `a` is the greater one or the same: at the first difference it has the greater character, or there
      is none and `b` ends first. */
  ghost predicate AtLeast(a: string, b: string) {
    exists n: nat :: AgreeUpTo(a, b, n) && (n == |b| || (n < |a| && n < |b| && a[n] > b[n]))
  }

  ghost predicate AgreeUpTo(a: string, b: string, n: nat) {
    n <= |a| && n <= |b| && a[..n] == b[..n]
  }

  lemma {:induction false} NotLessIsAtLeast(a: string, b: string)
    ensures !StringLess(a, b) <==> AtLeast(a, b)
    decreases |b|
  {
    forall n: nat | AgreeUpTo(a, b, n) && n > 0
      ensures a != [] && b != [] && a[0] == b[0]
    {
      assert a[..n][0] == b[..n][0];
    }
    if b == [] || a == [] || a[0] != b[0] {
      assert AgreeUpTo(a, b, 0);
    } else {
      NotLessIsAtLeast(a[1..], b[1..]);
      if n: nat :| AgreeUpTo(a[1..], b[1..], n) && (n == |b| - 1 || (n < |a| - 1 && n < |b| - 1 && a[n + 1] > b[n + 1])) {
        assert a[..n + 1] == [a[0]] + a[1..][..n] && b[..n + 1] == [b[0]] + b[1..][..n];
        assert AgreeUpTo(a, b, n + 1);
      }
      if n: nat :| AgreeUpTo(a, b, n) && (n == |b| || (n < |a| && n < |b| && a[n] > b[n])) {
        assert n > 0;
        assert a[1..][..n - 1] == a[..n][1..] && b[1..][..n - 1] == b[..n][1..];
        assert AgreeUpTo(a[1..], b[1..], n - 1);
      }
    }
  }

  // ---- the stable sort ------------------------------------------------------------------------

  function Insert(s: seq<PublicKey>, x: PublicKey): seq<PublicKey> {
    if s == [] then [x]
    else
      var n := |s| - 1;
      if Newer(x, s[n]) then Insert(s[..n], x) + [s[n]] else s + [x]
  }

  function StableSorted(s: seq<PublicKey>): seq<PublicKey> {
    if s == [] then [] else Insert(StableSorted(s[..|s| - 1]), s[|s| - 1])
  }

  /** Moves the key at position `i` towards the front, past the keys it is newer than. */
  method MoveForward(a: array<PublicKey>, i: nat)
    requires i < a.Length
    modifies a
    ensures a[..i + 1] == Insert(old(a[..i]), old(a[i]))
    ensures a[i + 1..] == old(a[i + 1..])
  {
    ghost var front, x := a[..i], a[i];
    var j := i;
    while j > 0 && Newer(a[j], a[j - 1])
      invariant 0 <= j <= i
      invariant a[j] == x && a[..j] == front[..j]
      invariant Insert(front, x) == Insert(front[..j], x) + a[j + 1..i + 1]
      invariant a[i + 1..] == old(a[i + 1..])
    {
      ghost var tail := a[j + 1..i + 1];
      Sink(front[..j], x, tail);
      assert front[..j][..j - 1] == front[..j - 1];
      a[j], a[j - 1] := a[j - 1], a[j];
      j := j - 1;
      assert a[j + 1..i + 1] == [front[j]] + tail;
    }
    assert Insert(front[..j], x) == front[..j] + [x];
    assert a[..i + 1] == front[..j] + [x] + a[j + 1..i + 1];
  }

  lemma Sink(front: seq<PublicKey>, x: PublicKey, tail: seq<PublicKey>)
    requires front != [] && Newer(x, front[|front| - 1])
    ensures Insert(front, x) + tail == Insert(front[..|front| - 1], x) + ([front[|front| - 1]] + tail)
  {}

  method SortStable(a: array<PublicKey>)
    modifies a
    ensures a[..] == StableSorted(old(a[..]))
  {
    ghost var was := a[..];
    var i := 0;
    while i < a.Length
      invariant 0 <= i <= a.Length
      invariant a[..i] == StableSorted(was[..i])
      invariant a[i..] == was[i..]
    {
      assert a[i] == was[i] by { assert a[i] == a[i..][0] && was[i] == was[i..][0]; }
      assert a[i + 1..] == was[i + 1..] by { assert a[i + 1..] == a[i..][1..] && was[i + 1..] == was[i..][1..]; }
      MoveForward(a, i);
      assert was[..i + 1][..i] == was[..i];
      i := i + 1;
    }
    assert a[..i] == a[..] && was[..i] == was;
  }

  /** Marshals the keys one by one, stopping at the first that cannot be marshalled. */
  method MarshalAll(keys: array<PublicKey>, marshal: PublicKey -> Option<string>) returns (entries: Option<seq<string>>)
    ensures entries.Some? <==> forall k :: k in keys[..] ==> marshal(k).Some?
    ensures entries.Some? ==>
              |entries.value| == keys.Length &&
              forall i :: 0 <= i < keys.Length ==> marshal(keys[i]) == Some(entries.value[i])
  {
    var out := [];
    for i := 0 to keys.Length
      invariant |out| == i
      invariant forall j :: 0 <= j < i ==> marshal(keys[j]) == Some(out[j])
    {
      var b := marshal(keys[i]);
      if b.None? {
        assert keys[i] in keys[..];
        return None;
      }
      out := out + [b.value];
    }
    entries := Some(out);
  }

  /** The entries of the JWK Set document, or none when some key cannot be marshalled. The published
      keys themselves stay as they are: the method modifies nothing. */
  method JWKS(publicKeys: array<PublicKey>, marshal: PublicKey -> Option<string>) returns (doc: Option<seq<string>>)
    ensures doc.Some? <==> forall k :: k in publicKeys[..] ==> marshal(k).Some?
    ensures doc.Some? ==>
              var order := StableSorted(publicKeys[..]);
              |doc.value| == |order| && forall i :: 0 <= i < |order| ==> marshal(order[i]) == Some(doc.value[i])
    ensures var order := StableSorted(publicKeys[..]);
            multiset(order) == multiset(publicKeys[..]) && forall i, j :: 0 <= i < j < |order| ==>
              && (order[i].validFrom.Some? && order[j].validFrom.Some? ==>
                    order[i].validFrom.value >= order[j].validFrom.value)
              && (order[i].validFrom.None? ==> order[j].validFrom.None?)
              && (order[i].validFrom == order[j].validFrom ==> AtLeast(order[i].kid, order[j].kid))
  {
    var keys := new PublicKey[publicKeys.Length](i requires 0 <= i < publicKeys.Length reads publicKeys => publicKeys[i]);
    assert keys[..] == publicKeys[..];
    SortStable(keys);
    doc := MarshalAll(keys, marshal);
    SortedPermutation(publicKeys[..]);
    PublishedNewestFirst(publicKeys[..]);
    SameMembers(keys[..], publicKeys[..]);
    hide StableSorted, Newer, AtLeast;
  }

  lemma SameMembers(a: seq<PublicKey>, b: seq<PublicKey>)
    requires multiset(a) == multiset(b)
    ensures forall k :: k in a <==> k in b
  {
    assert forall k :: k in a <==> k in multiset(a);
    assert forall k :: k in b <==> k in multiset(b);
  }

  // ---- the order is canonical -----------------------------------------------------------------

  ghost predicate NewestFirst(s: seq<PublicKey>) {
    forall i, j :: 0 <= i < j < |s| ==> !Newer(s[j], s[i])
  }

  lemma {:induction false} InsertMembers(s: seq<PublicKey>, x: PublicKey)
    ensures multiset(Insert(s, x)) == multiset(s) + multiset{x}
    ensures forall k :: k in Insert(s, x) ==> k == x || k in s
    decreases |s|
  {
    hide Newer;
    if s != [] {
      var n := |s| - 1;
      assert s == s[..n] + [s[n]];
      InsertMembers(s[..n], x);
    }
  }

  lemma {:induction false} InsertKeepsOrder(s: seq<PublicKey>, x: PublicKey)
    requires NewestFirst(s)
    ensures NewestFirst(Insert(s, x))
    decreases |s|
  {
    if s != [] {
      var n := |s| - 1;
      if Newer(x, s[n]) {
        InsertKeepsOrder(s[..n], x);
        InsertMembers(s[..n], x);
        NewerIsStrictWeakOrder(x, s[n], x);
        hide Newer;
        var t := Insert(s[..n], x);
        assert forall i :: 0 <= i < |t| ==> t[i] in t;
      } else {
        hide Newer;
        forall i | 0 <= i < n
          ensures !Newer(x, s[i])
        {
          NotNewerTransitive(x, s[n], s[i]);
        }
      }
    }
  }

  lemma NotNewerTransitive(a: PublicKey, b: PublicKey, c: PublicKey)
    requires !Newer(a, b) && !Newer(b, c)
    ensures !Newer(a, c)
  {
    NewerIsStrictWeakOrder(a, b, c);
    NewerIsStrictWeakOrder(b, c, a);
    NewerIsStrictWeakOrder(c, a, b);
    NewerIsStrictWeakOrder(a, c, b);
    NewerIsStrictWeakOrder(c, b, a);
  }

  /** The published order is a permutation of the keys, newest first, with undated keys last. */
  lemma {:induction false} SortedPermutation(s: seq<PublicKey>)
    ensures multiset(StableSorted(s)) == multiset(s)
    ensures NewestFirst(StableSorted(s))
    ensures forall i, j :: 0 <= i < j < |s| == |StableSorted(s)| && StableSorted(s)[i].validFrom.None? ==>
              StableSorted(s)[j].validFrom.None?
    decreases |s|
  {
    if s != [] {
      var n := |s| - 1;
      SortedPermutation(s[..n]);
      InsertKeepsOrder(StableSorted(s[..n]), s[n]);
      InsertMembers(StableSorted(s[..n]), s[n]);
      assert s == s[..n] + [s[n]];
    }
    var t := StableSorted(s);
    forall i, j | 0 <= i < j < |s| == |t| && t[i].validFrom.None?
      ensures t[j].validFrom.None?
    {
      assert !Newer(t[j], t[i]);
    }
  }

  /** The published order in plain terms: a dated key is followed only by keys dated no later or undated, an
      undated one only by undated ones, and among keys of the same date, or of none, ids go down. */
  lemma PublishedNewestFirst(s: seq<PublicKey>)
    ensures var order := StableSorted(s);
            forall i, j :: 0 <= i < j < |order| ==>
              && (order[i].validFrom.Some? && order[j].validFrom.Some? ==>
                    order[i].validFrom.value >= order[j].validFrom.value)
              && (order[i].validFrom.None? ==> order[j].validFrom.None?)
              && (order[i].validFrom == order[j].validFrom ==> AtLeast(order[i].kid, order[j].kid))
  {
    SortedPermutation(s);
    var order := StableSorted(s);
    hide StableSorted, AtLeast;
    forall i, j | 0 <= i < j < |order|
      ensures order[i].validFrom.Some? && order[j].validFrom.Some? ==>
                order[i].validFrom.value >= order[j].validFrom.value
      ensures order[i].validFrom.None? ==> order[j].validFrom.None?
      ensures order[i].validFrom == order[j].validFrom ==> AtLeast(order[i].kid, order[j].kid)
    {
      NotLessIsAtLeast(order[i].kid, order[j].kid);
      assert !Newer(order[j], order[i]);
    }
  }

  lemma SameFirst(a: seq<PublicKey>, b: seq<PublicKey>)
    requires UniqueKids(a) && multiset(a) == multiset(b) && a != [] && b != []
    requires NewestFirst(a) && NewestFirst(b)
    ensures a[0] == b[0]
  {
    assert a[0] in multiset(b) && b[0] in multiset(a);
    assert a[0] in b && b[0] in a;
    if a[0] != b[0] {
      var k :| 0 <= k < |b| && b[k] == a[0];
      var m :| 0 <= m < |a| && a[m] == b[0];
      NewerIsStrictWeakOrder(a[0], b[0], a[0]);
      assert false;
    }
  }

  lemma WithoutFirst(s: seq<PublicKey>)
    requires s != []
    ensures s == [s[0]] + s[1..] && multiset(s[1..]) == multiset(s) - multiset{s[0]}
  {}

  /** Keys with distinct ids have only one order that lists them newest first. */
  lemma {:induction false} OneOrder(a: seq<PublicKey>, b: seq<PublicKey>)
    requires UniqueKids(a) && multiset(a) == multiset(b)
    requires NewestFirst(a) && NewestFirst(b)
    ensures a == b
    decreases |a|
  {
    assert |a| == |multiset(a)| == |multiset(b)| == |b|;
    if a != [] {
      SameFirst(a, b);
      WithoutFirst(a);
      WithoutFirst(b);
      hide Newer;
      OneOrder(a[1..], b[1..]);
    }
  }

  /** The published order does not depend on the order in which the keys were loaded, nor on which
      sorting algorithm produced it. */
  lemma PublishedOrderCanonical(loaded: seq<PublicKey>, other: seq<PublicKey>)
    requires UniqueKids(loaded) && multiset(loaded) == multiset(other)
    ensures StableSorted(other) == StableSorted(loaded)
    ensures NewestFirst(other) ==> other == StableSorted(loaded)
  {
    SortedPermutation(loaded);
    SortedPermutation(other);
    UniqueKidsPermuted(loaded, StableSorted(loaded));
    OneOrder(StableSorted(loaded), StableSorted(other));
    if NewestFirst(other) {
      OneOrder(StableSorted(loaded), other);
    }
  }

  lemma UniqueKidsPermuted(a: seq<PublicKey>, b: seq<PublicKey>)
    requires UniqueKids(a) && multiset(a) == multiset(b)
    ensures UniqueKids(b)
  {
    forall i, j | 0 <= i < j < |b|
      ensures b[i].kid != b[j].kid
    {
      if b[i].kid == b[j].kid {
        assert b[i] in multiset(a) && b[j] in multiset(a);
        assert b[i] in a && b[j] in a;
        assert b == b[..j] + [b[j]] + b[j + 1..];
        assert b[i] in b[..j];
        if b[i] == b[j] {
          assert multiset(b)[b[i]] >= 2;
          OnceEach(a, b[i]);
        }
        assert false;
      }
    }
  }

  lemma {:induction false} OnceEach(a: seq<PublicKey>, x: PublicKey)
    requires UniqueKids(a)
    ensures multiset(a)[x] <= 1
    decreases |a|
  {
    if a != [] {
      assert a == [a[0]] + a[1..];
      OnceEach(a[1..], x);
      if x == a[0] {
        assert x !in a[1..];
      }
    }
  }
}
