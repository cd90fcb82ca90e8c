// The order over peer IDs that settles simultaneous dials: core/peer/id.go.
module PeerOrder {
  import opened Bytes

  type PeerId = seq<Byte>

  ghost predicate SameUpTo(l: PeerId, r: PeerId, k: nat)
    requires k <= |l| && k <= |r|
  {
    forall i :: 0 <= i < k ==> l[i] == r[i]
  }

  ghost predicate FirstDifference(l: PeerId, r: PeerId, k: nat) {
    k < |l| && k < |r| && SameUpTo(l, r, k) && l[k] != r[k]
  }

  /** l wins wherever the two first differ. Without a difference both win. */
  ghost predicate Heavier(l: PeerId, r: PeerId) {
    forall k: nat :: FirstDifference(l, r, k) ==> l[k] > r[k]
  }

  ghost predicate PrefixRelated(l: PeerId, r: PeerId) {
    l <= r || r <= l
  }

  method WeightCompare(l: PeerId, r: PeerId) returns (saveMe: bool)
    ensures saveMe <==> Heavier(l, r)
    ensures forall k :: 0 <= k < |l| && k < |r| && l[..k] == r[..k] && l[k] != r[k] ==> (saveMe <==> l[k] > r[k])
    ensures l <= r || r <= l ==> saveMe
  {
    var i := 0;
    while i < |l| && i < |r|
      invariant i <= |l| && i <= |r| && SameUpTo(l, r, i)
    {
      if l[i] != r[i] {
        assert FirstDifference(l, r, i);
        return l[i] > r[i];
      }
      i := i + 1;
    }
    saveMe := true;
  }

  lemma {:induction false} DifferenceExists(l: PeerId, r: PeerId, i: nat) returns (k: nat)
    requires !PrefixRelated(l, r)
    requires i <= |l| && i <= |r| && SameUpTo(l, r, i)
    ensures FirstDifference(l, r, k)
    decreases |l| - i
  {
    if l[i] != r[i] {
      k := i;
    } else {
      k := DifferenceExists(l, r, i + 1);
    }
  }

  lemma Total(l: PeerId, r: PeerId)
    ensures Heavier(l, r) || Heavier(r, l)
  {
    if !Heavier(l, r) {
      var k: nat :| FirstDifference(l, r, k) && l[k] <= r[k];
    }
  }

  /** Both IDs claim to be the heavier one exactly when one is a prefix of the other. */
  lemma BothHeavierIffPrefix(l: PeerId, r: PeerId)
    ensures Heavier(l, r) && Heavier(r, l) <==> PrefixRelated(l, r)
  {
    if PrefixRelated(l, r) {
      assert forall k: nat :: k < |l| && k < |r| ==> l[k] == r[k];
    } else {
      var k := DifferenceExists(l, r, 0);
      assert FirstDifference(r, l, k);
    }
  }

  /** Transitive as long as the middle ID is prefix-unrelated to the outer two. */
  lemma Transitive(a: PeerId, b: PeerId, c: PeerId)
    requires !PrefixRelated(a, b) && !PrefixRelated(b, c)
    requires Heavier(a, b) && Heavier(b, c)
    ensures Heavier(a, c) && !Heavier(c, a)
  {
    var i := DifferenceExists(a, b, 0);
    var j := DifferenceExists(b, c, 0);
    var k := if i < j then i else j;
    assert FirstDifference(a, c, k) && a[k] > c[k];
    assert FirstDifference(c, a, k);
  }

  /** Transitivity fails exactly below a common prefix: the middle ID is one of the other two, and those are out of order. */
  lemma IntransitiveIff(a: PeerId, b: PeerId, c: PeerId)
    ensures Heavier(a, b) && Heavier(b, c) && !Heavier(a, c) <==> b <= a && b <= c && !Heavier(a, c)
  {
    if !Heavier(a, c) {
      var k: nat :| FirstDifference(a, c, k) && a[k] <= c[k];
      if b <= a && b <= c {
        BothHeavierIffPrefix(a, b);
        BothHeavierIffPrefix(b, c);
      }
      if Heavier(a, b) && Heavier(b, c) {
        MiddleIsPrefix(a, b, c, k);
      }
    }
  }

  lemma MiddleIsPrefix(a: PeerId, b: PeerId, c: PeerId, k: nat)
    requires FirstDifference(a, c, k) && a[k] < c[k]
    requires Heavier(a, b) && Heavier(b, c)
    ensures b <= a && b <= c
  {
    if !PrefixRelated(a, b) {
      var j := DifferenceExists(a, b, 0);
      LighterIsBelow(a, b, c, k, j);
    }
    assert PrefixRelated(a, b);
    assert |b| <= k by {
      if |b| > k {
        assert FirstDifference(b, c, k);
      }
    }
    assert b == a[..|b|] && a[..|b|] == c[..|b|];
  }

  /** An ID that is lighter than a where they first differ is lighter than c as well. */
  lemma LighterIsBelow(a: PeerId, b: PeerId, c: PeerId, k: nat, j: nat)
    requires FirstDifference(a, c, k) && a[k] < c[k]
    requires FirstDifference(a, b, j) && a[j] > b[j]
    ensures !Heavier(b, c)
  {
    assert FirstDifference(b, c, if j < k then j else k);
  }

  /** With prefixes around, the comparison is not transitive. */
  lemma NotTransitiveOnPrefixes() returns (a: PeerId, b: PeerId, c: PeerId)
    ensures Heavier(a, b) && Heavier(b, c) && !Heavier(a, c)
  {
    a, b, c := [2, 1], [2], [2, 2];
    BothHeavierIffPrefix(a, b);
    BothHeavierIffPrefix(b, c);
    assert FirstDifference(a, c, 1);
  }

  /** Of two distinct IDs of one length exactly one is heavier. */
  lemma SameLengthOneHeavier(l: PeerId, r: PeerId)
    requires |l| == |r| && l != r
    ensures !PrefixRelated(l, r)
    ensures Heavier(l, r) <==> !Heavier(r, l)
  {
    Total(l, r);
    BothHeavierIffPrefix(l, r);
  }
}
