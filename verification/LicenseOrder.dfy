/** The order the reservations are matched in: by rank, then by tag, and stable. */
module LicenseOrder {
  import opened LicenseSync

  // ------------------------------------------------------------------ tags

  // After a common beginning, the first tag ends or has the smaller character
  predicate FirstDiffers(a: string, b: string, k: nat) {
    k <= |a| && k < |b| && a[..k] == b[..k] && (k == |a| || a[k] < b[k])
  }

  lemma {:induction false} LexLessAt(a: string, b: string)
    ensures LexLess(a, b) <==> exists k: nat :: FirstDiffers(a, b, k)
  {
    if b != [] && a != [] && a[0] == b[0] {
      LexLessAt(a[1..], b[1..]);
      if k: nat :| FirstDiffers(a[1..], b[1..], k) {
        assert a[..k + 1] == [a[0]] + a[1..][..k] && b[..k + 1] == [b[0]] + b[1..][..k];
        assert FirstDiffers(a, b, k + 1);
      }
      if k: nat :| FirstDiffers(a, b, k) {
        assert k > 0 && a[1..][..k - 1] == a[..k][1..] && b[1..][..k - 1] == b[..k][1..];
        assert FirstDiffers(a[1..], b[1..], k - 1);
      }
    } else {
      FirstDiffersAtOnce(a, b);
    }
  }

  lemma SameFirst(a: string, b: string, k: nat)
    requires FirstDiffers(a, b, k)
    ensures k > 0 ==> a[..1] == b[..1] && |a| > 0
  {
    if k > 0 { assert a[..1] == a[..k][..1] && b[..1] == b[..k][..1]; }
  }

  lemma FirstDiffersAtOnce(a: string, b: string)
    requires a == [] || b == [] || a[0] != b[0]
    ensures (exists k: nat :: FirstDiffers(a, b, k)) <==> b != [] && (a == [] || a[0] < b[0])
  {
    if k: nat :| FirstDiffers(a, b, k) { SameFirst(a, b, k); }
    if b != [] && (a == [] || a[0] < b[0]) { assert FirstDiffers(a, b, 0); }
  }

  lemma {:induction false} LexTransitive(a: string, b: string, c: string)
    requires LexLess(a, b) && LexLess(b, c)
    ensures LexLess(a, c)
  {
    if a != [] && a[0] == b[0] && b[0] == c[0] { LexTransitive(a[1..], b[1..], c[1..]); }
  }

  lemma {:induction false} LexTotal(a: string, b: string)
    ensures LexLess(a, b) || LexLess(b, a) || a == b
    ensures !LexLess(a, a)
  {
    if a != [] {
      LexTotal(a[1..], if b == [] then [] else b[1..]);
      if b != [] { assert a == [a[0]] + a[1..] && b == [b[0]] + b[1..]; }
    }
  }

  // ------------------------------------------------------------------ reservations

  predicate Ordered(ls: seq<License>) {
    forall i, j :: 0 <= i < j < |ls| ==> !KeyLess(ls[j], ls[i])
  }

  predicate SameKey(a: License, b: License) {
    Rank(a) == Rank(b) && a.tag == b.tag
  }

  // The reservations of a key, in order
  function OfKey(ls: seq<License>, key: License): seq<License> {
    if ls == [] then [] else (if SameKey(ls[0], key) then [ls[0]] else []) + OfKey(ls[1..], key)
  }

  lemma KeyOrder(a: License, b: License, c: License)
    ensures KeyLess(a, b) && KeyLess(b, c) ==> KeyLess(a, c)
    ensures !KeyLess(a, b) && !KeyLess(b, a) <==> SameKey(a, b)
    ensures KeyLess(a, b) && !KeyLess(c, b) ==> KeyLess(a, c)
  {
    LexTotal(a.tag, b.tag);
    LexTotal(b.tag, c.tag);
    if LexLess(a.tag, b.tag) && LexLess(b.tag, c.tag) { LexTransitive(a.tag, b.tag, c.tag); }
    if LexLess(a.tag, b.tag) && LexLess(b.tag, a.tag) { LexTransitive(a.tag, b.tag, a.tag); }
    LexTotal(a.tag, a.tag);
  }

  lemma {:induction false} InsertOrders(ls: seq<License>, l: License)
    requires Ordered(ls)
    ensures Ordered(Insert(ls, l))
  {
    if ls != [] {
      if KeyLess(l, ls[0]) {
        forall j | 0 <= j < |ls| ensures !KeyLess(ls[j], l) {
          KeyOrder(ls[j], l, ls[0]);
          KeyOrder(l, ls[0], ls[j]);
          KeyOrder(ls[0], ls[j], l);
        }
      } else {
        InsertOrders(ls[1..], l);
        InsertPermutes(ls[1..], l);
        var r := Insert(ls[1..], l);
        forall j | 0 <= j < |r| ensures !KeyLess(r[j], ls[0]) {
          assert r[j] in multiset(r);
          assert r[j] == l || r[j] in ls[1..];
        }
      }
    }
  }

  lemma {:induction false} NoneOfKey(ls: seq<License>, key: License)
    requires forall i :: 0 <= i < |ls| ==> KeyLess(key, ls[i])
    ensures OfKey(ls, key) == []
  {
    if ls != [] {
      KeyOrder(key, ls[0], key);
      NoneOfKey(ls[1..], key);
    }
  }

  lemma OfKeyCons(l: License, ls: seq<License>, key: License)
    ensures OfKey([l] + ls, key) == (if SameKey(l, key) then [l] else []) + OfKey(ls, key)
  {
    assert ([l] + ls)[1..] == ls;
  }

  // A reservation that goes first has no other of its key after it
  lemma FirstOfKey(ls: seq<License>, l: License, key: License)
    requires Ordered(ls) && ls != [] && KeyLess(l, ls[0]) && SameKey(l, key)
    ensures OfKey(ls, key) == []
  {
    forall i | 0 <= i < |ls| ensures KeyLess(key, ls[i]) { KeyOrder(key, ls[0], ls[i]); }
    NoneOfKey(ls, key);
  }

  lemma {:induction false} InsertIsStable(ls: seq<License>, l: License, key: License)
    requires Ordered(ls)
    ensures OfKey(Insert(ls, l), key) == OfKey(ls, key) + if SameKey(l, key) then [l] else []
  {
    if ls == [] {
      assert Insert(ls, l) == [l] + [];
      OfKeyCons(l, [], key);
    } else if KeyLess(l, ls[0]) {
      OfKeyCons(l, ls, key);
      if SameKey(l, key) { FirstOfKey(ls, l, key); }
    } else {
      OfKeyCons(ls[0], Insert(ls[1..], l), key);
      InsertIsStable(ls[1..], l, key);
    }
  }

  lemma {:induction false} OfKeyAppend(ls: seq<License>, l: License, key: License)
    ensures OfKey(ls + [l], key) == OfKey(ls, key) + if SameKey(l, key) then [l] else []
  {
    if ls == [] {
      assert [] + [l] == [l] && [l][1..] == [];
    } else {
      assert (ls + [l])[1..] == ls[1..] + [l];
      OfKeyAppend(ls[1..], l, key);
    }
  }

  // Sorted is by rank, then by tag, and keeps the order of reservations of one rank and tag
  lemma {:induction false} SortedIsStable(ls: seq<License>, key: License)
    ensures Ordered(Sorted(ls)) && OfKey(Sorted(ls), key) == OfKey(ls, key)
  {
    if ls != [] {
      var front, last := ls[..|ls| - 1], ls[|ls| - 1];
      assert ls == front + [last];
      SortedIsStable(front, key);
      InsertOrders(Sorted(front), last);
      InsertIsStable(Sorted(front), last, key);
      OfKeyAppend(front, last, key);
    }
  }
}
