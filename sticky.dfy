/**
  The sticky metadata of a GPS5 stream: an ordered object that every valid
  sample's own `sticky` object is spread onto (`{ ...sticky, ...s.sticky }`),
  and the translation of its keys into human readable labels.
 */
module Sticky {
  import opened Wrappers
  import opened Telemetry

  /** The keys of an ordered object, in iteration order. */
  function Keys(m: Fields): (r: seq<string>)
    ensures |r| == |m|
    ensures forall i :: 0 <= i < |m| ==> r[i] == m[i].0
  {
    if m == [] then [] else [m[0].0] + Keys(m[1..])
  }

  /** Concatenation of key lists regroups freely. */
  lemma ConcatAssoc(a: seq<string>, b: seq<string>, c: seq<string>)
    ensures a + (b + c) == (a + b) + c
  {
  }

  /** The keys of two objects in sequence are the keys of each, in sequence. */
  lemma KeysAppend(a: Fields, b: Fields)
    ensures Keys(a + b) == Keys(a) + Keys(b)
  {
  }

  /** No string occurs twice. */
  predicate Distinct(xs: seq<string>)
  {
    forall i, j :: 0 <= i < j < |xs| ==> xs[i] != xs[j]
  }

  /** The shape of a host object: each key at most once. */
  predicate UniqueKeys(m: Fields)
  {
    Distinct(Keys(m))
  }

  /** Property access `m[k]`: the value stored under `k`, if any. */
  function Lookup(m: Fields, k: string): (r: Option<string>)
    ensures r.Some? <==> k in Keys(m)
  {
    if m == [] then None
    else if m[0].0 == k then Some(m[0].1)
    else Lookup(m[1..], k)
  }

  /** A value read under `k` is the value stored in the first entry with key `k`. */
  lemma {:induction false} LookupStored(m: Fields, k: string)
    ensures Lookup(m, k).Some? ==>
              exists i :: 0 <= i < |m| && m[i] == (k, Lookup(m, k).value)
                          && forall j :: 0 <= j < i ==> m[j].0 != k
    decreases |m|
  {
    if m != [] && m[0].0 != k {
      LookupStored(m[1..], k);
      if Lookup(m, k).Some? {
        var i :| 0 <= i < |m[1..]| && m[1..][i] == (k, Lookup(m, k).value)
                 && forall j :: 0 <= j < i ==> m[1..][j].0 != k;
        assert m[i + 1] == m[1..][i];
        forall j | 0 <= j < i + 1 ensures m[j].0 != k {
          if j > 0 { assert m[j] == m[1..][j - 1]; }
        }
      }
    }
  }

  /** The value read under `k` is that of the first entry with key `k`. */
  lemma {:induction false} LookupFirstEntry(m: Fields, k: string, i: nat)
    requires i < |m| && m[i].0 == k
    requires forall j :: 0 <= j < i ==> m[j].0 != k
    ensures Lookup(m, k) == Some(m[i].1)
    decreases i
  {
    if i > 0 {
      forall j | 0 <= j < i - 1 ensures m[1..][j].0 != k {
        assert m[1..][j] == m[j + 1];
      }
      LookupFirstEntry(m[1..], k, i - 1);
    }
  }

  /**
    Assigning one property: an existing key keeps its position and takes the
    new value, a new key goes to the end.
   */
  function Put(m: Fields, k: string, v: string): (r: Fields)
    ensures k in Keys(m) ==> Keys(r) == Keys(m)
    ensures k !in Keys(m) ==> r == m + [(k, v)]
    ensures Lookup(r, k) == Some(v)
    ensures forall k' :: k' != k ==> Lookup(r, k') == Lookup(m, k')
  {
    if m == [] then [(k, v)]
    else if m[0].0 == k then [(k, v)] + m[1..]
    else [m[0]] + Put(m[1..], k, v)
  }

  /**
    The keys of `ks` that are not yet `known`, in first-occurrence order:
    the keys an overlay appends.
   */
  function NewKeys(known: seq<string>, ks: seq<string>): (r: seq<string>)
    ensures forall x :: x in r ==> x !in known && x in ks
    ensures Distinct(known) ==> Distinct(known + r)
    decreases |ks|
  {
    if ks == [] then []
    else if ks[0] in known then NewKeys(known, ks[1..])
    else
      var rest := NewKeys(known + [ks[0]], ks[1..]);
      assert known + ([ks[0]] + rest) == (known + [ks[0]]) + rest;
      [ks[0]] + rest
  }

  /**
    Object spread `{ ...m, ...s }`: the properties of `s` assigned onto `m`
    one by one, in their order.
   */
  function Overlay(m: Fields, s: Fields): Fields
    decreases |s|
  {
    if s == [] then m else Overlay(Put(m, s[0].0, s[0].1), s[1..])
  }

  /**
    The keys after an overlay: the earlier keys in their places, then the
    keys of the spread object that were new, in that object's order.
   */
  lemma {:induction false} OverlayKeys(m: Fields, s: Fields)
    ensures Keys(Overlay(m, s)) == Keys(m) + NewKeys(Keys(m), Keys(s))
    decreases |s|
  {
    if s != [] {
      var k := s[0].0;
      var m' := Put(m, k, s[0].1);
      var ks := Keys(s);
      var known := Keys(m);
      assert Overlay(m, s) == Overlay(m', s[1..]);
      assert ks[0] == k && ks[1..] == Keys(s[1..]);
      OverlayKeys(m', s[1..]);
      var tail := NewKeys(Keys(m'), ks[1..]);
      assert Keys(Overlay(m, s)) == Keys(m') + tail;
      if k !in known {
        KeysAppend(m, [(k, s[0].1)]);
        assert Keys(m') == known + [k];
        assert NewKeys(known, ks) == [k] + tail;
        ConcatAssoc(known, [k], tail);
      } else {
        assert Keys(m') == known;
        assert NewKeys(known, ks) == tail;
      }
    }
  }

  /** Spreading onto an object with unique keys gives an object with unique keys. */
  lemma OverlayUniqueKeys(m: Fields, s: Fields)
    requires UniqueKeys(m)
    ensures UniqueKeys(Overlay(m, s))
  {
    OverlayKeys(m, s);
  }

  /**
    After an overlay every key of the spread object holds that object's value,
    and every other key keeps the value it had.
   */
  lemma {:induction false} OverlayLookup(m: Fields, s: Fields, k: string)
    requires UniqueKeys(s)
    ensures Lookup(Overlay(m, s), k) == if k in Keys(s) then Lookup(s, k) else Lookup(m, k)
    decreases |s|
  {
    if s != [] {
      var m' := Put(m, s[0].0, s[0].1);
      assert Keys(s) == [s[0].0] + Keys(s[1..]);
      assert UniqueKeys(s[1..]) by {
        assert Keys(s[1..]) == Keys(s)[1..];
      }
      OverlayLookup(m', s[1..], k);
      if k in Keys(s[1..]) {
        assert k != s[0].0;
      }
    }
  }

  /** The overlay never drops a key: the earlier keys are still there, at the same positions. */
  lemma OverlayKeepsKeys(m: Fields, s: Fields)
    ensures |m| <= |Overlay(m, s)|
    ensures forall i :: 0 <= i < |m| ==> Overlay(m, s)[i].0 == m[i].0
    ensures forall k :: k in Keys(Overlay(m, s)) <==> k in Keys(m) || k in Keys(s)
  {
    var r := Overlay(m, s);
    OverlayKeys(m, s);
    assert Keys(r) == Keys(m) + NewKeys(Keys(m), Keys(s));
    forall i | 0 <= i < |m| ensures r[i].0 == m[i].0 {
      assert Keys(r)[i] == Keys(m)[i];
    }
    forall k ensures k in Keys(r) <==> k in Keys(m) || k in Keys(s) {
      NewKeysCover(Keys(m), Keys(s), k);
    }
  }

  /** Every key of `ks` is either known already or one of the new keys. */
  lemma {:induction false} NewKeysCover(known: seq<string>, ks: seq<string>, k: string)
    ensures k in known + NewKeys(known, ks) <==> k in known || k in ks
    decreases |ks|
  {
    if ks != [] {
      if ks[0] in known {
        NewKeysCover(known, ks[1..], k);
      } else {
        NewKeysCover(known + [ks[0]], ks[1..], k);
        assert known + NewKeys(known, ks) == (known + [ks[0]]) + NewKeys(known + [ks[0]], ks[1..]);
      }
      assert ks == [ks[0]] + ks[1..];
    }
  }

  /** The `translations` table: a readable label for two known keys, else the key itself. */
  function Label(key: string): (r: string)
    ensures key == "precision" ==> r == "GPS Accuracy"
    ensures key == "fix" ==> r == "GPS Fix"
    ensures key != "precision" && key != "fix" ==> r == key
  {
    if key == "precision" then "GPS Accuracy"
    else if key == "fix" then "GPS Fix"
    else key
  }

  /** One description line for a sticky entry: `Label: value`. */
  function LabelLine(e: (string, string)): string
  {
    Label(e.0) + ": " + e.1
  }

  /** The description lines of the whole sticky map, one per key, in map order. */
  function Labels(m: Fields): (r: seq<string>)
    ensures |r| == |m|
    ensures forall i :: 0 <= i < |m| ==> r[i] == LabelLine(m[i])
  {
    if m == [] then [] else [LabelLine(m[0])] + Labels(m[1..])
  }
}
