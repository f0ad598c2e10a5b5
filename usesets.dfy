/**
 The use sets of the codemod: JavaScript `Set`s of method names, filled with
 `add` and read back by spreading, so that iteration follows insertion order
 and a name added twice is kept once (src/index.js:22-23, 93, 97, 107, 117).
 */
module UseSets {

  predicate NoDuplicates(s: seq<string>) {
    forall i, j :: 0 <= i < j < |s| ==> s[i] != s[j]
  }

  /** `Array.prototype.indexOf`: the first position of `x` in `s`, or -1. */
  function IndexOf(s: seq<string>, x: string): (r: int)
    ensures r == -1 <==> x !in s
    ensures 0 <= r ==> r < |s| && s[r] == x && x !in s[..r]
  {
    if s == [] then -1
    else if s[0] == x then 0
    else
      var r := IndexOf(s[1..], x);
      assert r >= 0 ==> s[1..][..r] == s[1..r + 1];
      if r < 0 then -1 else r + 1
  }

  /** The first position of an element does not change when more elements follow it. */
  lemma IndexOfPrefix(s: seq<string>, t: seq<string>, x: string)
    requires x in s
    ensures IndexOf(s + t, x) == IndexOf(s, x)
  {
    var i := IndexOf(s, x);
    var j := IndexOf(s + t, x);
    assert (s + t)[i] == x;
    assert (s + t)[..i] == s[..i];
  }

  /** An element that was not there yet is first found where it is appended. */
  lemma IndexOfNew(s: seq<string>, x: string)
    requires x !in s
    ensures IndexOf(s + [x], x) == |s|
  {
    assert forall k :: 0 <= k < |s| ==> (s + [x])[k] == s[k];
  }

  /**
   The use set after `add`-ing every element of `s` in turn: each element
   once, and nothing that was not added.
   */
  function Dedup(s: seq<string>): (r: seq<string>)
    ensures NoDuplicates(r)
    ensures forall x :: x in r <==> x in s
  {
    if s == [] then []
    else
      var d := Dedup(s[..|s| - 1]);
      if s[|s| - 1] in d then d else d + [s[|s| - 1]]
  }

  /** The use set keeps names in the order of their first `add`. */
  lemma {:induction false} DedupFirstOccurrenceOrder(s: seq<string>)
    ensures forall i, j :: 0 <= i < j < |Dedup(s)| ==> IndexOf(s, Dedup(s)[i]) < IndexOf(s, Dedup(s)[j])
  {
    if s != [] {
      var init := s[..|s| - 1];
      var x := s[|s| - 1];
      var d := Dedup(init);
      DedupFirstOccurrenceOrder(init);
      assert s == init + [x];
      var r := Dedup(s);
      forall i, j | 0 <= i < j < |r| ensures IndexOf(s, r[i]) < IndexOf(s, r[j]) {
        assert r[i] == d[i] && d[i] in init;
        IndexOfPrefix(init, [x], d[i]);
        if j < |d| {
          assert r[j] == d[j] && d[j] in init;
          IndexOfPrefix(init, [x], d[j]);
          assert IndexOf(init, d[i]) < IndexOf(init, d[j]);
        } else {
          assert r[j] == x && x !in init;
          IndexOfNew(init, x);
        }
      }
    }
  }

  /** How many names the use set holds: the number of distinct names added. */
  lemma {:induction false} DedupSize(s: seq<string>)
    ensures |Dedup(s)| == |set x | x in s|
  {
    if s != [] {
      var init := s[..|s| - 1];
      var x := s[|s| - 1];
      DedupSize(init);
      assert s == init + [x];
      var before := set y | y in init;
      var after := set y | y in s;
      if x in init {
        assert after == before;
      } else {
        assert after == before + {x};
        assert x !in before;
      }
    }
  }

  /** A JavaScript `Set` of strings, seen through its insertion-ordered contents. */
  class UseSet {
    var elems: seq<string>

    ghost predicate Valid()
      reads this
    {
      NoDuplicates(elems)
    }

    constructor ()
      ensures Valid() && elems == []
    {
      elems := [];
    }

    /** `Set.prototype.add`: a new name goes to the end, a known one changes nothing. */
    method Add(x: string)
      requires Valid()
      modifies this
      ensures Valid()
      ensures elems == if x in old(elems) then old(elems) else old(elems) + [x]
    {
      if x !in elems {
        elems := elems + [x];
      }
    }
  }
}
