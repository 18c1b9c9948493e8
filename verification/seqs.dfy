/** Facts about sequences used by the order-preservation proofs, and the
    values present in a sequence of optional results. */
module Seqs {
  import opened Wrappers

  lemma ConcatAssoc<T>(x: seq<T>, y: seq<T>, z: seq<T>)
    ensures x + y + z == x + (y + z)
  {
  }

  /** Cutting a sequence at two points and gluing the pieces back gives it. */
  lemma Split3<T>(s: seq<T>, i: nat, j: nat)
    requires i <= j <= |s|
    ensures s == s[..i] + s[i..j] + s[j..]
  {
  }

  /** The back of a suffix of `s` is the back of `s`. */
  lemma BackOfSuffix<T>(s: seq<T>, a: nat, b: nat)
    requires a + b <= |s|
    ensures s[a..][|s| - a - b..] == s[|s| - b..]
    ensures b < |s| - a ==> s[a..][|s| - a - b - 1] == s[|s| - b - 1]
  {
  }

  /** The values present in `xs`, in order; the `None`s are skipped. */
  function Present<T>(xs: seq<Option<T>>): (r: seq<T>)
    ensures |r| <= |xs|
  {
    if |xs| == 0 then []
    else Present(xs[..|xs| - 1]) + (if xs[|xs| - 1].Some? then [xs[|xs| - 1].value] else [])
  }

  /** Looking at one more element appends its value when it has one. */
  lemma PresentSnoc<T>(xs: seq<Option<T>>, i: nat)
    requires i < |xs|
    ensures Present(xs[..i + 1]) == Present(xs[..i]) + (if xs[i].Some? then [xs[i].value] else [])
  {
    assert xs[..i + 1][..i] == xs[..i];
  }

  /** For each value of `Present(xs)`, its index in `xs`. */
  ghost function Positions<T>(xs: seq<Option<T>>): seq<nat> {
    if |xs| == 0 then []
    else Positions(xs[..|xs| - 1]) + (if xs[|xs| - 1].Some? then [|xs| - 1] else [])
  }

  /** Each present value sits at its recorded position. */
  lemma {:induction false} PositionsLocate<T>(xs: seq<Option<T>>)
    ensures |Positions(xs)| == |Present(xs)|
    ensures forall k :: 0 <= k < |Positions(xs)| ==>
              Positions(xs)[k] < |xs| && xs[Positions(xs)[k]] == Some(Present(xs)[k])
  {
    if |xs| > 0 {
      var init := xs[..|xs| - 1];
      PositionsLocate(init);
      var pre, vals := Positions(init), Present(init);
      var last := xs[|xs| - 1];
      var idx := pre + (if last.Some? then [|xs| - 1] else []);
      var all := vals + (if last.Some? then [last.value] else []);
      assert Positions(xs) == idx && Present(xs) == all;
      forall k | 0 <= k < |idx| ensures idx[k] < |xs| && xs[idx[k]] == Some(all[k]) {
        if k < |pre| {
          assert idx[k] == pre[k] && all[k] == vals[k];
          assert init[pre[k]] == xs[pre[k]];
        }
      }
    }
  }

  /** The positions are strictly increasing. */
  lemma {:induction false} PositionsIncreasing<T>(xs: seq<Option<T>>)
    ensures forall k :: 0 <= k < |Positions(xs)| ==> Positions(xs)[k] < |xs|
    ensures forall k, l :: 0 <= k < l < |Positions(xs)| ==> Positions(xs)[k] < Positions(xs)[l]
  {
    if |xs| > 0 {
      var init := xs[..|xs| - 1];
      PositionsIncreasing(init);
      var pre := Positions(init);
      var idx := pre + (if xs[|xs| - 1].Some? then [|xs| - 1] else []);
      assert Positions(xs) == idx;
      forall k | 0 <= k < |idx| ensures idx[k] < |xs| {
        if k < |pre| {
          assert idx[k] == pre[k];
        }
      }
      forall k, l | 0 <= k < l < |idx| ensures idx[k] < idx[l] {
        assert idx[k] == pre[k];
        if l < |pre| {
          assert idx[l] == pre[l];
        }
      }
    }
  }

  /** Every present value is recorded. */
  lemma {:induction false} PositionsComplete<T>(xs: seq<Option<T>>, k: nat)
    requires k < |xs| && xs[k].Some?
    ensures k in Positions(xs)
  {
    var init := xs[..|xs| - 1];
    var pre := Positions(init);
    var tail := if xs[|xs| - 1].Some? then [|xs| - 1] else [];
    assert Positions(xs) == pre + tail;
    if k < |init| {
      assert init[k] == xs[k];
      PositionsComplete(init, k);
      var j :| 0 <= j < |pre| && pre[j] == k;
      assert (pre + tail)[j] == k;
    } else {
      assert (pre + tail)[|pre|] == k;
    }
  }

  /** With no `None`, every value is present, in place. */
  lemma {:induction false} PresentAll<T>(xs: seq<Option<T>>)
    requires forall k :: 0 <= k < |xs| ==> xs[k].Some?
    ensures |Present(xs)| == |xs|
    ensures forall k :: 0 <= k < |xs| ==> Present(xs)[k] == xs[k].value
  {
    if |xs| > 0 {
      var init := xs[..|xs| - 1];
      assert forall k :: 0 <= k < |init| ==> init[k] == xs[k];
      PresentAll(init);
      var all := Present(init) + [xs[|xs| - 1].value];
      assert Present(xs) == all;
      forall k | 0 <= k < |xs| ensures all[k] == xs[k].value {
        if k < |init| {
          assert all[k] == Present(init)[k];
        }
      }
    }
  }
}
