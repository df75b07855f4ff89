// Time stamps at least a gap apart, and how many of them a window can hold.
module Spacing {
  ghost predicate Spaced(ts: seq<int>, gap: nat) {
    forall i :: 0 < i < |ts| ==> ts[i - 1] + gap <= ts[i]
  }

  lemma {:induction false} LastIsLatest(ts: seq<int>, gap: nat)
    requires Spaced(ts, gap)
    ensures forall i :: 0 <= i < |ts| ==> ts[i] <= ts[|ts| - 1]
  {
    if |ts| > 1 {
      LastIsLatest(ts[..|ts| - 1], gap);
    }
  }

  function CountWithin(ts: seq<int>, lo: int, hi: int): nat {
    if ts == [] then 0
    else CountWithin(ts[..|ts| - 1], lo, hi) + if lo <= ts[|ts| - 1] <= hi then 1 else 0
  }

  ghost function StampsWithin(ts: seq<int>, lo: int, hi: int): set<int> {
    set i | 0 <= i < |ts| && lo <= ts[i] <= hi
  }

  // It counts the stamps in the window.
  lemma {:induction false} CountIsCardinality(ts: seq<int>, lo: int, hi: int)
    ensures CountWithin(ts, lo, hi) == |StampsWithin(ts, lo, hi)|
  {
    if ts != [] {
      var init, last := ts[..|ts| - 1], |ts| - 1;
      CountIsCardinality(init, lo, hi);
      if lo <= ts[last] <= hi {
        assert StampsWithin(ts, lo, hi) == StampsWithin(init, lo, hi) + {last};
      } else {
        assert StampsWithin(ts, lo, hi) == StampsWithin(init, lo, hi);
      }
    }
  }

  // The stamps in a window span at least their number minus one gaps.
  lemma {:induction false} CountSpans(ts: seq<int>, gap: nat, lo: int, hi: int)
    requires Spaced(ts, gap)
    ensures CountWithin(ts, lo, hi) > 0 ==>
            var last := ts[|ts| - 1];
            lo <= last && (CountWithin(ts, lo, hi) - 1) * gap <= (if last <= hi then last else hi) - lo
  {
    if ts != [] {
      var init := ts[..|ts| - 1];
      assert Spaced(init, gap);
      CountSpans(init, gap, lo, hi);
      var n := CountWithin(init, lo, hi);
      assert n * gap == (n - 1) * gap + gap;
    }
  }

  lemma WindowBound(ts: seq<int>, gap: nat, start: int, length: nat)
    requires Spaced(ts, gap) && gap > 0
    ensures CountWithin(ts, start, start + length) <= length / gap + 1
  {
    CountSpans(ts, gap, start, start + length);
    var n := CountWithin(ts, start, start + length);
    if n > 0 {
      QuotientBound(n - 1, gap, length);
    }
  }

  lemma MulMonotone(a: int, b: int, g: nat)
    requires a <= b
    ensures a * g <= b * g
  {
    assert b * g == a * g + (b - a) * g;
  }

  lemma QuotientBound(n: nat, gap: nat, length: nat)
    requires gap > 0 && n * gap <= length
    ensures n <= length / gap
  {
    var q := length / gap;
    assert length < q * gap + gap == (q + 1) * gap;
    if q + 1 <= n {
      MulMonotone(q + 1, n, gap);
    }
  }
}
