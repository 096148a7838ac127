/**
 How the store reads an outage back: its wall interval minus the recorded pause
 rows, trimmed from the end to the recorded length.
 */
module ReadModel {

  datatype Span = Span(lo: int, hi: int) {
    function Width(): int {
      hi - lo
    }

    predicate Has(x: int) {
      lo <= x < hi
    }
  }

  predicate Proper(ss: seq<Span>) {
    forall i :: 0 <= i < |ss| ==> ss[i].lo <= ss[i].hi
  }

  predicate SortedByStart(ss: seq<Span>) {
    forall i, j :: 0 <= i < j < |ss| ==> ss[i].lo <= ss[j].lo
  }

  /** Second `x` lies in one of the spans. */
  predicate Has(ss: seq<Span>, x: int) {
    ss != [] && (ss[0].Has(x) || Has(ss[1..], x))
  }

  lemma {:induction false} HasConcat(a: seq<Span>, b: seq<Span>, x: int)
    ensures Has(a + b, x) <==> Has(a, x) || Has(b, x)
  {
    if a == [] {
      assert a + b == b;
    } else {
      assert (a + b)[1..] == a[1..] + b;
      HasConcat(a[1..], b, x);
    }
  }

  function Total(ss: seq<Span>): int {
    if ss == [] then 0 else ss[0].Width() + Total(ss[1..])
  }

  lemma {:induction false} TotalConcat(a: seq<Span>, b: seq<Span>)
    ensures Total(a + b) == Total(a) + Total(b)
  {
    if a == [] {
      assert a + b == b;
    } else {
      assert (a + b)[1..] == a[1..] + b;
      TotalConcat(a[1..], b);
    }
  }

  // ------------------------------------------------------------ merging

  /** One step of the merge: `s` extends the last span or starts a new one. */
  function MergeOne(out: seq<Span>, s: Span): seq<Span> {
    if out == [] then [s]
    else
      var last := out[|out|-1];
      if s.lo > last.hi then out + [s]
      else out[..|out|-1] + [Span(last.lo, if s.hi > last.hi then s.hi else last.hi)]
  }

  function Merged(ss: seq<Span>): seq<Span> {
    if ss == [] then [] else MergeOne(Merged(ss[..|ss|-1]), ss[|ss|-1])
  }

  method MergeSpans(spans: seq<Span>) returns (out: seq<Span>)
    ensures out == Merged(spans)
  {
    if |spans| < 2 {
      assert spans == [] || (spans[..0] == [] && [spans[0]] == spans);
      return spans;
    }
    out := spans[..1];
    var i := 1;
    assert spans[..1] == [spans[0]] && [spans[0]][..0] == [];
    while i < |spans|
      invariant 1 <= i <= |spans|
      invariant out != [] && out == Merged(spans[..i])
    {
      var s, last := spans[i], out[|out|-1];
      assert spans[..i+1][..i] == spans[..i];
      if s.lo <= last.hi {
        if s.hi > last.hi {
          out := out[|out|-1 := Span(last.lo, s.hi)];
        }
      } else {
        out := out + [s];
      }
      i := i + 1;
    }
    assert spans[..i] == spans;
  }

  predicate Separated(ss: seq<Span>) {
    && Proper(ss)
    && forall i, j :: 0 <= i < j < |ss| ==> ss[i].hi < ss[j].lo
  }

  lemma MergeOneSeparates(m: seq<Span>, s: Span)
    requires Separated(m) && s.lo <= s.hi && (m != [] ==> m[|m|-1].lo <= s.lo)
    ensures var n := MergeOne(m, s); Separated(n) && n != [] && n[|n|-1].lo <= s.lo
  {
  }

  lemma MergeOneNarrows(m: seq<Span>, s: Span)
    requires s.lo <= s.hi
    ensures Total(MergeOne(m, s)) <= Total(m) + s.Width()
  {
    var n := MergeOne(m, s);
    TotalConcat(m, [s]);
    if m != [] {
      var init := m[..|m|-1];
      assert m == init + [m[|m|-1]];
      TotalConcat(init, [m[|m|-1]]);
      TotalConcat(init, [n[|n|-1]]);
    }
  }

  lemma WithoutLast(ss: seq<Span>)
    requires Proper(ss) && SortedByStart(ss) && ss != []
    ensures var pre, s := ss[..|ss|-1], ss[|ss|-1];
            && Proper(pre) && SortedByStart(pre) && s.lo <= s.hi && ss == pre + [s]
            && (pre != [] ==> pre[|pre|-1].lo <= s.lo)
  {
  }

  /** Merging separates the spans and only ever sheds width. */
  lemma {:induction false} MergeShape(ss: seq<Span>)
    requires Proper(ss) && SortedByStart(ss)
    ensures var m := Merged(ss);
            && Separated(m) && Total(m) <= Total(ss)
            && (m != [] ==> ss != [] && m[|m|-1].lo <= ss[|ss|-1].lo)
  {
    if ss != [] {
      var pre, s := ss[..|ss|-1], ss[|ss|-1];
      WithoutLast(ss);
      MergeShape(pre);
      TotalConcat(pre, [s]);
      MergeOneSeparates(Merged(pre), s);
      MergeOneNarrows(Merged(pre), s);
    }
  }

  lemma MergeOneCovers(m: seq<Span>, s: Span, x: int)
    requires Proper(m) && s.lo <= s.hi && (m != [] ==> m[|m|-1].lo <= s.lo)
    ensures Has(MergeOne(m, s), x) <==> Has(m, x) || s.Has(x)
  {
    var n := MergeOne(m, s);
    HasConcat(m, [s], x);
    if m != [] {
      var init := m[..|m|-1];
      assert m == init + [m[|m|-1]];
      HasConcat(init, [m[|m|-1]], x);
      HasConcat(init, [n[|n|-1]], x);
    }
  }

  /** Merging keeps the covered seconds. */
  lemma {:induction false} MergeCovers(ss: seq<Span>, x: int)
    requires Proper(ss) && SortedByStart(ss)
    ensures Has(Merged(ss), x) <==> Has(ss, x)
  {
    if ss != [] {
      var pre, s := ss[..|ss|-1], ss[|ss|-1];
      WithoutLast(ss);
      MergeCovers(pre, x);
      MergeShape(pre);
      HasConcat(pre, [s], x);
      MergeOneCovers(Merged(pre), s, x);
    }
  }

  lemma SeparatedIsSorted(ss: seq<Span>)
    requires Separated(ss)
    ensures SortedByStart(ss)
  {
  }

  // ------------------------------------------------------------ subtracting

  /** The stretches of [cur, end) outside the spans. */
  function Gaps(ps: seq<Span>, cur: int, end: int): seq<Span> {
    if ps == [] || (ps[0].hi > cur && ps[0].lo >= end) then if cur < end then [Span(cur, end)] else []
    else if ps[0].hi <= cur then Gaps(ps[1..], cur, end)
    else (if ps[0].lo > cur then [Span(cur, ps[0].lo)] else []) + Gaps(ps[1..], ps[0].hi, end)
  }

  /** The leading part of the spans that holds no more than `left` seconds. */
  function Trimmed(ss: seq<Span>, left: int): seq<Span> {
    if ss == [] then []
    else if ss[0].Width() <= left then [ss[0]] + Trimmed(ss[1..], left - ss[0].Width())
    else if left == 0 then [] else [Span(ss[0].lo, ss[0].lo + left)]
  }

  function Observed(pauses: seq<Span>, start: int, end: int, observed: int): seq<Span> {
    if end <= start || observed <= 0 then [] else Trimmed(Gaps(Merged(pauses), start, end), observed)
  }

  method ObservedOutageSpans(pauses: seq<Span>, start: int, end: int, observed: int) returns (out: seq<Span>)
    ensures out == Observed(pauses, start, end, observed)
  {
    if end <= start {
      return [];
    }
    out := [];
    var cur := start;
    var merged := MergeSpans(pauses);
    var i := 0;
    while i < |merged|
      invariant 0 <= i <= |merged|
      invariant out + Gaps(merged[i..], cur, end) == Gaps(merged, start, end)
    {
      var p := merged[i];
      assert merged[i..][1..] == merged[i+1..];
      if p.hi <= cur {
        i := i + 1;
        continue;
      }
      if p.lo >= end {
        break;
      }
      if p.lo > cur {
        out := out + [Span(cur, p.lo)];
      }
      cur := p.hi;
      i := i + 1;
    }
    if cur < end {
      out := out + [Span(cur, end)];
    }
    assert out == Gaps(merged, start, end);
    if observed <= 0 {
      return [];
    }
    out := TrimTail(out, observed);
  }

  lemma Regroup(a: seq<Span>, s: Span, b: seq<Span>)
    ensures a + [s] + b == a + ([s] + b)
  {
  }

  method TrimTail(spans: seq<Span>, observed: int) returns (out: seq<Span>)
    requires 0 <= observed
    ensures out == Trimmed(spans, observed)
  {
    var remaining := observed;
    out := [];
    var i := 0;
    while i < |spans|
      invariant 0 <= i <= |spans|
      invariant out + Trimmed(spans[i..], remaining) == Trimmed(spans, observed)
    {
      var s := spans[i];
      assert spans[i..][1..] == spans[i+1..] && spans[i..][0] == s;
      if s.Width() <= remaining {
        Regroup(out, s, Trimmed(spans[i+1..], remaining - s.Width()));
        out, remaining := out + [s], remaining - s.Width();
        i := i + 1;
        continue;
      }
      if remaining != 0 {
        out := out + [Span(s.lo, s.lo + remaining)];
      }
      return;
    }
  }

  /** Non-empty stretches of [from, to), in order. */
  predicate Ordered(ss: seq<Span>, from: int, to: int) {
    ss != [] ==> from <= ss[0].lo < ss[0].hi <= to && Ordered(ss[1..], ss[0].hi, to)
  }

  lemma {:induction false} OrderedWithin(ss: seq<Span>, from: int, to: int, x: int)
    requires Ordered(ss, from, to) && Has(ss, x)
    ensures from <= x < to
  {
    if !ss[0].Has(x) {
      OrderedWithin(ss[1..], ss[0].hi, to, x);
    }
  }

  lemma {:induction false} OrderedIsProper(ss: seq<Span>, from: int, to: int)
    requires Ordered(ss, from, to)
    ensures Proper(ss)
  {
    if ss != [] {
      OrderedIsProper(ss[1..], ss[0].hi, to);
      assert ss == [ss[0]] + ss[1..];
    }
  }

  lemma {:induction false} OrderedFromEarlier(ss: seq<Span>, from: int, earlier: int, to: int)
    requires Ordered(ss, from, to) && earlier <= from
    ensures Ordered(ss, earlier, to)
  {
  }

  lemma {:induction false} StartsBound(ps: seq<Span>, from: int, x: int)
    requires Proper(ps) && SortedByStart(ps) && (ps != [] ==> from <= ps[0].lo) && x < from
    ensures !Has(ps, x)
  {
    if ps != [] {
      StartsBound(ps[1..], from, x);
    }
  }

  lemma {:induction false} GapsAreOrdered(ps: seq<Span>, cur: int, end: int)
    requires Proper(ps) && SortedByStart(ps)
    ensures Ordered(Gaps(ps, cur, end), cur, end)
    decreases |ps|
  {
    if ps != [] && !(ps[0].hi > cur && ps[0].lo >= end) {
      var p := ps[0];
      var next := if p.hi <= cur then cur else p.hi;
      GapsAreOrdered(ps[1..], next, end);
      var rest := Gaps(ps[1..], next, end);
      if p.hi > cur && p.lo > cur {
        assert ([Span(cur, p.lo)] + rest)[1..] == rest;
        OrderedFromEarlier(rest, next, p.lo, end);
      } else {
        assert [] + rest == rest;
        OrderedFromEarlier(rest, next, cur, end);
      }
    }
  }

  /** Gaps is the complement: exactly the seconds of [cur, end) in no span. */
  lemma {:induction false} GapsAreTheComplement(ps: seq<Span>, cur: int, end: int, x: int)
    requires Proper(ps) && SortedByStart(ps)
    ensures Has(Gaps(ps, cur, end), x) <==> cur <= x < end && !Has(ps, x)
    decreases |ps|
  {
    if ps != [] {
      var p := ps[0];
      if p.hi > cur && p.lo >= end {
        if x < end {
          StartsBound(ps, p.lo, x);
        }
      } else {
        var next := if p.hi <= cur then cur else p.hi;
        GapsAreTheComplement(ps[1..], next, end, x);
        if p.hi > cur {
          HasConcat(if p.lo > cur then [Span(cur, p.lo)] else [], Gaps(ps[1..], next, end), x);
          if x < p.lo {
            StartsBound(ps[1..], p.lo, x);
          }
        }
      }
    }
  }

  lemma {:induction false} GapsAreWideEnough(ps: seq<Span>, cur: int, end: int)
    requires Proper(ps)
    ensures Total(Gaps(ps, cur, end)) >= end - cur - Total(ps)
    decreases |ps|
  {
    if ps != [] {
      TotalNonNegative(ps[1..]);
      if !(ps[0].hi > cur && ps[0].lo >= end) {
        var next := if ps[0].hi <= cur then cur else ps[0].hi;
        GapsAreWideEnough(ps[1..], next, end);
        TotalConcat(if ps[0].lo > cur then [Span(cur, ps[0].lo)] else [], Gaps(ps[1..], next, end));
      }
    }
  }

  lemma {:induction false} TotalNonNegative(ss: seq<Span>)
    requires Proper(ss)
    ensures Total(ss) >= 0
  {
    if ss != [] {
      TotalNonNegative(ss[1..]);
    }
  }

  lemma {:induction false} TrimTotal(ss: seq<Span>, left: int)
    requires Proper(ss) && 0 <= left
    ensures var t := Trimmed(ss, left);
            && Total(t) == (if Total(ss) <= left then Total(ss) else left)
            && (Total(ss) <= left ==> t == ss)
    decreases |ss|
  {
    if ss != [] {
      var s, rest := ss[0], ss[1..];
      TotalNonNegative(rest);
      if s.Width() <= left {
        TrimTotal(rest, left - s.Width());
      } else if left > 0 {
        assert [Span(s.lo, s.lo + left)][1..] == [];
      }
    }
  }

  /** Trimming keeps a prefix of the seconds. */
  lemma {:induction false} TrimKeepsThePrefix(ss: seq<Span>, left: int, from: int, to: int, x: int, y: int)
    requires Ordered(ss, from, to) && 0 <= left
    ensures Has(Trimmed(ss, left), y) ==> Has(ss, y)
    ensures Has(ss, x) && !Has(Trimmed(ss, left), x) && Has(Trimmed(ss, left), y) ==> y < x
    decreases |ss|
  {
    if ss != [] {
      var s, rest := ss[0], ss[1..];
      if Has(rest, x) {
        OrderedWithin(rest, s.hi, to, x);
      }
      if s.Width() <= left {
        TrimKeepsThePrefix(rest, left - s.Width(), s.hi, to, x, y);
        var t := Trimmed(rest, left - s.Width());
        assert ([s] + t)[1..] == t;
      } else if left > 0 {
        var t := Trimmed(ss, left);
        assert t == [Span(s.lo, s.lo + left)] && t[1..] == [];
        assert Has(t, x) <==> t[0].Has(x);
        assert Has(t, y) <==> t[0].Has(y);
      }
    }
  }

  /**
   What the read model reports: seconds of the outage that no pause covers, and
   of those the earliest ones; all of them, or exactly the recorded length.
   */
  lemma ObservedIsTheLeadingWatchedTime(pauses: seq<Span>, start: int, end: int, observed: int, x: int, y: int)
    requires Proper(pauses) && SortedByStart(pauses) && observed > 0
    ensures var out := Observed(pauses, start, end, observed);
            && (Has(out, y) ==> start <= y < end && !Has(pauses, y))
            && (start <= x < end && !Has(pauses, x) && !Has(out, x) ==> Total(out) == observed && (Has(out, y) ==> y < x))
            && Total(out) <= observed
  {
    if start < end {
      MergeShape(pauses);
      MergeCovers(pauses, x);
      MergeCovers(pauses, y);
      SeparatedIsSorted(Merged(pauses));
      GapsAreOrdered(Merged(pauses), start, end);
      GapsAreTheComplement(Merged(pauses), start, end, x);
      GapsAreTheComplement(Merged(pauses), start, end, y);
      var gaps := Gaps(Merged(pauses), start, end);
      OrderedIsProper(gaps, start, end);
      TrimTotal(gaps, observed);
      TrimKeepsThePrefix(gaps, observed, start, end, x, y);
    }
  }

  /** A pair wide enough for its pause rows and its recorded length reads back as exactly that length. */
  lemma WidePairReadsBackExactly(pauses: seq<Span>, start: int, end: int, observed: int)
    requires Proper(pauses) && SortedByStart(pauses) && observed > 0
    requires end - start >= observed + Total(pauses)
    ensures Total(Observed(pauses, start, end, observed)) == observed
  {
    MergeShape(pauses);
    TotalNonNegative(pauses);
    SeparatedIsSorted(Merged(pauses));
    GapsAreWideEnough(Merged(pauses), start, end);
    GapsAreOrdered(Merged(pauses), start, end);
    OrderedIsProper(Gaps(Merged(pauses), start, end), start, end);
    TrimTotal(Gaps(Merged(pauses), start, end), observed);
  }
}
