/** Candles of a higher timeframe, made of `factor` consecutive ones (scripts/validate-phase-e2z-b-engine2-integration.ts). */
module Aggregation {
  import opened Common
  import opened Candles
  import opened CandleCache

  function HighOf(s: seq<Candle>): real
    requires s != []
  {
    if |s| == 1 then s[0].high else Max(s[0].high, HighOf(s[1..]))
  }

  function LowOf(s: seq<Candle>): real
    requires s != []
  {
    if |s| == 1 then s[0].low else Min(s[0].low, LowOf(s[1..]))
  }

  function VolumeOf(s: seq<Candle>): real {
    if s == [] then 0.0 else s[0].volume + VolumeOf(s[1..])
  }

  /** One candle that covers the span of a non-empty list. */
  function Merge(s: seq<Candle>): Candle
    requires s != []
  {
    Candle(s[0].openTime, s[|s| - 1].closeTime, s[0].open, HighOf(s), LowOf(s), s[|s| - 1].close, VolumeOf(s), s[0].source)
  }

  function Agg(cs: seq<Candle>, factor: nat): (r: seq<Candle>)
    requires factor > 0
    ensures |cs| >= factor ==> r != []
  {
    if |cs| < factor then [] else [Merge(cs[..factor])] + Agg(cs[factor..], factor)
  }

  method TotalVolume(slice: seq<Candle>) returns (volume: real)
    ensures volume == VolumeOf(slice)
  {
    volume := 0.0;
    assert slice[0..] == slice;
    for k := 0 to |slice|
      invariant volume + VolumeOf(slice[k..]) == VolumeOf(slice)
    {
      assert slice[k..][1..] == slice[k + 1..];
      volume := volume + slice[k].volume;
    }
  }

  lemma AggFrom(cs: seq<Candle>, i: nat, f: nat)
    requires f > 0 && i + f <= |cs|
    ensures Agg(cs[i..], f) == [Merge(cs[i..i + f])] + Agg(cs[i + f..], f)
  {
    assert cs[i..][..f] == cs[i..i + f] && cs[i..][f..] == cs[i + f..];
  }

  method Aggregate(candles: seq<Candle>, factor: nat) returns (out: seq<Candle>)
    requires factor > 0
    ensures out == Agg(candles, factor)
  {
    out := [];
    var i := 0;
    assert candles[0..] == candles;
    while i + factor - 1 < |candles|
      invariant 0 <= i <= |candles|
      invariant out + Agg(candles[i..], factor) == Agg(candles, factor)
      decreases |candles| - i
    {
      var slice := candles[i..i + factor];
      var volume := TotalVolume(slice);
      AggFrom(candles, i, factor);
      out := out + [Candle(
        slice[0].openTime, slice[|slice| - 1].closeTime, slice[0].open, HighOf(slice), LowOf(slice),
        slice[|slice| - 1].close, volume, slice[0].source)];
      i := i + factor;
    }
  }

  // ---- Merging in two stages ------------------------------------------------------------------------------------

  function Join(a: Candle, b: Candle): Candle {
    Candle(a.openTime, b.closeTime, a.open, Max(a.high, b.high), Min(a.low, b.low), b.close, a.volume + b.volume, a.source)
  }

  lemma {:induction false} MergeCons(c: Candle, s: seq<Candle>)
    requires s != []
    ensures Merge([c] + s) == Join(c, Merge(s))
  {
    assert ([c] + s)[1..] == s;
  }

  lemma {:induction false} MergeSingle(c: Candle)
    ensures Merge([c]) == c
  {
    assert [c][1..] == [] && VolumeOf([]) == 0.0;
    assert VolumeOf([c]) == c.volume && HighOf([c]) == c.high && LowOf([c]) == c.low;
  }

  lemma {:induction false} MergeConcat(s: seq<Candle>, t: seq<Candle>)
    requires s != [] && t != []
    ensures Merge(s + t) == Join(Merge(s), Merge(t))
  {
    if |s| == 1 {
      assert s == [s[0]];
      MergeSingle(s[0]);
      MergeCons(s[0], t);
    } else {
      assert s + t == [s[0]] + (s[1..] + t) && s == [s[0]] + s[1..];
      MergeConcat(s[1..], t);
      MergeCons(s[0], s[1..] + t);
      MergeCons(s[0], s[1..]);
    }
  }

  lemma PredProduct(k: nat, a: nat, n: nat)
    requires k > 0 && n == k * a
    ensures n >= a && n - a == (k - 1) * a
  {
    assert k * a == (k - 1) * a + a;
  }

  lemma AggStep(s: seq<Candle>, t: seq<Candle>, a: nat)
    requires 0 < a <= |s|
    ensures Agg(s, a) == [Merge(s[..a])] + Agg(s[a..], a)
    ensures Agg(s + t, a) == [Merge(s[..a])] + Agg(s[a..] + t, a)
  {
    assert (s + t)[..a] == s[..a] && (s + t)[a..] == s[a..] + t;
  }

  lemma {:induction false} AggConcat(s: seq<Candle>, t: seq<Candle>, a: nat, k: nat)
    requires a > 0 && |s| == k * a
    ensures Agg(s + t, a) == Agg(s, a) + Agg(t, a) && |Agg(s, a)| == k
    decreases k
  {
    if k == 0 {
      assert s + t == t && Agg(s, a) == [];
    } else {
      PredProduct(k, a, |s|);
      AggStep(s, t, a);
      AggConcat(s[a..], t, a, k - 1);
    }
  }

  lemma {:induction false} MergeOfAgg(s: seq<Candle>, a: nat, k: nat)
    requires a > 0 && k > 0 && |s| == k * a
    ensures Agg(s, a) != [] && Merge(Agg(s, a)) == Merge(s)
  {
    assert k * a == (k - 1) * a + a;
    if k == 1 {
      assert |s| == a && s[..a] == s && Agg(s[a..], a) == [];
      assert Agg(s, a) == [Merge(s)];
      MergeSingle(Merge(s));
    } else {
      assert s == s[..a] + s[a..];
      assert |s[a..]| == (k - 1) * a >= a by {
        assert (k - 1) * a == (k - 2) * a + a;
      }
      MergeOfAgg(s[a..], a, k - 1);
      MergeConcat(s[..a], s[a..]);
      MergeCons(Merge(s[..a]), Agg(s[a..], a));
    }
  }

  lemma {:induction false} AggLength(cs: seq<Candle>, f: nat, k: nat)
    requires f > 0 && k * f <= |cs| < k * f + f
    ensures |Agg(cs, f)| == k
  {
    if k > 0 {
      assert k * f == (k - 1) * f + f;
      AggLength(cs[f..], f, k - 1);
    }
  }

  lemma ProductsGrow(b: nat, k: nat, a: nat)
    ensures k >= b ==> k * a >= b * a
  {
    if k >= b {
      assert k * a == b * a + (k - b) * a;
    }
  }

  /** Aggregating twice is aggregating once by the product, dropped tails included. */
  lemma {:induction false} AggComposes(cs: seq<Candle>, a: nat, b: nat)
    requires a > 0 && b > 0
    ensures a * b > 0 && Agg(Agg(cs, a), b) == Agg(cs, a * b)
    decreases |cs|
  {
    var ab := a * b;
    assert ab == b * a > 0;
    if |cs| < ab {
      var k := |cs| / a;
      assert k * a <= |cs| < k * a + a;
      AggLength(cs, a, k);
      ProductsGrow(b, k, a);
    } else {
      var head, tail := cs[..ab], cs[ab..];
      assert cs == head + tail;
      AggConcat(head, tail, a, b);
      MergeOfAgg(head, a, b);
      AggComposes(tail, a, b);
      var once := Agg(cs, a);
      assert once[..b] == Agg(head, a) && once[b..] == Agg(tail, a);
    }
  }

  /** 15-minute candles give the same 4-hour candles through the hour as directly. */
  lemma {:induction false} FourHoursAgree(cs: seq<Candle>)
    ensures Agg(Agg(cs, 4), 4) == Agg(cs, 16)
  {
    AggComposes(cs, 4, 4);
  }

  // ---- What each aggregated candle is ---------------------------------------------------------------------------

  lemma SliceOfTail<T>(s: seq<T>, f: nat, from: nat)
    requires f <= from && from + f <= |s|
    ensures s[f..][from - f..from - f + f] == s[from..from + f]
  {
  }

  lemma {:induction false} AggSlice(cs: seq<Candle>, f: nat, k: nat, from: nat)
    requires f > 0 && from == k * f && from + f <= |cs|
    ensures k < |Agg(cs, f)| && Agg(cs, f)[k] == Merge(cs[from..from + f])
    decreases k
  {
    if k > 0 {
      assert from == (k - 1) * f + f;
      AggSlice(cs[f..], f, k - 1, from - f);
      SliceOfTail(cs, f, from);
    }
  }

  /** Candle `k` opens with the first and closes with the last of exactly the `f` candles from `k * f` on, and adds up their volume. */
  lemma {:induction false} AggAt(cs: seq<Candle>, f: nat, k: nat, from: nat)
    requires f > 0 && from == k * f && from + f <= |cs|
    ensures k < |Agg(cs, f)| && Agg(cs, f)[k] == Merge(cs[from..from + f])
    ensures var c, first, last := Agg(cs, f)[k], cs[from], cs[from + f - 1];
            c.openTime == first.openTime && c.open == first.open && c.source == first.source
            && c.closeTime == last.closeTime && c.close == last.close
  {
    AggSlice(cs, f, k, from);
  }

  /** Volume adds up candle by candle. */
  lemma {:induction false} VolumeAddsUp(s: seq<Candle>, c: Candle)
    ensures VolumeOf([]) == 0.0 && VolumeOf([c]) == c.volume && VolumeOf(s + [c]) == VolumeOf(s) + c.volume
    ensures s != [] ==> Merge(s).volume == VolumeOf(s)
  {
    MergeSingle(c);
    VolumeConcat(s, [c]);
  }

  /** Aggregated candles never change as more candles arrive. */
  lemma {:induction false} AggOfPrefixIsPrefix(cs: seq<Candle>, n: nat, f: nat)
    requires f > 0 && n <= |cs|
    ensures |Agg(cs[..n], f)| <= |Agg(cs, f)| && Agg(cs[..n], f) == Agg(cs, f)[..|Agg(cs[..n], f)|]
    decreases |cs|
  {
    if n >= f {
      assert cs[..n][..f] == cs[..f] && cs[..n][f..] == cs[f..][..n - f];
      AggOfPrefixIsPrefix(cs[f..], n - f, f);
    }
  }

  lemma {:induction false} VolumeConcat(s: seq<Candle>, t: seq<Candle>)
    ensures VolumeOf(s + t) == VolumeOf(s) + VolumeOf(t)
  {
    if s == [] {
      assert s + t == t;
    } else {
      assert (s + t)[1..] == s[1..] + t;
      VolumeConcat(s[1..], t);
    }
  }

  lemma VolumeSplits(s: seq<Candle>, f: nat, n: nat)
    requires f <= n <= |s|
    ensures VolumeOf(s[..n]) == VolumeOf(s[..f]) + VolumeOf(s[f..][..n - f])
  {
    assert s[..n] == s[..f] + s[f..][..n - f];
    VolumeConcat(s[..f], s[f..][..n - f]);
  }

  /** No volume is lost on the part that full spans cover, and none is invented. */
  lemma {:induction false} VolumeIsPreserved(cs: seq<Candle>, f: nat) returns (covered: nat)
    requires f > 0
    ensures covered == |Agg(cs, f)| * f && covered <= |cs| < covered + f
    ensures VolumeOf(Agg(cs, f)) == VolumeOf(cs[..covered])
  {
    if |cs| < f {
      covered := 0;
    } else {
      var rest := Agg(cs[f..], f);
      var c := VolumeIsPreserved(cs[f..], f);
      covered := c + f;
      assert (|rest| + 1) * f == |rest| * f + f;
      VolumeSplits(cs, f, covered);
      assert Agg(cs, f)[1..] == rest;
    }
  }

  /** The high is the highest high and the low the lowest low. */
  lemma {:induction false} MergeBounds(s: seq<Candle>)
    requires s != []
    ensures forall c | c in s :: Merge(s).low <= c.low && c.high <= Merge(s).high
    ensures exists c :: c in s && c.high == Merge(s).high
    ensures exists c :: c in s && c.low == Merge(s).low
  {
    assert s[0] in s;
    if |s| > 1 {
      assert s == [s[0]] + s[1..];
      MergeCons(s[0], s[1..]);
      MergeBounds(s[1..]);
    }
  }

  predicate WellShaped(c: Candle) {
    c.low <= c.open <= c.high && c.low <= c.close <= c.high
  }

  /** Candles whose range holds their open and close aggregate to such candles. */
  lemma {:induction false} ShapeIsPreserved(cs: seq<Candle>, f: nat)
    requires f > 0 && forall c | c in cs :: WellShaped(c)
    ensures forall c | c in Agg(cs, f) :: WellShaped(c)
  {
    if |cs| >= f {
      var s := cs[..f];
      assert s[0] in s && s[0] in cs && s[f - 1] in s && s[f - 1] in cs;
      MergeBounds(s);
      ShapeIsPreserved(cs[f..], f);
    }
  }

  // ---- The context a strategy is shown --------------------------------------------------------------------------

  datatype Context = Context(latestPrice: real, m15: seq<Candle>, h1: seq<Candle>, h4: seq<Candle>)

  function BuildContext(c15: seq<Candle>, idx: nat): Context
    requires idx < |c15|
  {
    var from := if idx >= 220 then idx - 220 else 0;
    Context(c15[idx].close, c15[from..idx + 1], LastN(Agg(c15[..idx + 1], 4), 220), LastN(Agg(c15[..idx + 1], 16), 220))
  }

  /** The 4-hour candles shown are the 1-hour ones aggregated, and every list is an untouched part of the full history's. */
  lemma {:induction false} ContextAgrees(c15: seq<Candle>, idx: nat)
    requires idx < |c15|
    ensures BuildContext(c15, idx).latestPrice == c15[idx].close
    ensures BuildContext(c15, idx).m15 == LastN(c15[..idx + 1], 221)
    ensures BuildContext(c15, idx).h4 == LastN(Agg(Agg(c15[..idx + 1], 4), 4), 220)
    ensures |Agg(c15[..idx + 1], 4)| <= |Agg(c15, 4)| && |Agg(c15[..idx + 1], 16)| <= |Agg(c15, 16)|
    ensures BuildContext(c15, idx).h1 == LastN(Agg(c15, 4)[..|Agg(c15[..idx + 1], 4)|], 220)
    ensures BuildContext(c15, idx).h4 == LastN(Agg(c15, 16)[..|Agg(c15[..idx + 1], 16)|], 220)
  {
    FourHoursAgree(c15[..idx + 1]);
    AggOfPrefixIsPrefix(c15, idx + 1, 4);
    AggOfPrefixIsPrefix(c15, idx + 1, 16);
  }
}
