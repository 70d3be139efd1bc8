/** The figures an activity report shows next to an instrument result: the
    histogram bin of the result, the instrument polarity, and how likely the
    result, or a better one, is given the learner's or the activity's
    histogram. The institution and the VLE serializers compute these the
    same way; both use this module. */
module ActivityReport {
  import H = Histograms

  /** min(int(result / 10), 9) for a result percentage. */
  function ResultBin(result: int): (b: int)
    ensures 0 <= result ==> 0 <= b < H.BINS
    ensures 0 <= result < 100 ==> 10 * b <= result < 10 * b + 10
    ensures 100 <= result ==> b == H.BINS - 1
  {
    var t := H.Truncate(result as real / 10.0);
    assert 0 <= result ==> t == result / 10 by {
      if 0 <= result {
        var q := result / 10;
        assert q as real <= result as real / 10.0 < q as real + 1.0;
      }
    }
    if t < 9 then t else 9
  }

  /** +1 when higher results are better (the first provider of the
      instrument is not inverted), -1 when lower ones are. */
  function Polarity(invertedPolarity: bool): (p: int)
    ensures p == 1 || p == -1
    ensures p == 1 <==> !invertedPolarity
  {
    2 * (if invertedPolarity then 0 else 1) - 1
  }

  lemma {:induction false} TotalAppend(a: seq<int>, b: seq<int>)
    ensures H.Total(a + b) == H.Total(a) + H.Total(b)
  {
    if a != [] {
      assert (a + b)[1..] == a[1..] + b;
      TotalAppend(a[1..], b);
    } else {
      assert a + b == b;
    }
  }

  lemma {:induction false} TotalNonNegative(h: seq<int>)
    requires forall k :: 0 <= k < |h| ==> h[k] >= 0
    ensures H.Total(h) >= 0
  {
    if h != [] {
      TotalNonNegative(h[1..]);
    }
  }

  /** A histogram is its part below a bin, the bin, and its part above. */
  lemma TotalAroundBin(h: seq<int>, b: int)
    requires H.IsHistogram(h) && 0 <= b < H.BINS
    ensures H.Total(h) == H.Total(h[..b]) + h[b] + H.Total(h[b + 1..])
    ensures H.Total(h[..b]) >= 0 && H.Total(h[b + 1..]) >= 0
  {
    assert h == h[..b] + ([h[b]] + h[b + 1..]);
    TotalAppend(h[..b], [h[b]] + h[b + 1..]);
    TotalAppend([h[b]], h[b + 1..]);
    TotalNonNegative(h[..b]);
    TotalNonNegative(h[b + 1..]);
  }

  /** The weight of a result's bin: the bin plus half of each existing
      neighbour; bins 0 and 9 have one neighbour only. */
  function ProbNumerator(h: seq<int>, b: int): (acc: real)
    requires H.IsHistogram(h) && 0 <= b < H.BINS
    ensures 0.0 <= acc <= H.Total(h) as real
    ensures h[b] as real <= acc
  {
    var left := if b > 0 then h[b - 1] as real / 2.0 else 0.0;
    var right := if b < 9 then h[b + 1] as real / 2.0 else 0.0;
    TotalAroundBin(h, b);
    assert b > 0 ==> h[b - 1] <= H.Total(h[..b]) by {
      if b > 0 {
        assert h[..b] == h[..b - 1] + [h[b - 1]];
        TotalAppend(h[..b - 1], [h[b - 1]]);
        TotalNonNegative(h[..b - 1]);
      }
    }
    assert b < 9 ==> h[b + 1] <= H.Total(h[b + 1..]) by {
      if b < 9 {
        assert h[b + 1..] == [h[b + 1]] + h[b + 2..];
        TotalAppend([h[b + 1]], h[b + 2..]);
        TotalNonNegative(h[b + 2..]);
      }
    }
    h[b] as real + left + right
  }

  /** The results better than a result's bin: the bins strictly above it
      when higher is better, strictly below it otherwise. */
  function HigherNumerator(h: seq<int>, b: int, polarity: int): (acc: int)
    requires H.IsHistogram(h) && 0 <= b < H.BINS
    ensures 0 <= acc <= H.Total(h) - h[b]
  {
    TotalAroundBin(h, b);
    assert h[b + 1..H.BINS] == h[b + 1..] && h[0..b] == h[..b];
    if polarity > 0 then H.Total(h[b + 1..H.BINS]) else H.Total(h[0..b])
  }

  /** The results better under one polarity, the bin itself, and those
      better under the other polarity make up the whole histogram. */
  lemma HigherSplitsHistogram(h: seq<int>, b: int)
    requires H.IsHistogram(h) && 0 <= b < H.BINS
    ensures HigherNumerator(h, b, 1) + h[b] + HigherNumerator(h, b, -1) == H.Total(h)
  {
    TotalAroundBin(h, b);
    assert h[b + 1..H.BINS] == h[b + 1..];
    assert h[0..b] == h[..b];
  }

  /** get_prob_learner / get_prob_context for a histogram holding at least
      one result. */
  function Prob(h: seq<int>, result: int): (p: real)
    requires H.IsHistogram(h) && H.Total(h) > 0 && 0 <= result
    ensures 0.0 <= p <= 1.0
  {
    var acc := ProbNumerator(h, ResultBin(result));
    var total := H.Total(h) as real;
    assert acc / total * total == acc;
    acc / total
  }

  /** get_h_prob_learner / get_h_prob_context for a histogram holding at
      least one result. */
  function HigherProb(h: seq<int>, result: int, invertedPolarity: bool): (p: real)
    requires H.IsHistogram(h) && H.Total(h) > 0 && 0 <= result
    ensures 0.0 <= p <= 1.0
    ensures p * H.Total(h) as real == HigherNumerator(h, ResultBin(result), Polarity(invertedPolarity)) as real
  {
    var acc := HigherNumerator(h, ResultBin(result), Polarity(invertedPolarity)) as real;
    var total := H.Total(h) as real;
    assert acc / total * total == acc;
    acc / total
  }
}
