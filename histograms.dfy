/** The result histograms kept per learner and per activity: ten bins of
    ten percentage points each, bumped every time a provider result is
    saved as processed. */
module Histograms {
  import opened Wrappers

  const BINS := 10

  /** Python's int() on a float: truncation toward zero. */
  function Truncate(x: real): (r: int)
    ensures x >= 0.0 ==> 0 <= r && 0.0 <= x - r as real < 1.0
    ensures x < 0.0 ==> r <= 0 && -1.0 < x - r as real <= 0.0
  {
    if x >= 0.0 then x.Floor else -((-x).Floor)
  }

  /** The bin of a result: min(int(result * 10), 9). */
  function Bin(result: real): (b: int)
    ensures 0.0 <= result ==> 0 <= b < BINS
    ensures 0.0 <= result < 1.0 ==> b as real <= result * 10.0 < b as real + 1.0
    ensures 1.0 <= result ==> b == BINS - 1
    ensures -0.1 < result < 0.0 ==> b == 0
  {
    var t := Truncate(result * 10.0);
    if t < 9 then t else 9
  }

  /** A well-formed histogram: ten non-negative counts. */
  predicate IsHistogram(h: seq<int>)
  {
    |h| == BINS && forall k :: 0 <= k < |h| ==> h[k] >= 0
  }

  function Total(h: seq<int>): int
  {
    if h == [] then 0 else h[0] + Total(h[1..])
  }

  /** The histogram after one result fell into bin `b`: an existing one has
      that bin incremented; a missing one is created with only that bin at
      1. */
  function Bump(h: Option<seq<int>>, b: int): (r: seq<int>)
    requires 0 <= b < BINS
    requires h.Some? ==> IsHistogram(h.value)
    ensures IsHistogram(r)
    ensures r[b] == (if h.Some? then h.value[b] else 0) + 1
    ensures forall k :: 0 <= k < BINS && k != b ==> r[k] == if h.Some? then h.value[k] else 0
  {
    var base := if h.Some? then h.value else seq(BINS, _ => 0);
    base[b := base[b] + 1]
  }

  lemma {:induction false} TotalOfUpdate(h: seq<int>, b: int, v: int)
    requires 0 <= b < |h|
    ensures Total(h[b := v]) == Total(h) - h[b] + v
  {
    if b == 0 {
      assert h[b := v][1..] == h[1..];
    } else {
      assert h[b := v][1..] == h[1..][b - 1 := v];
      TotalOfUpdate(h[1..], b - 1, v);
    }
  }

  lemma {:induction false} TotalOfZeros(n: nat)
    ensures Total(seq(n, _ => 0)) == 0
  {
    if n > 0 {
      assert seq(n, _ => 0)[1..] == seq(n - 1, _ => 0);
      TotalOfZeros(n - 1);
    }
  }

  /** Every bump adds exactly one result to the histogram. */
  lemma BumpCountsOne(h: Option<seq<int>>, b: int)
    requires 0 <= b < BINS
    requires h.Some? ==> IsHistogram(h.value)
    ensures Total(Bump(h, b)) == (if h.Some? then Total(h.value) else 0) + 1
  {
    var base := if h.Some? then h.value else seq(BINS, _ => 0);
    if h.None? {
      TotalOfZeros(BINS);
    }
    TotalOfUpdate(base, b, base[b] + 1);
  }

  /** The histograms keyed by (owner, instrument or provider). */
  type Histos = map<(int, int), seq<int>>

  predicate AllHistograms(m: Histos)
  {
    forall key :: key in m ==> IsHistogram(m[key])
  }

  function Lookup(m: Histos, key: (int, int)): Option<seq<int>>
  {
    if key in m then Some(m[key]) else None
  }

  /** One result recorded in the histogram of `key`. */
  function Record(m: Histos, key: (int, int), b: int): (r: Histos)
    requires 0 <= b < BINS && AllHistograms(m)
    ensures AllHistograms(r) && r.Keys == m.Keys + {key}
    ensures forall other :: other in m && other != key ==> r[other] == m[other]
  {
    m[key := Bump(Lookup(m, key), b)]
  }

  /** Saving the same processed result twice counts it twice. */
  lemma RecordTwiceCountsTwice(m: Histos, key: (int, int), b: int)
    requires 0 <= b < BINS && AllHistograms(m)
    ensures Record(Record(m, key, b), key, b)[key][b] == (if key in m then m[key][b] else 0) + 2
  {
  }

  /** A provider result as saved: its status, its result, and who and what
      it is about. */
  datatype SavedResult = SavedResult(status: int, result: real, learner: int, activity: int, instrument: int, provider: int)

  class Histograms {
    var learnerInstrument: Histos
    var learnerProvider: Histos
    var activityInstrument: Histos
    var activityProvider: Histos

    predicate Valid()
      reads this
    {
      AllHistograms(learnerInstrument) && AllHistograms(learnerProvider) &&
      AllHistograms(activityInstrument) && AllHistograms(activityProvider)
    }

    constructor ()
      ensures Valid()
      ensures learnerInstrument == map[] && learnerProvider == map[]
      ensures activityInstrument == map[] && activityProvider == map[]
    {
      learnerInstrument := map[];
      learnerProvider := map[];
      activityInstrument := map[];
      activityProvider := map[];
    }

    /** RequestProviderResult.save: a processed result (status 1) falls into
        one bin of each of its four histograms; any other status leaves the
        histograms alone. A negative result under -0.1 names no bin and is
        not accepted. */
    method Save(r: SavedResult)
      requires Valid()
      requires r.status == 1 ==> Bin(r.result) >= 0
      modifies this
      ensures Valid()
      ensures r.status != 1 ==>
                learnerInstrument == old(learnerInstrument) && learnerProvider == old(learnerProvider) &&
                activityInstrument == old(activityInstrument) && activityProvider == old(activityProvider)
      ensures r.status == 1 ==>
                var b := Bin(r.result);
                learnerInstrument == Record(old(learnerInstrument), (r.learner, r.instrument), b) &&
                learnerProvider == Record(old(learnerProvider), (r.learner, r.provider), b) &&
                activityInstrument == Record(old(activityInstrument), (r.activity, r.instrument), b) &&
                activityProvider == Record(old(activityProvider), (r.activity, r.provider), b)
    {
      if r.status == 1 {
        var b := Bin(r.result);
        learnerInstrument := learnerInstrument[(r.learner, r.instrument) := Bump(Lookup(learnerInstrument, (r.learner, r.instrument)), b)];
        learnerProvider := learnerProvider[(r.learner, r.provider) := Bump(Lookup(learnerProvider, (r.learner, r.provider)), b)];
        activityInstrument := activityInstrument[(r.activity, r.instrument) := Bump(Lookup(activityInstrument, (r.activity, r.instrument)), b)];
        activityProvider := activityProvider[(r.activity, r.provider) := Bump(Lookup(activityProvider, (r.activity, r.provider)), b)];
      }
    }
  }
}
