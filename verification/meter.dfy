/**
 * The grid meter clients (`ShellyClient`, `EcoTrackerClient`). Both keep the
 * last three successful readings with their timestamps, count consecutive
 * failed polls and offer a weighted average in which newer readings weigh
 * more. They differ only in how a reading is decoded from the HTTP response:
 * the Shelly 3EM sums the three phase powers of its `em:0` object, the
 * EcoTracker reports one `power` value. The HTTP exchange is an oracle: a poll
 * takes the decoded response body, or `None` when the request timed out,
 * could not connect, returned an error status or did not decode.
 */
module Meter {
  import opened Wrappers
  import opened JsonData
  import opened Stats
  import Window

  /** The `maxlen` of the reading history. */
  const HistoryLength: nat := 3

  datatype MeterKind = Shelly | EcoTracker

  /** One successful reading: grid power in watts (positive = import) and when it was taken. */
  datatype Sample = Sample(power: real, timestamp: real)

  /** The bookkeeping a meter client keeps between polls. */
  datatype MeterState = MeterState(history: seq<Sample>, failures: nat, lastPoll: real, lastSuccess: real)

  /** Python's `float(v)` on a decoded value; `None` where it raises. */
  function FloatOf(v: Json): Option<real> {
    Numeric(v)
  }

  /** `float(em.get(key, 0))`. */
  function PhasePower(em: Json, key: string): Option<real> {
    match GetField(em, key, JInt(0))
    case None => None
    case Some(v) => FloatOf(v)
  }

  /** The grid power a response body reports, or `None` where decoding raises. */
  function DecodePower(kind: MeterKind, data: Json): (r: Option<real>)
    ensures kind == EcoTracker && data.JObject? && "power" !in data.fields ==> r == Some(0.0)
    ensures kind == Shelly && data.JObject? && "em:0" !in data.fields ==> r == Some(0.0)
    ensures !data.JObject? ==> r.None?
    // the Shelly reading is the sum of the three phases, a missing phase counting 0 W
    ensures kind == Shelly && data.JObject? && FieldOr(data.fields, "em:0", JObject(map[])).JObject? ==>
      var em := FieldOr(data.fields, "em:0", JObject(map[])).fields;
      var a := Numeric(FieldOr(em, "a_act_power", JInt(0)));
      var b := Numeric(FieldOr(em, "b_act_power", JInt(0)));
      var c := Numeric(FieldOr(em, "c_act_power", JInt(0)));
      (r.Some? <==> a.Some? && b.Some? && c.Some?) &&
      (r.Some? ==> r.value == a.value + b.value + c.value)
    ensures kind == Shelly && data.JObject? && !FieldOr(data.fields, "em:0", JObject(map[])).JObject? ==> r.None?
    // the EcoTracker reading is its `power` value as a number
    ensures kind == EcoTracker && data.JObject? && "power" in data.fields ==> r == Numeric(data.fields["power"])
  {
    match kind
    case Shelly =>
      (match GetField(data, "em:0", JObject(map[]))
       case None => None
       case Some(em) =>
         var a := PhasePower(em, "a_act_power");
         var b := PhasePower(em, "b_act_power");
         var c := PhasePower(em, "c_act_power");
         if a.Some? && b.Some? && c.Some? then Some(a.value + b.value + c.value) else None)
    case EcoTracker =>
      match GetField(data, "power", JInt(0))
      case None => None
      case Some(v) => FloatOf(v)
  }
  /** A Shelly 3EM status body reporting the given phase powers (absent phases are left out). */
  function ShellyBody(phases: map<string, real>): Json {
    JObject(map["em:0" := JObject(map k | k in phases :: JFloat(phases[k]))])
  }

  /** A reported phase power, or 0 W for a phase the body leaves out. */
  function PhaseOr0(phases: map<string, real>, key: string): real {
    if key in phases then phases[key] else 0.0
  }

  /** Decoding a Shelly body gives back the sum of the phase powers it reports. */
  lemma ShellyBodyDecodes(phases: map<string, real>)
    ensures DecodePower(Shelly, ShellyBody(phases)) ==
      Some(PhaseOr0(phases, "a_act_power") + PhaseOr0(phases, "b_act_power") + PhaseOr0(phases, "c_act_power"))
  {
    var em: map<string, Json> := map k | k in phases :: JFloat(phases[k]);
    assert FieldOr(ShellyBody(phases).fields, "em:0", JObject(map[])) == JObject(em);
    assert Numeric(FieldOr(em, "a_act_power", JInt(0))) == Some(PhaseOr0(phases, "a_act_power"));
    assert Numeric(FieldOr(em, "b_act_power", JInt(0))) == Some(PhaseOr0(phases, "b_act_power"));
    assert Numeric(FieldOr(em, "c_act_power", JInt(0))) == Some(PhaseOr0(phases, "c_act_power"));
  }

  /** Decoding an EcoTracker body `{"power": p}` gives back `p`. */
  lemma EcoTrackerBodyDecodes(p: real)
    ensures DecodePower(EcoTracker, JObject(map["power" := JFloat(p)])) == Some(p)
  {
  }


  /** What `poll_current_power` returns. */
  function PollResult(kind: MeterKind, response: Option<Json>): Option<real> {
    match response
    case None => None
    case Some(data) => DecodePower(kind, data)
  }

  /**
   * The bookkeeping after `poll_current_power`: a reading is appended to the
   * history (dropping the oldest beyond three) and clears the failure count;
   * a failure only counts.
   */
  function AfterPoll(s: MeterState, kind: MeterKind, response: Option<Json>, now: real): (t: MeterState)
    ensures PollResult(kind, response).None? ==> t == s.(failures := s.failures + 1)
    ensures PollResult(kind, response).Some? ==>
      t.failures == 0 && t.lastPoll == now && t.lastSuccess == now
    ensures PollResult(kind, response).Some? && |s.history| <= HistoryLength ==>
      |t.history| == Window.Min(|s.history| + 1, HistoryLength)
    ensures PollResult(kind, response).Some? ==>
      |t.history| > 0 && t.history[|t.history| - 1] == Sample(PollResult(kind, response).value, now)
  {
    match PollResult(kind, response)
    case None => s.(failures := s.failures + 1)
    case Some(p) => MeterState(Window.Push(s.history, Sample(p, now), HistoryLength), 0, now, now)
  }

  /** One poll: the response and the time it arrived. */
  datatype Poll = Poll(response: Option<Json>, now: real)

  /** A run of polls, one after the other. */
  function PollAll(s: MeterState, kind: MeterKind, polls: seq<Poll>): MeterState
    decreases |polls|
  {
    if polls == [] then s else PollAll(AfterPoll(s, kind, polls[0].response, polls[0].now), kind, polls[1..])
  }

  /** The samples the successful polls of a run produce. */
  function Readings(kind: MeterKind, polls: seq<Poll>): seq<Sample>
    decreases |polls|
  {
    if polls == [] then []
    else
      var rest := Readings(kind, polls[1..]);
      match PollResult(kind, polls[0].response)
      case None => rest
      case Some(p) => [Sample(p, polls[0].now)] + rest
  }

  /** After any run of polls the history holds exactly the three newest readings, oldest first. */
  lemma {:induction false} HistoryIsNewestReadings(s: MeterState, kind: MeterKind, polls: seq<Poll>)
    requires |s.history| <= HistoryLength
    ensures PollAll(s, kind, polls).history == Window.Newest(s.history + Readings(kind, polls), HistoryLength)
    decreases |polls|
  {
    if polls == [] {
      assert s.history + [] == s.history;
    } else {
      var next := AfterPoll(s, kind, polls[0].response, polls[0].now);
      HistoryIsNewestReadings(next, kind, polls[1..]);
      match PollResult(kind, polls[0].response)
      case None =>
      case Some(p) =>
        var xs := [Sample(p, polls[0].now)] + Readings(kind, polls[1..]);
        assert xs[1..] == Readings(kind, polls[1..]);
        Window.NewestAfterPush(s.history, xs, HistoryLength);
    }
  }

  /** The failure count is the number of failed polls since the last successful one. */
  lemma {:induction false} FailuresCountTrailingFailures(s: MeterState, kind: MeterKind, polls: seq<Poll>)
    ensures Readings(kind, polls) == [] ==> PollAll(s, kind, polls).failures == s.failures + |polls|
    ensures |polls| > 0 && PollResult(kind, polls[|polls| - 1].response).Some? ==> PollAll(s, kind, polls).failures == 0
    decreases |polls|
  {
    if polls != [] {
      var next := AfterPoll(s, kind, polls[0].response, polls[0].now);
      FailuresCountTrailingFailures(next, kind, polls[1..]);
      if |polls| > 1 {
        assert polls[1..][|polls[1..]| - 1] == polls[|polls| - 1];
      }
    }
  }

  // ---------------------------------------------------------------------
  // Weighted average
  // ---------------------------------------------------------------------

  /** The readings' powers, oldest first. */
  function Powers(history: seq<Sample>): (ps: seq<real>)
    ensures |ps| == |history| && forall j :: 0 <= j < |history| ==> ps[j] == history[j].power
  {
    seq(|history|, j requires 0 <= j < |history| => history[j].power)
  }

  /** The sum of the weights 1..n. */
  function TotalWeight(n: nat): nat {
    if n == 0 then 0 else TotalWeight(n - 1) + n
  }

  /** Each power times its 1-based position, summed. */
  function WeightedSum(ps: seq<real>): real {
    if ps == [] then 0.0 else WeightedSum(ps[..|ps| - 1]) + |ps| as real * ps[|ps| - 1]
  }

  /** The mean `get_power` reports: weight i + 1 for the i-th oldest reading. */
  function WeightedAverage(ps: seq<real>): real
    requires |ps| > 0
  {
    assert TotalWeight(|ps|) > 0;
    WeightedSum(ps) / TotalWeight(|ps|) as real
  }

  lemma {:induction false} TotalWeightClosedForm(n: nat)
    ensures 2 * TotalWeight(n) == n * (n + 1)
  {
    if n > 0 {
      TotalWeightClosedForm(n - 1);
    }
  }

  lemma {:induction false} WeightedSumBounds(ps: seq<real>, lo: real, hi: real)
    requires forall j :: 0 <= j < |ps| ==> lo <= ps[j] <= hi
    ensures TotalWeight(|ps|) as real * lo <= WeightedSum(ps) <= TotalWeight(|ps|) as real * hi
  {
    if ps != [] {
      var n := |ps|;
      WeightedSumBounds(ps[..n - 1], lo, hi);
      ScaleBetween(n as real, lo, ps[n - 1], hi);
      assert TotalWeight(n) as real == TotalWeight(n - 1) as real + n as real;
    }
  }

  lemma ScaleBetween(k: real, lo: real, x: real, hi: real)
    requires k >= 0.0 && lo <= x <= hi
    ensures k * lo <= k * x <= k * hi
  {
    assert k * x - k * lo == k * (x - lo);
    assert k * hi - k * x == k * (hi - x);
  }

  /**
   * The weighted average lies between the lowest and the highest reading; in
   * particular a history of equal readings averages to that reading.
   */
  lemma WeightedAverageBetween(ps: seq<real>, lo: real, hi: real)
    requires |ps| > 0
    requires forall j :: 0 <= j < |ps| ==> lo <= ps[j] <= hi
    ensures lo <= WeightedAverage(ps) <= hi
  {
    WeightedSumBounds(ps, lo, hi);
    MeanBetween(WeightedSum(ps), TotalWeight(|ps|) as real, lo, hi);
  }

  /** The single-reading shortcut of `get_power` agrees with the weighted average. */
  lemma WeightedAverageOfOne(p: real)
    ensures WeightedAverage([p]) == p
  {
    assert [p][..0] == [];
    assert WeightedSum([p]) == p;
    assert TotalWeight(1) == 1;
  }

  /** With two readings the newer one counts twice, with three the weights are 1, 2, 3. */
  lemma WeightedAverageWeights(ps: seq<real>)
    requires 2 <= |ps| <= 3
    ensures |ps| == 2 ==> WeightedAverage(ps) == (ps[0] + 2.0 * ps[1]) / 3.0
    ensures |ps| == 3 ==> WeightedAverage(ps) == (ps[0] + 2.0 * ps[1] + 3.0 * ps[2]) / 6.0
  {
    assert ps[..1][..0] == [];
    assert WeightedSum(ps[..1]) == ps[0];
    assert WeightedSum(ps[..2]) == ps[0] + 2.0 * ps[1] by {
      assert ps[..2][..1] == ps[..1];
    }
    assert TotalWeight(2) == 3;
    if |ps| == 2 {
      assert ps[..2] == ps;
    } else {
      assert ps[..3] == ps;
      assert ps[..3][..2] == ps[..2];
      assert TotalWeight(3) == 6;
    }
  }

  /** The weighting loop of `get_power`. */
  method WeightedMean(ps: seq<real>) returns (average: real)
    requires |ps| > 0
    ensures average == WeightedAverage(ps)
  {
    var totalWeight := 0;
    var weightedSum := 0.0;
    var i := 0;
    while i < |ps|
      invariant 0 <= i <= |ps|
      invariant totalWeight == TotalWeight(i)
      invariant weightedSum == WeightedSum(ps[..i])
    {
      assert ps[..i + 1][..i] == ps[..i];
      var weight := i + 1;
      weightedSum := weightedSum + ps[i] * weight as real;
      totalWeight := totalWeight + weight;
      i := i + 1;
    }
    assert ps[..i] == ps;
    average := weightedSum / totalWeight as real;
  }

  // ---------------------------------------------------------------------
  // The client object
  // ---------------------------------------------------------------------

  /** A meter client of either kind. */
  class MeterClient {
    const kind: MeterKind
    var history: seq<Sample>
    var failureCount: nat
    var lastPollTime: real
    var lastSuccess: real

    predicate Valid()
      reads this
    {
      |history| <= HistoryLength
    }

    function Snapshot(): MeterState
      reads this
    {
      MeterState(history, failureCount, lastPollTime, lastSuccess)
    }

    /** A new client: empty history, no failures, last success at creation time. */
    constructor (kind: MeterKind, now: real)
      ensures this.kind == kind && Valid()
      ensures Snapshot() == MeterState([], 0, 0.0, now)
    {
      this.kind := kind;
      history := [];
      failureCount := 0;
      lastPollTime := 0.0;
      lastSuccess := now;
    }

    /** `poll_current_power`: takes one reading and records it. */
    method PollCurrentPower(response: Option<Json>, now: real) returns (power: Option<real>)
      requires Valid()
      modifies this
      ensures Valid()
      ensures power == PollResult(kind, response)
      ensures Snapshot() == AfterPoll(old(Snapshot()), kind, response, now)
    {
      power := PollResult(kind, response);
      if power.None? {
        failureCount := failureCount + 1;
        return;
      }
      history := Window.Push(history, Sample(power.value, now), HistoryLength);
      lastPollTime := now;
      if failureCount > 0 {
        failureCount := 0;
      }
      lastSuccess := now;
    }

    /** `get_current_power_direct`: a plain poll. */
    method GetCurrentPowerDirect(response: Option<Json>, now: real) returns (power: Option<real>)
      requires Valid()
      modifies this
      ensures Valid()
      ensures power == PollResult(kind, response)
      ensures Snapshot() == AfterPoll(old(Snapshot()), kind, response, now)
    {
      power := PollCurrentPower(response, now);
    }

    /**
     * `get_power`: the weighted average of the history; with an empty history
     * it polls once (using `response`) and returns that reading.
     */
    method GetPower(response: Option<Json>, now: real) returns (power: Option<real>)
      requires Valid()
      modifies this
      ensures Valid()
      ensures old(history) == [] ==>
        power == PollResult(kind, response) && Snapshot() == AfterPoll(old(Snapshot()), kind, response, now)
      ensures old(history) != [] ==>
        Snapshot() == old(Snapshot()) && power == Some(WeightedAverage(Powers(old(history))))
    {
      if history == [] {
        power := PollCurrentPower(response, now);
        return;
      }
      if |history| == 1 {
        WeightedAverageOfOne(history[0].power);
        assert Powers(history) == [history[0].power];
        return Some(history[0].power);
      }
      var average := WeightedMean(Powers(history));
      power := Some(average);
    }

    /** `reset_failure_count`. */
    method ResetFailureCount()
      modifies this
      ensures Snapshot() == old(Snapshot()).(failures := 0)
    {
      failureCount := 0;
    }
  }
}
