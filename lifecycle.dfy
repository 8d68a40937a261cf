/**
  A configuration lives through a sequence of the lifecycle steps: the
  registry that owns it calls `Default`, `LoadJSON` and `ApplyEnvVars` one
  after another on the same object. This module runs such a sequence on the
  metric TTL and states what the sequence as a whole guarantees.
 */
module NumpinLifecycle {
  import opened Wrappers
  import opened Numpin

  /** One call on the configuration object. */
  datatype Op =
    | DefaultOp
    | LoadJSONOp(raw: Bytes)
    | ApplyEnvVarsOp(env: EnvSource)

  /** The effect of one call on the metric TTL, and the error it returns. */
  function Perform(ttl: Duration, op: Op, codec: DurationCodec, json: JsonCodec): (s: Step)
    ensures s.outcome == Ok ==> s.metricTTL > 0
    ensures op.DefaultOp? ==> s == Step(DefaultMetricTTL, Ok)
    ensures op.LoadJSONOp? ==> s == LoadJSONStep(ttl, op.raw, codec, json)
    ensures op.ApplyEnvVarsOp? ==> s == ApplyEnvVarsStep(ttl, op.env, codec)
  {
    match op
    case DefaultOp => Step(DefaultMetricTTL, Ok)
    case LoadJSONOp(raw) => LoadJSONStep(ttl, raw, codec, json)
    case ApplyEnvVarsOp(env) => ApplyEnvVarsStep(ttl, env, codec)
  }

  /** A call that replaces the metric TTL by a value that does not depend on the old one. */
  predicate Overwrites(op: Op, codec: DurationCodec, json: JsonCodec) {
    match op
    case DefaultOp => true
    case LoadJSONOp(raw) => json.unmarshal(raw).Some?
    case ApplyEnvVarsOp(env) => !env.fails && MetricTTLField in env.found
  }

  /** The calls in order, starting from `ttl`; the error is that of the last call. */
  function Run(ttl: Duration, ops: seq<Op>, codec: DurationCodec, json: JsonCodec): (s: Step)
    decreases |ops|
  {
    if ops == [] then Step(ttl, Ok)
    else Perform(Run(ttl, ops[..|ops| - 1], codec, json).metricTTL, ops[|ops| - 1], codec, json)
  }

  /** An overwriting call gives the same result whatever the metric TTL before it. */
  lemma OverwriteForgets(t1: Duration, t2: Duration, op: Op, codec: DurationCodec, json: JsonCodec)
    requires Overwrites(op, codec, json)
    ensures Perform(t1, op, codec, json) == Perform(t2, op, codec, json)
  {
  }

  /**
    Everything before an overwriting call is forgotten: the run ends as the
    run of the calls from that one on, started from any value.
   */
  lemma {:induction false} RunFromOverwrite(p: Duration, q: Duration, ops: seq<Op>, i: nat,
                                             codec: DurationCodec, json: JsonCodec)
    requires i < |ops| && Overwrites(ops[i], codec, json)
    ensures Run(p, ops, codec, json) == Run(q, ops[i..], codec, json)
    decreases |ops|
  {
    var n := |ops| - 1;
    if i == n {
      assert ops[i..][..0] == [];
      OverwriteForgets(Run(p, ops[..n], codec, json).metricTTL, q, ops[n], codec, json);
    } else {
      RunFromOverwrite(p, q, ops[..n], i, codec, json);
      assert ops[..n][i..] == ops[i..][..|ops[i..]| - 1];
      assert ops[i..][|ops[i..]| - 1] == ops[n];
    }
  }

  /** Hence a run with an overwriting call in it ends the same from every starting value. */
  lemma {:induction false} RunForgetsInitial(p1: Duration, p2: Duration, ops: seq<Op>, i: nat,
                                             codec: DurationCodec, json: JsonCodec)
    requires i < |ops| && Overwrites(ops[i], codec, json)
    ensures Run(p1, ops, codec, json) == Run(p2, ops, codec, json)
  {
    RunFromOverwrite(p1, 0, ops, i, codec, json);
    RunFromOverwrite(p2, 0, ops, i, codec, json);
  }

  /** A run whose last call returned no error leaves a configuration that validates. */
  lemma RunOkValidates(p: Duration, ops: seq<Op>, codec: DurationCodec, json: JsonCodec)
    requires ops != [] && Run(p, ops, codec, json).outcome == Ok
    ensures ValidateTTL(Run(p, ops, codec, json).metricTTL) == Ok
  {
  }

  /**
    Calls that fail before writing (an undecodable input, a failing
    environment processor) can be dropped from a run without changing the
    value it ends with.
   */
  lemma {:induction false} NonWritingFailuresDrop(p: Duration, ops: seq<Op>, k: nat,
                                                   codec: DurationCodec, json: JsonCodec)
    requires k < |ops|
    requires (ops[k].LoadJSONOp? && json.unmarshal(ops[k].raw).None?)
          || (ops[k].ApplyEnvVarsOp? && ops[k].env.fails)
    ensures Run(p, ops, codec, json).metricTTL == Run(p, ops[..k] + ops[k + 1..], codec, json).metricTTL
    decreases |ops|
  {
    var n := |ops| - 1;
    var dropped := ops[..k] + ops[k + 1..];
    if k == n {
      assert dropped == ops[..n];
    } else {
      NonWritingFailuresDrop(p, ops[..n], k, codec, json);
      assert ops[..n][..k] + ops[..n][k + 1..] == dropped[..|dropped| - 1];
      assert dropped[|dropped| - 1] == ops[n];
    }
  }

  /**
    A configuration defaulted to ten seconds and then overlaid with a metric
    TTL variable of "5m" holds five minutes, given that the parser reads "5m"
    as five minutes.
   */
  lemma DefaultThenEnvScenario(p: Duration, codec: DurationCodec, json: JsonCodec)
    requires codec.parse("5m") == Some(300 * Second)
    ensures Run(p, [DefaultOp, ApplyEnvVarsOp(EnvSource(map[MetricTTLField := "5m"], false))], codec, json)
         == Step(300 * Second, Ok)
  {
  }
}
