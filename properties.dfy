/**
  What the lifecycle steps of the numpin configuration guarantee: what each
  step overwrites, what it leaves alone, and the round trips through the JSON
  form and the environment that hold when the library's printers and parsers
  are inverse.
 */
module NumpinProperties {
  import opened Wrappers
  import opened Numpin

  /**
    `applyJSONConfig` stores whatever was parsed, valid or not, and returns
    the validation of the stored value.
   */
  lemma ApplyStoresBeforeValidating(j: JsonConfig, codec: DurationCodec, d: Duration)
    requires codec.parse(j.metricTTL) == Some(d)
    ensures ApplyJSONConfigStep(j, codec) == Step(d, ValidateTTL(d))
    ensures d <= 0 ==> ApplyJSONConfigStep(j, codec) == Step(d, Fail(InvalidMetricTTL))
  {
  }

  /** A duration string that does not parse, the empty one included, stores zero and fails validation. */
  lemma UnparsableDurationStoresZero(j: JsonConfig, codec: DurationCodec)
    requires codec.parse(j.metricTTL).None?
    ensures ApplyJSONConfigStep(j, codec) == Step(0, Fail(InvalidMetricTTL))
  {
  }

  /** A decoding error leaves the stored value as it was. */
  lemma LoadUnmarshalFailureKeepsState(prior: Duration, raw: Bytes, codec: DurationCodec, json: JsonCodec)
    requires json.unmarshal(raw).None?
    ensures LoadJSONStep(prior, raw, codec, json) == Step(prior, Fail(UnmarshalError))
  {
  }

  /** Once the input decodes, what `LoadJSON` leaves does not depend on what was there before. */
  lemma LoadForgetsPrior(p1: Duration, p2: Duration, raw: Bytes, codec: DurationCodec, json: JsonCodec)
    requires json.unmarshal(raw).Some?
    ensures LoadJSONStep(p1, raw, codec, json) == LoadJSONStep(p2, raw, codec, json)
  {
  }

  /** A loaded value that is not positive is stored and reported as invalid. */
  lemma LoadNonPositiveFails(prior: Duration, raw: Bytes, codec: DurationCodec, json: JsonCodec, d: Duration)
    requires json.unmarshal(raw).Some? && codec.parse(json.unmarshal(raw).value.metricTTL) == Some(d)
    requires d <= 0
    ensures LoadJSONStep(prior, raw, codec, json) == Step(d, Fail(InvalidMetricTTL))
  {
  }

  /**
    Two durations that print alike are equal, so `toJSONConfig` tells apart
    configurations with different metric TTLs.
   */
  lemma FormatInjective(codec: DurationCodec)
    requires DurationRoundTrips(codec)
    ensures forall a: Duration, b: Duration :: codec.format(a) == codec.format(b) ==> a == b
  {
  }

  /**
    Round trip: loading what `ToJSON` wrote for a valid metric TTL restores it
    and succeeds, whatever the configuration held before.
   */
  lemma LoadToJSONRoundTrip(prior: Duration, ttl: Duration, codec: DurationCodec, json: JsonCodec)
    requires DurationRoundTrips(codec) && JsonRoundTrips(json)
    requires ttl > 0
    requires json.marshal(JSONConfigFor(ttl, codec)).Some?
    ensures LoadJSONStep(prior, json.marshal(JSONConfigFor(ttl, codec)).value, codec, json) == Step(ttl, Ok)
  {
  }

  /** A failing environment processor returns before anything is written. */
  lemma EnvFailureKeepsState(prior: Duration, env: EnvSource, codec: DurationCodec)
    requires env.fails
    ensures ApplyEnvVarsStep(prior, env, codec) == Step(prior, Fail(EnvError))
  {
  }

  /**
    With no matching variable, the metric TTL survives the snapshot and
    re-apply unchanged, and the call returns its validation: no error for a
    valid value, the validation error for one that is not positive.
   */
  lemma EnvUnsetKeepsValue(prior: Duration, env: EnvSource, codec: DurationCodec)
    requires DurationRoundTrips(codec)
    requires !env.fails && MetricTTLField !in env.found
    ensures ApplyEnvVarsStep(prior, env, codec) == Step(prior, ValidateTTL(prior))
    ensures prior > 0 ==> ApplyEnvVarsStep(prior, env, codec) == Step(prior, Ok)
  {
  }

  /** A variable that is set decides the result alone: the prior value does not matter. */
  lemma EnvSetForgetsPrior(p1: Duration, p2: Duration, env: EnvSource, codec: DurationCodec)
    requires !env.fails && MetricTTLField in env.found
    ensures ApplyEnvVarsStep(p1, env, codec) == ApplyEnvVarsStep(p2, env, codec)
  {
  }

  /** Applying the same environment twice gives what applying it once gives. */
  lemma EnvIdempotent(prior: Duration, env: EnvSource, codec: DurationCodec)
    requires DurationRoundTrips(codec)
    ensures ApplyEnvVarsStep(ApplyEnvVarsStep(prior, env, codec).metricTTL, env, codec)
         == ApplyEnvVarsStep(prior, env, codec)
  {
  }
}
