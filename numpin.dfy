/**
  The configuration object of the "numpin" informer: one setting, the time a
  reported metric stays valid, with the lifecycle steps that set a default,
  validate, load and save the JSON form and overlay environment variables.

  The library code the configuration calls (Go's duration parser and
  printer, the JSON encoder and decoder, the environment-variable processor)
  is not part of this model: each call is an injected function, and the
  facts the proofs need about them are stated as hypotheses.
 */
module Numpin {
  import opened Wrappers

  /** A Go `time.Duration`: a signed 64-bit count of nanoseconds. */
  type Duration = d: int | MinDuration <= d <= MaxDuration

  const MinDuration: int := -0x8000_0000_0000_0000
  const MaxDuration: int := 0x7fff_ffff_ffff_ffff

  const Second: Duration := 1_000_000_000

  /** The key under which the cluster configuration stores this section. */
  const ConfigKeyName: string := "numpin"

  /** The value `Default` installs: ten seconds. */
  const DefaultMetricTTL: Duration := 10 * Second

  type Byte = b: int | 0 <= b < 256

  type Bytes = seq<Byte>

  /** The errors the configuration returns; their message texts are not modelled. */
  datatype Error =
    | UnmarshalError    // the JSON decoder rejected the input
    | InvalidMetricTTL  // Validate found a non-positive metric TTL
    | EnvError          // the environment-variable processor failed

  /** A Go `error` result: nil, or one of the errors above. */
  datatype Outcome = Ok | Fail(error: Error)

  /** The JSON shape: the metric TTL as a duration string under "metric_ttl". */
  datatype JsonConfig = JsonConfig(metricTTL: string)

  /**
    Go's `time.ParseDuration` (None when it returns an error; a Duration
    otherwise, so an overflowing string is an error) and `Duration.String`.
   */
  datatype DurationCodec = DurationCodec(
    parse: string -> Option<Duration>,
    format: Duration -> string)

  /**
    The JSON library: `json.Unmarshal` into a fresh `jsonConfig` (None when it
    returns an error; an absent "metric_ttl" decodes to the empty string) and
    the marshaller used by `ToJSON` (None when it returns an error).
   */
  datatype JsonCodec = JsonCodec(
    unmarshal: Bytes -> Option<JsonConfig>,
    marshal: JsonConfig -> Option<Bytes>)

  /**
    What `envconfig.Process` sees under the prefix "cluster_numpin": for each
    field name of `jsonConfig`, the value of the environment variable that
    names it, when that variable is set; and whether processing fails.
   */
  datatype EnvSource = EnvSource(found: map<string, string>, fails: bool)

  /** The field name of `jsonConfig` that the environment can override. */
  const MetricTTLField: string := "MetricTTL"

  /** The state a lifecycle step leaves and the error it returns. */
  datatype Step = Step(metricTTL: Duration, outcome: Outcome)

  /** Format and parse are inverse: every duration prints to a string that parses back to it. */
  ghost predicate DurationRoundTrips(codec: DurationCodec) {
    forall d: Duration :: codec.parse(codec.format(d)) == Some(d)
  }

  /** Whatever the marshaller produces, the decoder reads back as the same JSON value. */
  ghost predicate JsonRoundTrips(json: JsonCodec) {
    forall j: JsonConfig :: json.marshal(j).Some? ==> json.unmarshal(json.marshal(j).value) == Some(j)
  }

  /** `t, _ := time.ParseDuration(s)`: the parse error is dropped and the zero duration kept. */
  function ParseOrZero(codec: DurationCodec, s: string): (d: Duration)
    ensures codec.parse(s).Some? ==> d == codec.parse(s).value
    ensures codec.parse(s).None? ==> d == 0
  {
    match codec.parse(s)
    case Some(t) => t
    case None => 0
  }

  /** The check `Validate` performs on a metric TTL. */
  function ValidateTTL(ttl: Duration): (o: Outcome)
    ensures o == Ok <==> ttl > 0
    ensures o != Ok ==> o == Fail(InvalidMetricTTL)
  {
    if ttl <= 0 then Fail(InvalidMetricTTL) else Ok
  }

  /** The JSON value `toJSONConfig` builds for a metric TTL. */
  function JSONConfigFor(ttl: Duration, codec: DurationCodec): (j: JsonConfig)
    ensures DurationRoundTrips(codec) ==> codec.parse(j.metricTTL) == Some(ttl)
  {
    JsonConfig(codec.format(ttl))
  }

  /**
    `applyJSONConfig`: the parsed duration (zero when it does not parse) is
    stored first and validated afterwards, so an invalid value stays stored
    when the error is returned.
   */
  function ApplyJSONConfigStep(j: JsonConfig, codec: DurationCodec): (s: Step)
    ensures s.outcome == Ok <==> s.metricTTL > 0
    ensures s.outcome != Ok ==> s.outcome == Fail(InvalidMetricTTL)
    ensures codec.parse(j.metricTTL).None? ==> s == Step(0, Fail(InvalidMetricTTL))
    ensures codec.parse(j.metricTTL).Some? ==> s.metricTTL == codec.parse(j.metricTTL).value
  {
    var t := ParseOrZero(codec, j.metricTTL);
    Step(t, ValidateTTL(t))
  }

  /**
    `LoadJSON`: a decoding error returns before anything is written; otherwise
    the defaults are installed and then overwritten by the decoded value.
   */
  function LoadJSONStep(prior: Duration, raw: Bytes, codec: DurationCodec, json: JsonCodec): (s: Step)
    ensures json.unmarshal(raw).None? ==> s == Step(prior, Fail(UnmarshalError))
    ensures json.unmarshal(raw).Some? ==> s == ApplyJSONConfigStep(json.unmarshal(raw).value, codec)
  {
    match json.unmarshal(raw)
    case None => Step(prior, Fail(UnmarshalError))
    case Some(j) => ApplyJSONConfigStep(j, codec)  // overwrites the default at once
  }

  /** `envconfig.Process`: a variable that is set replaces the field; an unset one leaves it. */
  function EnvProcess(env: EnvSource, j: JsonConfig): (r: Option<JsonConfig>)
    ensures r.None? <==> env.fails
    ensures r.Some? && MetricTTLField in env.found ==> r.value.metricTTL == env.found[MetricTTLField]
    ensures r.Some? && MetricTTLField !in env.found ==> r.value == j
  {
    if env.fails then None
    else if MetricTTLField in env.found then Some(JsonConfig(env.found[MetricTTLField]))
    else Some(j)
  }

  /**
    `ApplyEnvVars`: snapshot the current value as JSON, overlay the
    environment on the snapshot, and apply the result as `LoadJSON` does.
   */
  function ApplyEnvVarsStep(prior: Duration, env: EnvSource, codec: DurationCodec): (s: Step)
    ensures env.fails ==> s == Step(prior, Fail(EnvError))
    ensures !env.fails && MetricTTLField in env.found ==>
              s == ApplyJSONConfigStep(JsonConfig(env.found[MetricTTLField]), codec)
    ensures !env.fails && MetricTTLField !in env.found ==>
              s == ApplyJSONConfigStep(JSONConfigFor(prior, codec), codec)
  {
    match EnvProcess(env, JSONConfigFor(prior, codec))
    case None => Step(prior, Fail(EnvError))
    case Some(j) => ApplyJSONConfigStep(j, codec)
  }

  /** The informer configuration; `config.Saver` is not part of this model. */
  class Config {
    var metricTTL: Duration

    /** `&Config{}`: Go's zero value. */
    constructor ()
      ensures metricTTL == 0
    {
      metricTTL := 0;
    }

    /** The same key whatever the state: the function reads nothing. */
    function ConfigKey(): (k: string)
      ensures k == "numpin"
    {
      ConfigKeyName
    }

    method Default() returns (o: Outcome)
      modifies this
      ensures metricTTL == DefaultMetricTTL && o == Ok
      ensures Validate() == Ok
    {
      metricTTL := DefaultMetricTTL;
      o := Ok;
    }

    function Validate(): (o: Outcome)
      reads this
      ensures o == Ok <==> metricTTL > 0
      ensures o != Ok ==> o == Fail(InvalidMetricTTL)
    {
      ValidateTTL(metricTTL)
    }

    method ApplyJSONConfig(j: JsonConfig, codec: DurationCodec) returns (o: Outcome)
      modifies this
      ensures Step(metricTTL, o) == ApplyJSONConfigStep(j, codec)
      ensures metricTTL == ParseOrZero(codec, j.metricTTL) && o == Validate()
    {
      var t := ParseOrZero(codec, j.metricTTL);
      metricTTL := t;
      o := Validate();
    }

    method LoadJSON(raw: Bytes, codec: DurationCodec, json: JsonCodec) returns (o: Outcome)
      modifies this
      ensures Step(metricTTL, o) == LoadJSONStep(old(metricTTL), raw, codec, json)
      ensures json.unmarshal(raw).None? ==> metricTTL == old(metricTTL) && o == Fail(UnmarshalError)
    {
      var decoded := json.unmarshal(raw);
      if decoded.None? {
        return Fail(UnmarshalError);
      }
      var _ := Default();
      o := ApplyJSONConfig(decoded.value, codec);
    }

    function ToJSONConfig(codec: DurationCodec): (j: JsonConfig)
      reads this
      ensures DurationRoundTrips(codec) ==> codec.parse(j.metricTTL) == Some(metricTTL)
    {
      JSONConfigFor(metricTTL, codec)
    }

    function ToJSON(codec: DurationCodec, json: JsonCodec): (r: Option<Bytes>)
      reads this
      ensures r.Some? && JsonRoundTrips(json) ==> json.unmarshal(r.value) == Some(ToJSONConfig(codec))
    {
      json.marshal(ToJSONConfig(codec))
    }

    method ApplyEnvVars(env: EnvSource, codec: DurationCodec) returns (o: Outcome)
      modifies this
      ensures Step(metricTTL, o) == ApplyEnvVarsStep(old(metricTTL), env, codec)
      ensures env.fails ==> metricTTL == old(metricTTL) && o == Fail(EnvError)
    {
      var jcfg := ToJSONConfig(codec);
      var processed := EnvProcess(env, jcfg);
      if processed.None? {
        return Fail(EnvError);
      }
      o := ApplyJSONConfig(processed.value, codec);
    }
  }
}
