# numpin informer configuration, modelled in Dafny

The "numpin" informer of ipfs-cluster reports how many pins a peer holds. Its
configuration (`informer/numpin/config.go`) holds one setting. `MetricTTL` is
how long a reported metric stays valid. It is a Go `time.Duration`, a signed
64-bit count of nanoseconds. The configuration goes through these steps:

- `Default` installs ten seconds.
- `Validate` rejects a metric TTL that is not positive.
- `LoadJSON` decodes `{"metric_ttl": "<duration>"}`. It installs the defaults,
  then stores the parsed duration and validates it.
- `ToJSON` and `toJSONConfig` print the current value back into that shape.
- `ApplyEnvVars` snapshots the current value as JSON and lets the
  environment-variable processor overlay it. It then stores the result the
  same way `LoadJSON` does.

Files:

- `wrappers.dfy`: the `Option` type the library calls return.
- `numpin.dfy`: module `Numpin`. It holds the class `Config` with its
  mutable `metricTTL` field and the methods and functions of `config.go`. It
  also holds one pure step function per lifecycle step (`ApplyJSONConfigStep`,
  `LoadJSONStep`, `ApplyEnvVarsStep`). Each method's `ensures` ties the new
  field value and the returned error to its step function.
- `properties.dfy`: module `NumpinProperties`. It states what each step
  overwrites and what it keeps. It also states the round trips through the
  JSON form and the environment.
- `lifecycle.dfy`: module `NumpinLifecycle`. The registry that owns a
  configuration calls these steps one after another on the same object. The
  module runs such a sequence and proves, by induction, what the sequence
  guarantees as a whole.

The library calls are injected as function-valued parameters:

- `time.ParseDuration` and `Duration.String` are the `parse` and `format`
  fields of `DurationCodec`. `parse` returns `None` on error. Otherwise it
  returns a value that fits in 64 bits, because Go reports an overflow as an
  error.
- `json.Unmarshal` and `config.DefaultJSONMarshal` are the `unmarshal` and
  `marshal` fields of `JsonCodec`.
- `envconfig.Process` is an `EnvSource`. It maps each field name of
  `jsonConfig` to the environment value found for it under the prefix
  `cluster_numpin`, together with a flag saying whether processing fails.

The round trips need facts about these libraries. They appear only as lemma
hypotheses: `DurationRoundTrips` says that parse(format(d)) == d, and
`JsonRoundTrips` says the same of unmarshal and marshal. They are never proved.

Two consequences of the code are worth stating outright:

- An unset variable does not simply leave the value untouched. `ApplyEnvVars`
  prints the current value and parses it back (config.go lines 46, 53 and 80).
  So the value is unchanged only when printing and parsing are inverse. The
  call also returns `Validate` of that value, so a value that is not positive
  gives the validation error. `EnvUnsetKeepsValue` states both facts under
  that hypothesis.
- `envconfig` derives the variable name from the prefix `cluster_numpin`
  (line 13) and the Go field name `MetricTTL`. The model keys the injected map
  by that field name and does not fix the derived variable name.

## Model

| member | source | states |
|---|---|---|
| Numpin.Config.constructor | informer/numpin/config.go:21-25 | a new `Config` holds Go's zero value, a metric TTL of 0 |
| Numpin.Config.ConfigKey | informer/numpin/config.go:33-35 | returns the literal "numpin"; it reads no state, so the key is the same in every state and nothing changes |
| Numpin.Config.Default | informer/numpin/config.go:38-41 | never fails; afterwards the metric TTL is 10 s (10,000,000,000 ns) and `Validate` succeeds |
| Numpin.Config.Validate | informer/numpin/config.go:58-64 | returns an error exactly when the metric TTL is not positive; it reads the state and cannot modify it |
| Numpin.ValidateTTL | informer/numpin/config.go:58-64 | the validation check on a value: no error if and only if the value is positive, and the error is always the invalid-metric-TTL error |
| Numpin.ParseOrZero | informer/numpin/config.go:80 | a duration that parses gives its value; a parse error is dropped and gives 0 |
| Numpin.ApplyJSONConfigStep | informer/numpin/config.go:79-84 | the parsed value is stored whether or not it is valid, and the outcome succeeds exactly when the stored value is positive; an unparsable string stores 0 and fails |
| Numpin.Config.ApplyJSONConfig | informer/numpin/config.go:79-84 | overwrites the field with the parsed value (0 on a parse error) and returns `Validate` of the new state, so an invalid value stays stored after the error |
| Numpin.LoadJSONStep | informer/numpin/config.go:67-77 | a decoding error returns that error and keeps the prior value; after a successful decode the result is the apply step on the decoded value, and the prior value does not appear in it |
| Numpin.Config.LoadJSON | informer/numpin/config.go:67-77 | calls unmarshal, then `Default`, then `ApplyJSONConfig`, with the early return; the new state and error are those of `LoadJSONStep` on the old value, and a decoding error leaves the field unchanged |
| Numpin.JSONConfigFor | informer/numpin/config.go:93-97 | the JSON snapshot of a value; when printing and parsing are inverse, its duration string parses back to that value |
| Numpin.Config.ToJSONConfig | informer/numpin/config.go:93-97 | the snapshot of the current state parses back to the current metric TTL when printing and parsing are inverse |
| Numpin.Config.ToJSON | informer/numpin/config.go:87-91 | bytes written by the marshaller decode back to the current snapshot when the JSON library round-trips |
| Numpin.EnvProcess | informer/numpin/config.go:48 | the overlay fails exactly when the processor fails; a variable that is set replaces the field, and an unset one leaves the snapshot as it is |
| Numpin.ApplyEnvVarsStep | informer/numpin/config.go:45-54 | a processor failure returns before any write; a set variable is applied like a loaded value; without one, the printed current value is applied like a loaded value, so the re-parsed value is stored and its validation returned |
| Numpin.Config.ApplyEnvVars | informer/numpin/config.go:45-54 | snapshot, overlay and re-apply in that order; the new state and error are those of `ApplyEnvVarsStep`, and a processor failure changes nothing |
| NumpinProperties.ApplyStoresBeforeValidating | informer/numpin/config.go:80-83 | the parsed value is stored as is, and a value that is not positive is stored together with the validation error |
| NumpinProperties.UnparsableDurationStoresZero | informer/numpin/config.go:80-83 | a duration string that does not parse, the empty or absent one included, stores 0 and returns the validation error |
| NumpinProperties.LoadUnmarshalFailureKeepsState | informer/numpin/config.go:67-72 | when decoding fails, `LoadJSON` returns that error with the metric TTL unchanged, because neither `Default` nor the apply step runs |
| NumpinProperties.LoadForgetsPrior | informer/numpin/config.go:74-81 | after a successful decode, two configurations with different prior values end identical, because line 81 overwrites both the prior value and the default |
| NumpinProperties.LoadNonPositiveFails | informer/numpin/config.go:67-84 | loading a duration that is zero or negative stores it and fails validation |
| NumpinProperties.FormatInjective | informer/numpin/config.go:93-97 | when printing and parsing are inverse, different metric TTLs give different JSON snapshots |
| NumpinProperties.LoadToJSONRoundTrip | informer/numpin/config.go:66-97 | when both libraries round-trip, loading what `ToJSON` wrote for a valid metric TTL restores that value without error, whatever the prior value |
| NumpinProperties.EnvFailureKeepsState | informer/numpin/config.go:48-51 | an environment-processing failure returns its error before any write |
| NumpinProperties.EnvUnsetKeepsValue | informer/numpin/config.go:45-54 | with no matching variable and printing and parsing inverse, the metric TTL is unchanged and the call returns its validation: no error when it is positive, the validation error otherwise |
| NumpinProperties.EnvSetForgetsPrior | informer/numpin/config.go:45-54 | when the variable is set, the result does not depend on the prior value |
| NumpinProperties.EnvIdempotent | informer/numpin/config.go:45-54 | when printing and parsing are inverse, applying the same environment twice gives the same result as applying it once |
| NumpinLifecycle.Perform | informer/numpin/config.go:38-77 | one call of `Default`, `LoadJSON` or `ApplyEnvVars` as its step function; a call that returns no error leaves a positive metric TTL |
| NumpinLifecycle.OverwriteForgets | informer/numpin/config.go:38-81 | `Default`, a `LoadJSON` whose input decodes, and an `ApplyEnvVars` whose variable is set each give a result that does not depend on the value before the call |
| NumpinLifecycle.RunFromOverwrite | informer/numpin/config.go:38-81 | in any sequence of calls, everything before an overwriting call is forgotten: the sequence ends as the calls from that one on would end from any starting value |
| NumpinLifecycle.RunForgetsInitial | informer/numpin/config.go:74-81 | a sequence of calls that contains an overwriting call ends the same from every starting value |
| NumpinLifecycle.RunOkValidates | informer/numpin/config.go:58-84 | when the last call of a sequence returned no error, the configuration validates |
| NumpinLifecycle.NonWritingFailuresDrop | informer/numpin/config.go:45-72 | a `LoadJSON` whose input does not decode, or an `ApplyEnvVars` whose processor fails, can be removed from a sequence without changing the metric TTL it ends with |
| NumpinLifecycle.DefaultThenEnvScenario | informer/numpin/config.go:38-54 | `Default` followed by `ApplyEnvVars` with the variable set to "5m" ends at five minutes with no error, given that "5m" parses to five minutes |

## Left out

- Go's duration grammar and printer (`time.ParseDuration`, `Duration.String`) are standard-library code outside this model. They are the injected `DurationCodec`, and their inverse relation is a lemma hypothesis, not a proof.
- JSON encoding and decoding (`json.Unmarshal`, `config.DefaultJSONMarshal`) are outside this model. The decoder is reduced to producing the `metric_ttl` string: an absent field decodes to the empty string, and unknown fields are ignored. The byte-level output is not modelled.
- `String()` (lines 99-106) is left out. It marshals the same snapshot as `ToJSON` with a marshaller that drops hidden fields, and `jsonConfig` has none, so it adds nothing beyond `ToJSON`'s byte output, which is not modelled.
- `envconfig.Process` reads process-wide environment state by reflection. It is replaced by the injected `EnvSource`. The exact derivation of the variable name from the prefix and the field name is not modelled.
- The embedded `config.Saver` (line 22) is persistence and change-notification plumbing defined elsewhere, and it is not part of this model.
- Error message texts, including the "disk.metric_ttl is invalid" label, are reduced to the error kinds `UnmarshalError`, `InvalidMetricTTL` and `EnvError`.
- The intermediate write of the default inside `LoadJSON` is not recorded by the step function `LoadJSONStep`, because the parsed value always overwrites it before the call returns. The method `Config.LoadJSON` does perform that write.
