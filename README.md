# Flash attention and KV-cache launch policy

A Dafny model of the launch policy in `llm/validation.go`. A model server
consults this policy before it starts an inference worker. It decides three
things:

- whether the accelerated attention path ("flash attention") may be enabled for
  the loaded model on the detected GPUs;
- which KV-cache format may go with it;
- which flags the worker is launched with.

Files:

- `wrappers.dfy`: `Option`, standing in for Go's nilable `error`.
- `discover.dfy`: the GPU descriptor `GpuInfo {library, driverMajor}` and the
  device list. GPU enumeration itself is not part of this model.
- `validation.dfy`: the policy, in module `Validation`.
  - Model metadata (`KV`) is abstracted to what the policy reads:
    - the architecture name;
    - the key/value entries, used only for the `<arch>.pooling_type` presence test;
    - the two embedding head counts, 0 when the model declares none.
  - `ValidateFlashAttentionSupport` is a method. Its hardware check is the
    source's loop, which stops at the first unqualified GPU. The method is
    proved equal to the quantified specification `Decision`.
  - `ValidateKVCacheType` is a function over the closed format set
    `ValidKVCacheTypes`. It returns the Go `(string, error)` pair as a tuple.
  - `GetServerParams` is a method that copies the base parameters and appends
    to them. It is proved to return the base parameters followed by
    `LaunchFlags`.
- `scenarios.dfy`: the repository's test cases whose expectations agree with
  the code. They are written as client methods and a lemma.

Where the repository's tests and the code disagree, the model follows the code:

- For an invalid format, and for a quantized format requested for an embedding
  model, `llm/validation_test.go:46` and `:53` expect an `"f16"` fallback. The
  code returns `""` (`llm/validation.go:80`, `:87`). The model returns `""`.
- The flash-attention tests compare the result record to a bool, and the
  server-parameter tests call `GetServerParams` with five arguments. The model
  uses the code's signatures: the four-field record, and three arguments.

## Model

| member | source | states |
|---|---|---|
| `Validation.ValidateFlashAttentionSupport` | llm/validation.go:19-67 | embedding iff the key `<arch>.pooling_type` is present; model support iff the K and V head counts are equal and non-zero; hardware support iff every listed GPU qualifies (the early-exit loop agrees with the quantified check); enabled iff requested, model- and hardware-supported and not embedding; the result equals `Decision` |
| `Validation.EmbeddingModelNeverEnabled` | llm/validation.go:20-58 | a model with a pooling-type key is reported as embedding and is never enabled, whatever the GPUs and the request |
| `Validation.OnlyPoolingKeyPresenceMatters` | llm/validation.go:20-23 | with the architecture name and the head counts held fixed, replacing the raw entries by any others that agree on whether the pooling-type key is present leaves the decision unchanged |
| `Validation.PoolingTypeValueIrrelevant` | llm/validation.go:20-23 | when the pooling-type key is present, storing any other value under it leaves the decision unchanged |
| `Validation.HeadCountMismatchDisables` | llm/validation.go:26-28 | a missing (zero) head count or a K/V mismatch means no model support and no flash attention |
| `Validation.CudaNeedsDriverMajor7` | llm/validation.go:43-44 | a CUDA device qualifies exactly when its `DriverMajor` is at least 7 |
| `Validation.OtherLibrariesNeverQualify` | llm/validation.go:44 | a device whose library is not metal, rocm or cuda never qualifies |
| `Validation.NoGpusSupported` | llm/validation.go:41-51 | an empty GPU list counts as hardware-supported, so the verdict then rests on the request and the model alone |
| `Validation.UnqualifiedGpuDisables` | llm/validation.go:41-51 | one non-qualifying GPU anywhere in the list fails the hardware check and disables flash attention |
| `Validation.AllQualifyAppend` | llm/validation.go:41-48 | the hardware check on two lists joined together is the conjunction of the checks on each list |
| `Validation.FewerGpusKeepEnabled` | llm/validation.go:41-51 | adding GPUs can only withdraw support: a list drawn from supported (or enabled) GPUs is supported (or enabled) too |
| `Validation.GpuOrderIrrelevant` | llm/validation.go:41-51 | two GPU lists holding the same devices, in any order and with any repetition, give the same decision |
| `Validation.ValidateKVCacheType` | llm/validation.go:73-91 | the error result is always nil; the format returned is the request when it is legal for the model class (any known format, or only f16/f32 for embedding models), otherwise `""` |
| `Validation.RejectedRequestsFallBack` | llm/validation.go:73-88 | an empty request, an unknown format, or a quantized format for an embedding model all yield `("", nil)` |
| `Validation.LegalRequestsEchoed` | llm/validation.go:78-90 | a known format is echoed back unchanged when the model is not an embedding model, or when the format is f16 or f32 |
| `Validation.ValidatedTypeInRange` | llm/validation.go:70-90 | the output is always `""` or one of the known formats, and for embedding models it is one of `""`, f16, f32 |
| `Validation.ValidateKVCacheTypeIdempotent` | llm/validation.go:73-90 | validating the validator's output again returns it unchanged |
| `Validation.EmbeddingModelsStricter` | llm/validation.go:83-90 | a format accepted for an embedding model is accepted, unchanged, for a non-embedding model |
| `Validation.KVCacheTypesPartition` | llm/validation.go:116 | the known formats are f32, f16 and then the quantized formats; each quantized format is legal for normal models and illegal for embedding models |
| `Validation.LaunchFlagsShape` | llm/validation.go:102-113 | nothing is appended when flash attention is disabled; otherwise `--flash-attn` comes first, then `--kv-cache-type <format>` exactly when the requested format is legal, so 0, 1 or 3 tokens are appended |
| `Validation.LaunchFlagsTokens` | llm/validation.go:105-111 | every appended token is `--flash-attn`, `--kv-cache-type` or a known cache format |
| `Validation.DisabledIgnoresCacheType` | llm/validation.go:114-124 | when flash attention is disabled, the requested cache format has no effect and nothing is appended |
| `Validation.EmbeddingModelKeepsBaseParams` | llm/validation.go:51-113 | for an embedding model, the decision followed by assembly appends nothing to the base parameters |
| `Validation.GetServerParams` | llm/validation.go:102-125 | the result starts with the base parameters verbatim and in order, followed by exactly `LaunchFlags` |
| `Scenarios.ValidateKVCacheTypeCases` | llm/validation_test.go:28-62 | q4_0 and q8_0 are kept for a normal model and f16 for an embedding model; "invalid", and q8_0 for an embedding model, yield `""` (the code's answer; the test file expects f16 for those two cases) |
| `Scenarios.SupportedModelAndHardware` | llm/validation_test.go:86-98 | llama with K=V=32 on CUDA 8, requested: every fact holds and flash attention is enabled |
| `Scenarios.EmbeddingModel` | llm/validation_test.go:99-112 | bert with a pooling type, on the same hardware: reported as embedding and not enabled |
| `Scenarios.UnsupportedHardware` | llm/validation_test.go:113-125 | llama on CUDA 6: not hardware-supported, not enabled |
| `Scenarios.FlashAttentionEnabledWithValidCacheType` | llm/validation_test.go:147-159 | the full pipeline yields `--model test --flash-attn --kv-cache-type q8_0` |
| `Scenarios.FlashAttentionDisabled` | llm/validation_test.go:160-171 | for the bert embedding model the full pipeline yields the base parameters `--model test` unchanged |

## Left out

- Logging (`slog` calls): diagnostic only; no returned value depends on it.
- The warning in the disabled branch of `GetServerParams` (a quantized format
  requested without flash attention): it only logs, so the model adds nothing
  for it. Its list of quantized formats appears as `QuantizedKVCacheTypes`, and
  only lemmas use it.
- The `KV` type and its accessors `Architecture()`, `EmbeddingHeadCountK()` and
  `EmbeddingHeadCountV()`: they are defined outside `llm/validation.go` and are
  not part of this model. The model takes their answers as fields of `KV`. How
  an architecture name or a head count is derived from the raw entries is not
  modelled. In the program all of them come from the same map, so the
  architecture name and the head counts are held fixed in the lemmas about the
  entries.
- The `GGMLModel` interface (llm/validation.go:14-16): `ValidateFlashAttentionSupport`
  takes one `KV` value instead of the interface, whose `KV()` method the source
  calls four times (llm/validation.go:21, 26, 27). The model assumes that every
  call returns the same metadata and that the interface value is not nil (a nil
  one makes the call at llm/validation.go:21 panic).
- Metadata values: only string, unsigned, signed and boolean values are
  represented. The policy only tests keys for presence, so the kind of value
  does not matter.
- `ValidKVCacheTypes` is an exported package variable in the source
  (llm/validation.go:70) that another package could reassign. The model makes it
  a constant and assumes the list is never reassigned.
- The `discover` package's GPU enumeration: the device list is an input, and
  it keeps only the library and the driver major version.
- `slices.Clone`: the parameter lists are Dafny sequences, which are values.
  The caller's base parameters cannot be changed, so the clone has nothing to
  model. Aliasing of Go slice backing arrays is not modelled.
- Head counts are unbounded naturals rather than 64-bit unsigned integers: the
  policy only compares them, so the width does not matter.
