/**
 * The flash-attention and KV-cache launch policy of the model server:
 * whether the accelerated attention path may be enabled for a loaded model on
 * the detected hardware, which KV-cache quantization format may go with it, and
 * the command-line flags the inference worker is launched with.
 */
module Validation {
  import opened Wrappers
  import opened Discover

  // ---------------------------------------------------------------------------
  // Model metadata, as the policy sees it through the KV accessors
  // ---------------------------------------------------------------------------

  /** A metadata value; the policy only ever tests keys for presence. */
  datatype Value = String(s: string) | Uint(n: nat) | Int(i: int) | Bool(b: bool)

  /**
   * The model's metadata: the answers of `Architecture()`,
   * `EmbeddingHeadCountK()` and `EmbeddingHeadCountV()` (0 when the model does
   * not declare a count) and the raw key/value entries used for key lookup.
   */
  datatype KV = KV(
    architecture: string,
    entries: map<string, Value>,
    embeddingHeadCountK: nat,
    embeddingHeadCountV: nat)

  /** The architecture-scoped key whose presence marks an embedding model. */
  function PoolingTypeKey(architecture: string): string
  {
    architecture + ".pooling_type"
  }

  predicate HasPoolingType(kv: KV)
  {
    PoolingTypeKey(kv.architecture) in kv.entries
  }

  /** K and V head counts are both declared and agree. */
  predicate HeadCountsCompatible(kv: KV)
  {
    kv.embeddingHeadCountK != 0 && kv.embeddingHeadCountV != 0 && kv.embeddingHeadCountK == kv.embeddingHeadCountV
  }

  // ---------------------------------------------------------------------------
  // Hardware capability
  // ---------------------------------------------------------------------------

  /** Metal and ROCm always qualify; CUDA needs a driver major version of 7 or later. */
  predicate Qualifies(g: GpuInfo)
  {
    g.library == "metal" || g.library == "rocm" || (g.library == "cuda" && g.driverMajor >= 7)
  }

  predicate AllQualify(gpus: GpuInfoList)
  {
    forall i :: 0 <= i < |gpus| ==> Qualifies(gpus[i])
  }

  // ---------------------------------------------------------------------------
  // The flash attention decision
  // ---------------------------------------------------------------------------

  /** The four facts behind a flash attention verdict, all of them reported. */
  datatype FlashAttentionSupport = FlashAttentionSupport(
    supportedByModel: bool,
    supportedByHardware: bool,
    isEmbeddingModel: bool,
    enabled: bool)

  /** The decision as a function of its three inputs. */
  function Decision(kv: KV, gpus: GpuInfoList, flashAttnRequested: bool): FlashAttentionSupport
  {
    var model := HeadCountsCompatible(kv);
    var hardware := AllQualify(gpus);
    var embedding := HasPoolingType(kv);
    FlashAttentionSupport(model, hardware, embedding, flashAttnRequested && model && hardware && !embedding)
  }

  /**
   * Inspects the model and every GPU and combines the findings with the
   * caller's request. The hardware check stops at the first GPU that does not
   * qualify.
   */
  method ValidateFlashAttentionSupport(kv: KV, gpus: GpuInfoList, flashAttnRequested: bool)
    returns (support: FlashAttentionSupport)
    ensures support.isEmbeddingModel <==> kv.architecture + ".pooling_type" in kv.entries
    ensures support.supportedByModel <==> kv.embeddingHeadCountK == kv.embeddingHeadCountV > 0
    ensures support.supportedByHardware <==> forall g :: g in gpus ==> Qualifies(g)
    ensures support.enabled <==>
      flashAttnRequested && support.supportedByModel && support.supportedByHardware && !support.isEmbeddingModel
    ensures support == Decision(kv, gpus, flashAttnRequested)
  {
    var isEmbeddingModel := false;
    if PoolingTypeKey(kv.architecture) in kv.entries {
      isEmbeddingModel := true;
    }

    var headCountK := kv.embeddingHeadCountK;
    var headCountV := kv.embeddingHeadCountV;
    var modelSupported := headCountK != 0 && headCountV != 0 && headCountK == headCountV;

    var hardwareSupported := true;
    for i := 0 to |gpus|
      invariant hardwareSupported
      invariant forall j :: 0 <= j < i ==> Qualifies(gpus[j])
    {
      var g := gpus[i];
      if g.library != "metal" && (g.library != "cuda" || g.driverMajor < 7) && g.library != "rocm" {
        assert g in gpus && !Qualifies(g);
        hardwareSupported := false;
        break;
      }
    }

    var enabled := flashAttnRequested && modelSupported && hardwareSupported && !isEmbeddingModel;
    support := FlashAttentionSupport(modelSupported, hardwareSupported, isEmbeddingModel, enabled);
  }

  /** An embedding model is never launched with flash attention, whatever else holds. */
  lemma EmbeddingModelNeverEnabled(kv: KV, gpus: GpuInfoList, flashAttnRequested: bool)
    requires HasPoolingType(kv)
    ensures Decision(kv, gpus, flashAttnRequested).isEmbeddingModel
    ensures !Decision(kv, gpus, flashAttnRequested).enabled
  {
  }

  /**
   * With the architecture name and the head counts held fixed, only the
   * presence of the pooling-type key matters among the raw entries.
   */
  lemma OnlyPoolingKeyPresenceMatters(kv: KV, entries: map<string, Value>, gpus: GpuInfoList, flashAttnRequested: bool)
    requires PoolingTypeKey(kv.architecture) in kv.entries <==> PoolingTypeKey(kv.architecture) in entries
    ensures Decision(kv.(entries := entries), gpus, flashAttnRequested) == Decision(kv, gpus, flashAttnRequested)
  {
  }

  /** The value stored under the pooling-type key does not affect the decision. */
  lemma PoolingTypeValueIrrelevant(kv: KV, value: Value, gpus: GpuInfoList, flashAttnRequested: bool)
    requires HasPoolingType(kv)
    ensures Decision(kv.(entries := kv.entries[PoolingTypeKey(kv.architecture) := value]), gpus, flashAttnRequested)
      == Decision(kv, gpus, flashAttnRequested)
  {
  }

  /** A missing head count, or K and V counts that differ, rule out flash attention. */
  lemma HeadCountMismatchDisables(kv: KV, gpus: GpuInfoList, flashAttnRequested: bool)
    requires kv.embeddingHeadCountK == 0 || kv.embeddingHeadCountV == 0 || kv.embeddingHeadCountK != kv.embeddingHeadCountV
    ensures !Decision(kv, gpus, flashAttnRequested).supportedByModel
    ensures !Decision(kv, gpus, flashAttnRequested).enabled
  {
  }

  /** A CUDA device qualifies exactly when its driver major version is 7 or later. */
  lemma CudaNeedsDriverMajor7(driverMajor: int)
    ensures Qualifies(GpuInfo("cuda", driverMajor)) <==> driverMajor >= 7
  {
  }

  /** Any library other than Metal, ROCm and CUDA never qualifies. */
  lemma OtherLibrariesNeverQualify(g: GpuInfo)
    requires g.library != "metal" && g.library != "rocm" && g.library != "cuda"
    ensures !Qualifies(g)
  {
  }

  /** An empty device list is vacuously supported. */
  lemma NoGpusSupported(kv: KV, flashAttnRequested: bool)
    ensures Decision(kv, [], flashAttnRequested).supportedByHardware
    ensures Decision(kv, [], flashAttnRequested).enabled <==>
      flashAttnRequested && HeadCountsCompatible(kv) && !HasPoolingType(kv)
  {
  }

  /** One device that does not qualify fails the whole hardware check. */
  lemma UnqualifiedGpuDisables(kv: KV, gpus: GpuInfoList, i: nat, flashAttnRequested: bool)
    requires i < |gpus| && !Qualifies(gpus[i])
    ensures !Decision(kv, gpus, flashAttnRequested).supportedByHardware
    ensures !Decision(kv, gpus, flashAttnRequested).enabled
  {
  }

  /** The hardware check over two device lists joined is the conjunction of the two checks. */
  lemma AllQualifyAppend(a: GpuInfoList, b: GpuInfoList)
    ensures AllQualify(a + b) <==> AllQualify(a) && AllQualify(b)
  {
    if AllQualify(a + b) {
      forall i | 0 <= i < |a| ensures Qualifies(a[i]) {
        assert (a + b)[i] == a[i];
      }
      forall i | 0 <= i < |b| ensures Qualifies(b[i]) {
        assert (a + b)[|a| + i] == b[i];
      }
    }
  }

  /**
   * Adding devices can only withdraw hardware support: a verdict of "enabled"
   * for some devices stays "enabled" for any list drawn from those devices.
   */
  lemma FewerGpusKeepEnabled(kv: KV, gpus: GpuInfoList, subset: GpuInfoList, flashAttnRequested: bool)
    requires forall g :: g in subset ==> g in gpus
    ensures Decision(kv, gpus, flashAttnRequested).supportedByHardware ==> Decision(kv, subset, flashAttnRequested).supportedByHardware
    ensures Decision(kv, gpus, flashAttnRequested).enabled ==> Decision(kv, subset, flashAttnRequested).enabled
  {
    if AllQualify(gpus) {
      forall i | 0 <= i < |subset| ensures Qualifies(subset[i]) {
        assert subset[i] in gpus;
        var j :| 0 <= j < |gpus| && gpus[j] == subset[i];
      }
    }
  }

  /**
   * Neither the order of the device list nor how often a device is repeated
   * affects the decision: lists with the same devices decide alike.
   */
  lemma GpuOrderIrrelevant(kv: KV, gpus: GpuInfoList, reordered: GpuInfoList, flashAttnRequested: bool)
    requires forall g :: g in gpus <==> g in reordered
    ensures Decision(kv, reordered, flashAttnRequested) == Decision(kv, gpus, flashAttnRequested)
  {
    FewerGpusKeepEnabled(kv, gpus, reordered, flashAttnRequested);
    FewerGpusKeepEnabled(kv, reordered, gpus, flashAttnRequested);
  }

  // ---------------------------------------------------------------------------
  // KV cache type validation
  // ---------------------------------------------------------------------------

  /** Every cache format the worker understands. */
  const ValidKVCacheTypes: seq<string> := ["f32", "f16", "q8_0", "q5_1", "q5_0", "iq4_nl", "q4_1", "q4_0"]

  /** The quantized formats among them, which need flash attention. */
  const QuantizedKVCacheTypes: seq<string> := ["q8_0", "q5_1", "q5_0", "iq4_nl", "q4_1", "q4_0"]

  /** The formats a model class may use: embedding models only the unquantized ones. */
  function AllowedKVCacheTypes(isEmbeddingModel: bool): set<string>
  {
    if isEmbeddingModel then {"f16", "f32"} else set t | t in ValidKVCacheTypes
  }

  /** Go's `error`; the validator never produces one. */
  datatype Error = Error(message: string)

  /**
   * The cache format to use for a requested one: the request itself when it is
   * legal for the model class, otherwise "" (the worker's default). An empty
   * request stays empty. The error result is always nil.
   */
  function ValidateKVCacheType(cacheType: string, isEmbeddingModel: bool): (r: (string, Option<Error>))
    ensures r.1 == None
    ensures r.0 == if cacheType in AllowedKVCacheTypes(isEmbeddingModel) then cacheType else ""
  {
    if cacheType == "" then
      ("", None)
    else if cacheType !in ValidKVCacheTypes then
      ("", None)
    else if isEmbeddingModel && cacheType != "f16" && cacheType != "f32" then
      ("", None)
    else
      (cacheType, None)
  }

  /** Empty, unknown and (for embedding models) quantized requests all fall back to the default. */
  lemma RejectedRequestsFallBack(cacheType: string, isEmbeddingModel: bool)
    requires cacheType == "" || cacheType !in ValidKVCacheTypes || (isEmbeddingModel && cacheType in QuantizedKVCacheTypes)
    ensures ValidateKVCacheType(cacheType, isEmbeddingModel) == ("", None)
  {
  }

  /** A legal request is echoed back; only f16 and f32 are legal for embedding models. */
  lemma LegalRequestsEchoed(cacheType: string, isEmbeddingModel: bool)
    requires cacheType in ValidKVCacheTypes
    requires isEmbeddingModel ==> cacheType == "f16" || cacheType == "f32"
    ensures ValidateKVCacheType(cacheType, isEmbeddingModel) == (cacheType, None)
  {
  }

  /** The validator only ever answers with a known format or the empty default. */
  lemma ValidatedTypeInRange(cacheType: string, isEmbeddingModel: bool)
    ensures var v := ValidateKVCacheType(cacheType, isEmbeddingModel).0;
      v == "" || v in ValidKVCacheTypes
    ensures isEmbeddingModel ==> ValidateKVCacheType(cacheType, isEmbeddingModel).0 in {"", "f16", "f32"}
  {
  }

  /** Validating an already validated format gives it back again. */
  lemma ValidateKVCacheTypeIdempotent(cacheType: string, isEmbeddingModel: bool)
    ensures var v := ValidateKVCacheType(cacheType, isEmbeddingModel).0;
      ValidateKVCacheType(v, isEmbeddingModel) == (v, None)
  {
  }

  /** Whatever an embedding model may use, any other model may use too. */
  lemma EmbeddingModelsStricter(cacheType: string)
    ensures ValidateKVCacheType(cacheType, true).0 != "" ==>
      ValidateKVCacheType(cacheType, false) == ValidateKVCacheType(cacheType, true)
  {
  }

  /** The known formats are exactly the two unquantized ones followed by the quantized ones. */
  lemma KVCacheTypesPartition()
    ensures ValidKVCacheTypes == ["f32", "f16"] + QuantizedKVCacheTypes
    ensures forall t :: t in QuantizedKVCacheTypes ==> t !in AllowedKVCacheTypes(true) && t in AllowedKVCacheTypes(false)
  {
  }

  // ---------------------------------------------------------------------------
  // Launch parameters
  // ---------------------------------------------------------------------------

  /** The flags the policy appends after the caller's base parameters. */
  function LaunchFlags(flashAttn: FlashAttentionSupport, kvCacheType: string): seq<string>
  {
    if !flashAttn.enabled then
      []
    else
      var validatedType := ValidateKVCacheType(kvCacheType, flashAttn.isEmbeddingModel).0;
      ["--flash-attn"] + if validatedType != "" then ["--kv-cache-type", validatedType] else []
  }

  /**
   * The shape of what is appended: nothing when flash attention is disabled;
   * otherwise `--flash-attn`, followed by `--kv-cache-type <format>` exactly
   * when the requested format is legal for the model class.
   */
  lemma LaunchFlagsShape(flashAttn: FlashAttentionSupport, kvCacheType: string)
    ensures var flags := LaunchFlags(flashAttn, kvCacheType);
      && (flags == [] <==> !flashAttn.enabled)
      && (flashAttn.enabled ==> flags[0] == "--flash-attn")
      && (|flags| == 0 || |flags| == 1 || |flags| == 3)
      && (|flags| == 3 <==> flashAttn.enabled && kvCacheType in AllowedKVCacheTypes(flashAttn.isEmbeddingModel))
      && (|flags| == 3 ==> flags[1..] == ["--kv-cache-type", kvCacheType])
  {
  }

  /** The policy emits no token other than its two flags and a known format. */
  lemma LaunchFlagsTokens(flashAttn: FlashAttentionSupport, kvCacheType: string)
    ensures forall t :: t in LaunchFlags(flashAttn, kvCacheType) ==>
      t == "--flash-attn" || t == "--kv-cache-type" || t in ValidKVCacheTypes
  {
  }

  /** With flash attention disabled the requested cache format has no effect. */
  lemma DisabledIgnoresCacheType(flashAttn: FlashAttentionSupport, kvCacheType: string, otherCacheType: string)
    requires !flashAttn.enabled
    ensures LaunchFlags(flashAttn, kvCacheType) == LaunchFlags(flashAttn, otherCacheType) == []
  {
  }

  /** An embedding model is launched with exactly its base parameters. */
  lemma EmbeddingModelKeepsBaseParams(kv: KV, gpus: GpuInfoList, flashAttnRequested: bool, kvCacheType: string)
    requires HasPoolingType(kv)
    ensures LaunchFlags(Decision(kv, gpus, flashAttnRequested), kvCacheType) == []
  {
  }

  /**
   * Copies the base parameters and, when flash attention is enabled, appends
   * `--flash-attn` and then `--kv-cache-type <format>` for a legal format.
   */
  method GetServerParams(flashAttn: FlashAttentionSupport, kvCacheType: string, baseParams: seq<string>)
    returns (params: seq<string>)
    ensures |params| >= |baseParams| && params[..|baseParams|] == baseParams
    ensures params == baseParams + LaunchFlags(flashAttn, kvCacheType)
  {
    params := baseParams;
    if flashAttn.enabled {
      params := params + ["--flash-attn"];
      var (validatedType, _) := ValidateKVCacheType(kvCacheType, flashAttn.isEmbeddingModel);
      if validatedType != "" {
        params := params + ["--kv-cache-type", validatedType];
      }
    }
  }
}
