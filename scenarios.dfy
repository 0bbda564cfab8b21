/**
 * Concrete launch requests, worked through the policy: the test cases of the
 * repository whose expectations agree with the validation code.
 */
module Scenarios {
  import opened Wrappers
  import opened Discover
  import opened Validation

  /** A llama model with 32 K and 32 V heads and no pooling type. */
  const Llama: KV := KV(
    "llama",
    map["general.architecture" := String("llama"),
        "llama.attention.key_length" := Uint(32),
        "llama.attention.value_length" := Uint(32)],
    32, 32)

  /** A bert embedding model, marked by `bert.pooling_type`. */
  const Bert: KV := KV(
    "bert",
    map["general.architecture" := String("bert"),
        "bert.attention.key_length" := Uint(32),
        "bert.attention.value_length" := Uint(32),
        "bert.pooling_type" := String("mean")],
    32, 32)

  /** A bert embedding model that declares no head counts at all. */
  const BertWithoutHeadCounts: KV := KV(
    "bert",
    map["general.architecture" := String("bert"),
        "bert.pooling_type" := String("mean")],
    0, 0)

  /** Normal models keep the quantized formats they ask for; embedding models keep f16. */
  lemma ValidateKVCacheTypeCases()
    ensures ValidateKVCacheType("q4_0", false) == ("q4_0", None)
    ensures ValidateKVCacheType("q8_0", false) == ("q8_0", None)
    ensures ValidateKVCacheType("f16", true) == ("f16", None)
    ensures ValidateKVCacheType("invalid", false) == ("", None)
    ensures ValidateKVCacheType("q8_0", true) == ("", None)
  {
  }

  /** A supported llama model on a CUDA device with driver major version 8 gets flash attention. */
  method SupportedModelAndHardware() returns (support: FlashAttentionSupport)
    ensures support == FlashAttentionSupport(true, true, false, true)
  {
    support := ValidateFlashAttentionSupport(Llama, [GpuInfo("cuda", 8)], true);
  }

  /** An embedding model does not, even on capable hardware. */
  method EmbeddingModel() returns (support: FlashAttentionSupport)
    ensures support == FlashAttentionSupport(true, true, true, false)
  {
    assert PoolingTypeKey("bert") == "bert.pooling_type";
    support := ValidateFlashAttentionSupport(Bert, [GpuInfo("cuda", 8)], true);
  }

  /** A CUDA device with driver major version 6 is not capable. */
  method UnsupportedHardware() returns (support: FlashAttentionSupport)
    ensures support == FlashAttentionSupport(true, false, false, false)
  {
    UnqualifiedGpuDisables(Llama, [GpuInfo("cuda", 6)], 0, true);
    support := ValidateFlashAttentionSupport(Llama, [GpuInfo("cuda", 6)], true);
  }

  /** The enabled launch carries `--flash-attn` and the requested quantized cache format. */
  method FlashAttentionEnabledWithValidCacheType() returns (params: seq<string>)
    ensures params == ["--model", "test", "--flash-attn", "--kv-cache-type", "q8_0"]
  {
    var support := ValidateFlashAttentionSupport(Llama, [GpuInfo("cuda", 8)], true);
    params := GetServerParams(support, "q8_0", ["--model", "test"]);
  }

  /** The embedding model's launch keeps exactly the base parameters. */
  method FlashAttentionDisabled() returns (params: seq<string>)
    ensures params == ["--model", "test"]
  {
    assert PoolingTypeKey("bert") == "bert.pooling_type";
    var support := ValidateFlashAttentionSupport(BertWithoutHeadCounts, [GpuInfo("cuda", 8)], true);
    params := GetServerParams(support, "q8_0", ["--model", "test"]);
  }
}
