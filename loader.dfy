/** Deferred weight materialization for the video transformer: the architecture is
    allocated with empty (meta) weights, then each named parameter is filled from a
    state dict at the precision the mixed-precision policy chooses for its name, and
    finally tagged with its original name. */
module Loader {
  import opened Wrappers
  import opened Config

  datatype LoadError = MissingParameter(name: string)

  /** `kw` occurs in `s` starting at index i. */
  predicate OccursAt(kw: string, s: string, i: int) {
    0 <= i && i + |kw| <= |s| && s[i..i + |kw|] == kw
  }

  /** Python's substring test `kw in s`. */
  predicate IsSubstring(kw: string, s: string) {
    OccursFrom(kw, s, 0)
  }

  /** The left-to-right scan for `kw` in `s`, from index i on. */
  predicate OccursFrom(kw: string, s: string, i: nat)
    decreases |s| - i
  {
    i + |kw| <= |s| && (s[i..i + |kw|] == kw || OccursFrom(kw, s, i + 1))
  }

  /** The scan from i finds `kw` exactly when it occurs at some index from i on. */
  lemma {:induction false} OccursFromIff(kw: string, s: string, i: nat)
    ensures OccursFrom(kw, s, i) <==> exists j :: i <= j && OccursAt(kw, s, j)
    decreases |s| - i
  {
    if i + |kw| <= |s| {
      if s[i..i + |kw|] == kw {
        assert OccursAt(kw, s, i);
      } else {
        OccursFromIff(kw, s, i + 1);
        forall j | i <= j && OccursAt(kw, s, j) ensures i + 1 <= j {
        }
      }
    }
  }

  /** The scan finds `kw` exactly when it occurs somewhere in `s`. */
  lemma IsSubstringIff(kw: string, s: string)
    ensures IsSubstring(kw, s) <==> exists i :: OccursAt(kw, s, i)
  {
    OccursFromIff(kw, s, 0);
  }

  /** Parameter-name fragments whose parameters stay at the base precision. */
  const ParamsToKeep: set<string> := {"norm", "bias", "time_in", "vector_in", "guidance_in", "txt_in", "img_in"}

  /** `any(keyword in name for keyword in params_to_keep)`. */
  predicate KeepsBaseDtype(name: string) {
    exists kw :: kw in ParamsToKeep && IsSubstring(kw, name)
  }

  /** The mixed-precision policy: the base dtype for a parameter whose name contains a
      fragment of `ParamsToKeep`, the transformer dtype for every other parameter. */
  function DTypeFor(name: string, base: DType, transformerDtype: DType): (d: DType)
    ensures (exists kw, i :: kw in ParamsToKeep && OccursAt(kw, name, i)) ==> d == base
    ensures (forall kw, i :: kw in ParamsToKeep ==> !OccursAt(kw, name, i)) ==> d == transformerDtype
  {
    KeepsBaseDtypeIff(name);
    if KeepsBaseDtype(name) then base else transformerDtype
  }

  lemma KeepsBaseDtypeIff(name: string)
    ensures KeepsBaseDtype(name) <==> exists kw, i :: kw in ParamsToKeep && OccursAt(kw, name, i)
  {
    forall kw | kw in ParamsToKeep {
      IsSubstringIff(kw, name);
    }
  }

  /** A normalization weight keeps the base dtype; a linear weight is stored at the
      transformer dtype. */
  lemma DTypeForExamples(base: DType, transformerDtype: DType)
    ensures DTypeFor("double_blocks.0.norm.weight", base, transformerDtype) == base
    ensures DTypeFor("double_blocks.0.linear.weight", base, transformerDtype) == transformerDtype
  {
    assert OccursAt("norm", "double_blocks.0.norm.weight", 16);
    forall kw, i | kw in ParamsToKeep ensures !OccursAt(kw, "double_blocks.0.linear.weight", i) {
      NoFragmentInLinearWeight(kw, i);
    }
  }

  lemma NoFragmentInLinearWeight(kw: string, i: int)
    requires kw in ParamsToKeep
    ensures !OccursAt(kw, "double_blocks.0.linear.weight", i)
  {
    var s := "double_blocks.0.linear.weight";
    if 0 <= i && i + |kw| <= |s| {
      var w := s[i..i + |kw|];
      assert w[0] == s[i] && w[1] == s[i + 1];
    }
  }

  /** With no `transformer_dtype` configured, every parameter gets the base dtype. */
  lemma DefaultPolicyUniform(c: PipelineConfig, name: string)
    requires c.transformerDtype.None?
    ensures DTypeFor(name, c.dtype, TransformerDtype(c)) == c.dtype
  {
  }

  /** The first parameter name without a state-dict entry, where `state_dict[name]`
      raises; `None` when every name has one. */
  function FirstMissing<V>(names: seq<string>, sd: map<string, V>): (r: Option<nat>)
    ensures r.None? <==> forall n :: n in names ==> n in sd
    ensures r.Some? ==> r.value < |names| && names[r.value] !in sd
    ensures r.Some? ==> forall j :: 0 <= j < r.value ==> names[j] in sd
  {
    if |names| == 0 then None
    else if names[0] !in sd then Some(0)
    else match FirstMissing(names[1..], sd)
      case None => None
      case Some(k) => Some(k + 1)
  }

  /** The architecture's input channels: the latent channels, plus as many again for
      the conditioning latents when the model is i2v. */
  function InChannels(isI2v: bool, latentChannels: nat): (n: nat)
    ensures n == latentChannels + (if isI2v then latentChannels else 0)
  {
    if isI2v then latentChannels * 2 else latentChannels
  }

  /** The state dict comes from the checkpoint at `transformer_path` (already converted
      to the transformer's own key names) when one is configured, else from the base model. */
  function StateDictFor<V>(c: PipelineConfig, readCheckpoint: string -> map<string, V>, baseStateDict: map<string, V>): (sd: map<string, V>)
    ensures c.transformerPath.None? ==> sd == baseStateDict
    ensures c.transformerPath == Some("") ==> sd == baseStateDict
    ensures c.transformerPath.Some? && c.transformerPath.value != "" ==> sd == readCheckpoint(c.transformerPath.value)
  {
    if UsesCheckpoint(c) then readCheckpoint(c.transformerPath.value) else baseStateDict
  }

  /** The transformer as the loader sees it: a fixed list of parameter names, the
      materialized tensors, and the side tables of storage dtypes and original names. */
  class Transformer<V> {
    const inChannels: nat
    const outChannels: nat
    const paramNames: seq<string>
    var weights: map<string, V>
    var dtypes: map<string, DType>
    var originalName: map<string, string>

    /** `load_model(...)` inside `init_empty_weights()`: the shape is fixed, no tensor is
        materialized, and every parameter has the factory dtype. */
    constructor EmptyWeights(inChannels: nat, outChannels: nat, paramNames: seq<string>, dtype: DType)
      ensures this.inChannels == inChannels && this.outChannels == outChannels
      ensures this.paramNames == paramNames
      ensures weights == map[] && originalName == map[]
      ensures dtypes == map n | n in paramNames :: dtype
    {
      this.inChannels := inChannels;
      this.outChannels := outChannels;
      this.paramNames := paramNames;
      weights := map[];
      dtypes := map n | n in paramNames :: dtype;
      originalName := map[];
    }

    /** `set_module_tensor_to_device(transformer, name, dtype=dtype, value=value)`. */
    method SetModuleTensor(name: string, dtype: DType, value: V)
      requires name in paramNames
      modifies this`weights, this`dtypes
      ensures weights == old(weights)[name := value]
      ensures dtypes == old(dtypes)[name := dtype]
    {
      weights := weights[name := value];
      dtypes := dtypes[name := dtype];
    }

    /** `p.original_name = name`. */
    method TagOriginalName(name: string)
      requires name in paramNames
      modifies this`originalName
      ensures originalName == old(originalName)[name := name]
    {
      originalName := originalName[name := name];
    }
  }
}
