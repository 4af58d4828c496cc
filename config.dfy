/** The pipeline's configuration mapping, as an explicit record.  Every optional
    entry is an `Option`; the defaults the source applies with `dict.get` are the
    functions below, so each default is written down exactly once. */
module Config {
  import opened Wrappers

  /** A storage precision.  Which torch dtype it names is not modelled. */
  datatype DType = DType(name: string)

  datatype PipelineConfig = PipelineConfig(
    isI2v: bool,                               // model_config["is_i2v"], required
    dtype: DType,                              // model_config["dtype"], required
    transformerDtype: Option<DType>,           // 'transformer_dtype'
    guidance: Option<real>,                    // 'guidance'
    timestepSampleMethod: Option<string>,      // 'timestep_sample_method'
    sigmoidScale: Option<real>,                // 'sigmoid_scale'
    shift: Option<real>,                       // 'shift'
    transformerPath: Option<string>            // 'transformer_path'
  )

  /** `transformer_dtype` falls back to `dtype`. */
  function TransformerDtype(c: PipelineConfig): (d: DType)
    ensures c.transformerDtype.None? ==> d == c.dtype
    ensures c.transformerDtype.Some? ==> d == c.transformerDtype.value
  {
    c.transformerDtype.GetOr(c.dtype)
  }

  /** `guidance` defaults to 1.0. */
  function Guidance(c: PipelineConfig): (g: real)
    ensures c.guidance.None? ==> g == 1.0
    ensures c.guidance.Some? ==> g == c.guidance.value
  {
    c.guidance.GetOr(1.0)
  }

  /** `timestep_sample_method` defaults to "logit_normal". */
  function SampleMethodName(c: PipelineConfig): (name: string)
    ensures c.timestepSampleMethod.None? ==> name == "logit_normal"
    ensures c.timestepSampleMethod.Some? ==> name == c.timestepSampleMethod.value
  {
    c.timestepSampleMethod.GetOr("logit_normal")
  }

  /** `sigmoid_scale` defaults to 1.0. */
  function SigmoidScale(c: PipelineConfig): (scale: real)
    ensures c.sigmoidScale.None? ==> scale == 1.0
    ensures c.sigmoidScale.Some? ==> scale == c.sigmoidScale.value
  {
    c.sigmoidScale.GetOr(1.0)
  }

  /** `if transformer_path := config.get('transformer_path', None)`: an absent or empty
      path selects the base-model state dict. */
  predicate UsesCheckpoint(c: PipelineConfig) {
    c.transformerPath.Some? && c.transformerPath.value != ""
  }
}
