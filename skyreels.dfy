/** The SkyReels image-to-video training pipeline: loading the transformer's weights
    (`load_diffusion_model`) and assembling one training sample (`prepare_inputs`).
    Tensor arithmetic, random draws and the transformer's own code are parameters. */
module Skyreels {
  import opened Wrappers
  import opened Config
  import opened Latents
  import opened Timesteps
  import opened VideoDims
  import opened Loader

  /** One batch from the data loader.  The prompt embeddings and mask are forwarded
      untouched, so their type is opaque. */
  datatype Batch<T, P> = Batch(latents: Latent<T>, promptEmbeds1: P, promptAttentionMask1: P, promptEmbeds2: P)

  /** A tensor broadcast along a new leading batch axis (`expand(bs, -1, -1)`): a view
      of `base`, not a copy. */
  datatype BatchView<F> = BatchView(batch: nat, base: F)

  /** The nine values `prepare_inputs` returns, in their order. */
  datatype TrainingInputs<T, P, F> = TrainingInputs(
    xt: Latent<T>,
    t: seq<Time>,
    promptEmbeds1: P,
    promptAttentionMask1: P,
    promptEmbeds2: P,
    freqsCos: BatchView<F>,
    freqsSin: BatchView<F>,
    guidance: seq<real>,
    target: Latent<T>
  )

  /** `prepare_inputs(inputs, timestep_quantile)`.  `noise` is the draw `randn_like(x_1)`;
      `lerp(a, b, t)` stands for `(1 - t) * a + t * b` and `minus` for subtraction on
      elements; `rope` is `get_rotary_pos_embed` on the loaded transformer.  The only
      error is an unknown sampling method. */
  function PrepareInputs<T, P, F>(
    cfg: PipelineConfig, batch: Batch<T, P>, quantile: Option<real>, noise: Latent<T>,
    zero: T, lerp: (T, T, Time) -> T, minus: (T, T) -> T, rope: (int, int, int) -> (F, F)
  ): (r: Result<TrainingInputs<T, P, F>, SampleError>)
    requires WellShaped(batch.latents) && noise.dims == batch.latents.dims && WellShaped(noise)
    requires cfg.isI2v ==> batch.latents.dims.frames >= 1
    ensures r.Failure? <==> ParseMethod(SampleMethodName(cfg)).Failure?
    ensures r.Failure? ==> r.error == UnsupportedSamplingMethod(SampleMethodName(cfg))
    ensures r.Success? ==>
      var d := batch.latents.dims;
      var x := r.value;
      && WellShaped(x.xt) && x.xt.dims == d.(channels := InChannels(cfg.isI2v, d.channels))
      && WellShaped(x.target) && x.target.dims == d
      && |x.t| == d.batch && |x.guidance| == d.batch
      && x.freqsCos.batch == d.batch && x.freqsSin.batch == d.batch
      && x.promptEmbeds1 == batch.promptEmbeds1
      && x.promptAttentionMask1 == batch.promptAttentionMask1
      && x.promptEmbeds2 == batch.promptEmbeds2
  {
    var x1 := batch.latents;
    var d := x1.dims;
    var guidance := seq(d.batch, _ => Guidance(cfg) * 1000.0);
    match ParseMethod(SampleMethodName(cfg))
    case Failure(e) => Failure(e)
    case Success(m) =>
      var t := SampleTimesteps(m, quantile, SigmoidScale(cfg), cfg.shift, d.batch);
      var mixed := Interpolate(x1, noise, t, lerp);
      var xt := if cfg.isI2v then CatChannels(mixed, CondLatents(mixed, zero)) else mixed;
      var target := Difference(noise, x1, minus);
      var freqs := rope(VideoLength(d.frames), VideoHeight(d.height), VideoWidth(d.width));
      var tModel := seq(d.batch, i requires 0 <= i < d.batch => Scaled(t[i], 1000.0));
      Success(TrainingInputs(xt, tModel, batch.promptEmbeds1, batch.promptAttentionMask1, batch.promptEmbeds2,
        BatchView(d.batch, freqs.0), BatchView(d.batch, freqs.1), guidance, target))
  }

  /** The numeric content of a training sample: the timestep the transformer sees is
      the interpolation timestep times 1000; every element of the noisy latent mixes
      data and noise with its batch entry's interpolation timestep; the target is
      noise minus data; the frequencies are requested for the pixel-space size; the
      guidance is the configured value times 1000. */
  lemma PrepareInputsValues<T, P, F>(
    cfg: PipelineConfig, batch: Batch<T, P>, quantile: Option<real>, noise: Latent<T>,
    zero: T, lerp: (T, T, Time) -> T, minus: (T, T) -> T, rope: (int, int, int) -> (F, F),
    m: SampleMethod
  )
    requires WellShaped(batch.latents) && noise.dims == batch.latents.dims && WellShaped(noise)
    requires cfg.isI2v ==> batch.latents.dims.frames >= 1
    requires ParseMethod(SampleMethodName(cfg)) == Success(m)
    ensures var r := PrepareInputs(cfg, batch, quantile, noise, zero, lerp, minus, rope);
      var d := batch.latents.dims;
      var ts := SampleTimesteps(m, quantile, SigmoidScale(cfg), cfg.shift, d.batch);
      && r.Success?
      && (forall i :: 0 <= i < d.batch ==> r.value.t[i] == Scaled(ts[i], 1000.0))
      && (forall i, j, k, y, x :: InBounds(d, i, j, k, y, x) ==>
            At(r.value.xt, i, j, k, y, x) == lerp(At(batch.latents, i, j, k, y, x), At(noise, i, j, k, y, x), ts[i]))
      && (forall i, j, k, y, x :: InBounds(d, i, j, k, y, x) ==>
            At(r.value.target, i, j, k, y, x) == minus(At(noise, i, j, k, y, x), At(batch.latents, i, j, k, y, x)))
      && r.value.freqsCos.base == rope(VideoLength(d.frames), VideoHeight(d.height), VideoWidth(d.width)).0
      && r.value.freqsSin.base == rope(VideoLength(d.frames), VideoHeight(d.height), VideoWidth(d.width)).1
      && (forall i :: 0 <= i < d.batch ==> r.value.guidance[i] == Guidance(cfg) * 1000.0)
  {
  }

  /** In i2v mode the noisy latent has twice the channels: channels [0, C) are the mix
      of data and noise, channels [C, 2C) are the conditioning latents built from that
      mix, that is its frame 0 followed by zero frames.  Without i2v it is the mix. */
  lemma PrepareInputsChannels<T, P, F>(
    cfg: PipelineConfig, batch: Batch<T, P>, quantile: Option<real>, noise: Latent<T>,
    zero: T, lerp: (T, T, Time) -> T, minus: (T, T) -> T, rope: (int, int, int) -> (F, F),
    m: SampleMethod
  )
    requires WellShaped(batch.latents) && noise.dims == batch.latents.dims && WellShaped(noise)
    requires cfg.isI2v ==> batch.latents.dims.frames >= 1
    requires ParseMethod(SampleMethodName(cfg)) == Success(m)
    ensures var r := PrepareInputs(cfg, batch, quantile, noise, zero, lerp, minus, rope);
      var d := batch.latents.dims;
      var mixed := Interpolate(batch.latents, noise, SampleTimesteps(m, quantile, SigmoidScale(cfg), cfg.shift, d.batch), lerp);
      && r.Success?
      && (!cfg.isI2v ==> r.value.xt == mixed)
      && (cfg.isI2v ==>
            && r.value.xt.dims.channels == 2 * d.channels
            && (forall i, j, k, y, x :: InBounds(d, i, j, k, y, x) ==>
                  At(r.value.xt, i, j, k, y, x) == At(mixed, i, j, k, y, x))
            && (forall i, j, k, y, x :: InBounds(d, i, j, k, y, x) ==>
                  At(r.value.xt, i, d.channels + j, k, y, x) == if k == 0 then At(mixed, i, j, 0, y, x) else zero))
  {
  }

  /** Without `timestep_sample_method` the pipeline samples logit-normally. */
  lemma DefaultMethodIsLogitNormal(cfg: PipelineConfig)
    requires cfg.timestepSampleMethod.None?
    ensures ParseMethod(SampleMethodName(cfg)) == Success(LogitNormal)
  {
  }

  /** Logit-normal sampling at quantile 0.5 with the default scale and no shift: every
      entry is the squashed median of the standard normal, and the transformer is
      given that value times 1000. */
  lemma MedianQuantileScenario<T, P, F>(
    cfg: PipelineConfig, batch: Batch<T, P>, noise: Latent<T>,
    zero: T, lerp: (T, T, Time) -> T, minus: (T, T) -> T, rope: (int, int, int) -> (F, F), i: nat
  )
    requires WellShaped(batch.latents) && noise.dims == batch.latents.dims && WellShaped(noise)
    requires cfg.isI2v ==> batch.latents.dims.frames >= 1
    requires cfg.timestepSampleMethod.None? && cfg.sigmoidScale.None? && cfg.shift.None?
    requires i < batch.latents.dims.batch
    ensures var r := PrepareInputs(cfg, batch, Some(0.5), noise, zero, lerp, minus, rope);
      r.Success? && r.value.t[i] == Scaled(Sigmoid(Scaled(Quantile(StandardNormal, 0.5), 1.0)), 1000.0)
  {
    PrepareInputsValues(cfg, batch, Some(0.5), noise, zero, lerp, minus, rope, LogitNormal);
  }

  /** Glue between the two halves of the pipeline: for a transformer with the channel
      counts `LoadDiffusionModel` gives it on success (its `in_channels` and
      `out_channels` for these latents), the assembled noisy latent has the input
      channel count and the target the output channel count. */
  lemma ChannelsMatchArchitecture<T, P, F>(
    cfg: PipelineConfig, batch: Batch<T, P>, quantile: Option<real>, noise: Latent<T>,
    zero: T, lerp: (T, T, Time) -> T, minus: (T, T) -> T, rope: (int, int, int) -> (F, F),
    t: Transformer<T>
  )
    requires WellShaped(batch.latents) && noise.dims == batch.latents.dims && WellShaped(noise)
    requires cfg.isI2v ==> batch.latents.dims.frames >= 1
    requires t.inChannels == InChannels(cfg.isI2v, batch.latents.dims.channels)
    requires t.outChannels == batch.latents.dims.channels
    ensures var r := PrepareInputs(cfg, batch, quantile, noise, zero, lerp, minus, rope);
      r.Success? ==> r.value.xt.dims.channels == t.inChannels && r.value.target.dims.channels == t.outChannels
  {
  }

  /** Extending the loaded prefix of the parameter list by one name adds that name's
      state-dict entry. */
  lemma LoadedStep<V>(names: seq<string>, i: nat, sd: map<string, V>)
    requires i < |names| && forall j :: 0 <= j <= i ==> names[j] in sd
    ensures (map n | n in names[..i] :: sd[n])[names[i] := sd[names[i]]] == (map n | n in names[..i + 1] :: sd[n])
  {
  }

  /** Extending the prefix of tagged names by one name adds that name. */
  lemma TaggedStep(names: seq<string>, i: nat)
    requires i < |names|
    ensures var next := names[..i + 1];
      (map n | n in names[..i] :: n)[names[i] := names[i]] == (map n | n in next :: n)
  {
  }

  /** Applying the policy to one more name of the list. */
  lemma PolicyStep(names: seq<string>, i: nat, base: DType, td: DType)
    requires i < |names|
    ensures (map n | n in names :: if n in names[..i] then DTypeFor(n, base, td) else td)[names[i] := DTypeFor(names[i], base, td)]
         == (map n | n in names :: if n in names[..i + 1] then DTypeFor(n, base, td) else td)
  {
  }

  /** The pipeline object: its configuration and, once loaded, its transformer. */
  class SkyreelsVideoPipeline<V> {
    const config: PipelineConfig
    const isI2v: bool
    var transformer: Transformer?<V>

    constructor (config: PipelineConfig)
      ensures this.config == config && isI2v == config.isI2v && transformer == null
    {
      this.config := config;
      isI2v := config.isI2v;
      transformer := null;
    }

    /** `load_diffusion_model`: allocate the transformer with empty weights, fill every
        named parameter from the state dict at the dtype the policy chooses, install
        the transformer, then record each parameter's original name.  A parameter name
        missing from the state dict aborts the load and leaves the pipeline as it was.
        `paramNames` is the transformer's `named_parameters()` order; `readCheckpoint`
        is `load_safetensors` followed by the key conversion. */
    method LoadDiffusionModel(latentChannels: nat, paramNames: seq<string>,
                              readCheckpoint: string -> map<string, V>, baseStateDict: map<string, V>)
      returns (r: Result<(), LoadError>)
      modifies this
      ensures var sd := StateDictFor(config, readCheckpoint, baseStateDict);
        r.Failure? <==> FirstMissing(paramNames, sd).Some?
      ensures var sd := StateDictFor(config, readCheckpoint, baseStateDict);
        r.Failure? ==> r.error == MissingParameter(paramNames[FirstMissing(paramNames, sd).value]) &&
                       transformer == old(transformer)
      ensures var sd := StateDictFor(config, readCheckpoint, baseStateDict);
        r.Success? ==>
          && (forall n :: n in paramNames ==> n in sd)
          && transformer != null && fresh(transformer)
          && transformer.inChannels == InChannels(isI2v, latentChannels)
          && transformer.outChannels == latentChannels
          && transformer.paramNames == paramNames
          && transformer.weights == (map n | n in paramNames :: sd[n])
          && transformer.dtypes == (map n | n in paramNames :: DTypeFor(n, config.dtype, TransformerDtype(config)))
          && transformer.originalName == (map n | n in paramNames :: n)
    {
      var transformerDtype := TransformerDtype(config);
      var t := new Transformer.EmptyWeights(InChannels(isI2v, latentChannels), latentChannels, paramNames, transformerDtype);
      var sd := StateDictFor(config, readCheckpoint, baseStateDict);
      var i := 0;
      while i < |paramNames|
        invariant 0 <= i <= |paramNames|
        invariant forall j :: 0 <= j < i ==> paramNames[j] in sd
        invariant t.weights == (map n | n in paramNames[..i] :: sd[n])
        invariant t.dtypes == (map n | n in paramNames ::
                                 if n in paramNames[..i] then DTypeFor(n, config.dtype, transformerDtype) else transformerDtype)
        invariant t.originalName == map[]
        invariant transformer == old(transformer)
      {
        var name := paramNames[i];
        if name !in sd {
          return Failure(MissingParameter(name));
        }
        LoadedStep(paramNames, i, sd);
        PolicyStep(paramNames, i, config.dtype, transformerDtype);
        t.SetModuleTensor(name, DTypeFor(name, config.dtype, transformerDtype), sd[name]);
        i := i + 1;
      }
      assert paramNames[..i] == paramNames;
      transformer := t;
      i := 0;
      while i < |t.paramNames|
        invariant 0 <= i <= |paramNames|
        invariant t.originalName == (map n | n in paramNames[..i] :: n)
        invariant t.weights == (map n | n in paramNames :: sd[n])
        invariant t.dtypes == (map n | n in paramNames :: DTypeFor(n, config.dtype, transformerDtype))
        invariant transformer == t
      {
        TaggedStep(paramNames, i);
        t.TagOriginalName(t.paramNames[i]);
        i := i + 1;
      }
      assert paramNames[..i] == paramNames;
      return Success(());
    }
  }
}
