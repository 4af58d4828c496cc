# SkyReels image-to-video training pipeline, modelled in Dafny

This project models the discrete core of `models/skyreels_v1.py`, the SkyReels
video-diffusion training pipeline. That file does two jobs. It loads the
transformer's weights at a mixed precision (`load_diffusion_model`), and it
assembles one flow-matching training sample (`prepare_inputs`) together with
the image-to-video (i2v) conditioning latents (`get_cond_latents`).

The model has these parts:

- `Latents`: 5-D latent tensors with axes (batch, channel, frame, height, width).
  They are nested sequences that keep their shape beside them. The module also has
  the frame slice, `torch.zeros`, concatenation along the frame axis and the channel
  axis, and `get_cond_latents`. The element type is generic with a given zero.
- `Timesteps`: the closed choice between `logit_normal` and `uniform`, and the error
  for any other name. A timestep is a term that records how it was computed (a
  quantile or a draw, then the scaling and sigmoid, then the shift), because the
  numbers themselves are floating point.
- `VideoDims`: the latent-to-pixel size arithmetic for the rotary-embedding request.
- `Loader`: Python's substring test, the dtype policy keyed on name fragments, the
  first missing state-dict key, and a `Transformer` class. The class holds parameter
  names, materialized weights (`map<string, V>`) and two side tables: name to dtype
  and name to original name.
- `Skyreels`: the pipeline class. `LoadDiffusionModel` has the source's two loops.
  `PrepareInputs` is a function that returns the nine-field result or the
  sampling-method error. Lemmas tie the parts together.
- `Config`: the configuration record, with the defaults the source applies.
- `Wrappers`: the `Option` and `Result` types.

These become parameters:

- the noise tensor `randn_like(x_1)`;
- the arithmetic `(1 - t) * a + t * b` and `a - b` on elements;
- `get_rotary_pos_embed`;
- the list `named_parameters()`;
- the two state-dict sources (`load_safetensors` followed by
  `_convert_state_dict_keys`, or `load_state_dict`).

Three behaviours of the code worth noting:

- Enabling the shift uses Python's truth test. A `shift` of `0` disables the warp
  exactly as an absent one does (`Timesteps.ShiftEnabled`).
- An empty `transformer_path` is also false, so the base-model state dict is used.
- The recorded `original_name` is the transformer's own parameter name. On the
  checkpoint path the state-dict keys have already been converted to those names,
  so it matches the key that was looked up.

## Model

| member | source | states |
|---|---|---|
| `Config.TransformerDtype` | models/skyreels_v1.py:33 | `transformer_dtype` is the configured one when present and `dtype` otherwise |
| `Config.Guidance` | models/skyreels_v1.py:77 | the guidance is the configured value when present and 1.0 otherwise |
| `Config.SampleMethodName` | models/skyreels_v1.py:81 | the sampling-method name is the configured one when present and `logit_normal` otherwise |
| `Config.SigmoidScale` | models/skyreels_v1.py:96 | the sigmoid scale is the configured value when present and 1.0 otherwise |
| `Latents.FrameSlice` | models/skyreels_v1.py:10 | `latents[:, :, [k], ...]` has a frame axis of size 1, and its frame 0 is frame k of the input |
| `Latents.Zeros` | models/skyreels_v1.py:14-22 | the padding has the requested shape and every element is zero |
| `Latents.CatFrames` | models/skyreels_v1.py:23 | concatenating along dim 2 adds the frame counts; frame k comes from the first operand below its frame count and from the second, shifted, above it |
| `Latents.CatChannels` | models/skyreels_v1.py:111 | concatenating along dim 1 adds the channel counts; channel j comes from the first operand below its channel count and from the second, shifted, above it |
| `Latents.CondLatents` | models/skyreels_v1.py:5-24 | the conditioning latents have the input's shape; frame 0 equals the input's frame 0 elementwise and every later frame is zero; frames >= 1 is required |
| `Latents.CondLatentsIdempotent` | models/skyreels_v1.py:5-24 | building the conditioning latents of conditioning latents gives them back unchanged |
| `Latents.CondLatentsFirstFrameOnly` | models/skyreels_v1.py:10-23 | two latents that agree on frame 0 have equal conditioning latents |
| `Latents.Interpolate` | models/skyreels_v1.py:105-107 | the noisy latent has the data's shape, and each element of batch entry i mixes data and noise with timestep i (t broadcast over the non-batch axes) |
| `Latents.Difference` | models/skyreels_v1.py:113 | the target has the data's shape, and each element is noise minus data |
| `Timesteps.ParseMethod` | models/skyreels_v1.py:83-88 | the method is accepted exactly when it is `logit_normal` or `uniform`; any other name gives `UnsupportedSamplingMethod` with that name |
| `Timesteps.ParseName` | models/skyreels_v1.py:83-86 | parsing the name of either method gives that method back |
| `Timesteps.DistributionOf` | models/skyreels_v1.py:83-86 | logit-normal sampling uses `Normal(0, 1)` and uniform sampling uses `Uniform(0, 1)`, and no other pairing |
| `Timesteps.Raw` | models/skyreels_v1.py:83-93 | the raw value is the inverse CDF at the given quantile exactly when a quantile is given, else the entry's own draw i; its distribution is `Normal(0, 1)` for logit-normal and `Uniform(0, 1)` for uniform; no sigmoid and no shift applied yet |
| `Timesteps.Squash` | models/skyreels_v1.py:95-98 | on the logit-normal path the result is the sigmoid of the input times `sigmoid_scale`; on the uniform path the input is unchanged; the origin and the shift status stay unchanged |
| `Timesteps.ShiftEnabledTruthTest` | models/skyreels_v1.py:100 | the shift is disabled when absent and when 0, and enabled for any other value |
| `Timesteps.Warp` | models/skyreels_v1.py:100-101 | the shift is added exactly when it is enabled (present and non-zero), and a disabled shift leaves the timestep unchanged; the origin and the sigmoid status stay unchanged |
| `Timesteps.SampleTimesteps` | models/skyreels_v1.py:83-101 | there are bs timesteps; entry i comes from the quantile or from draw i; it has a sigmoid iff the method is logit-normal; it is shifted iff the shift is enabled |
| `Timesteps.QuantileDeterministic` | models/skyreels_v1.py:90-91 | with a quantile, every entry is the same and does not depend on the batch size |
| `Timesteps.DrawsIndependent` | models/skyreels_v1.py:92-93 | without a quantile, distinct entries come from distinct draws |
| `Timesteps.SamplingOrder` | models/skyreels_v1.py:90-101 | for each method and each shift setting (absent, 0 or another value), the exact term: sigmoid(scale * raw) for logit-normal and raw for uniform, then the shift by its value exactly when it is enabled |
| `VideoDims.VideoLength` | models/skyreels_v1.py:115 | `(F - 1) * 4 + 1` is 1 modulo 4, and inverting the 4x temporal compression gives F back |
| `VideoDims.VideoHeight` | models/skyreels_v1.py:116 | `h * 8` is a multiple of 8, and dividing by 8 gives h back |
| `VideoDims.VideoWidth` | models/skyreels_v1.py:117 | `w * 8` is a multiple of 8, and dividing by 8 gives w back |
| `VideoDims.VideoLengthGrowth` | models/skyreels_v1.py:115 | at least one latent frame gives at least one pixel frame, and each further latent frame adds 4 |
| `VideoDims.FiveFramesExample` | models/skyreels_v1.py:115-117 | 5 latent frames of 8 by 8 give 17 frames of 64 by 64 |
| `Loader.OccursFromIff` | models/skyreels_v1.py:57 | the left-to-right scan from index i succeeds iff the keyword occurs at some index >= i |
| `Loader.IsSubstringIff` | models/skyreels_v1.py:57 | `keyword in name` holds iff the keyword occurs at some index of the name |
| `Loader.KeepsBaseDtypeIff` | models/skyreels_v1.py:57 | `any(keyword in name ...)` holds iff some keyword of the fixed set occurs in the name |
| `Loader.DTypeFor` | models/skyreels_v1.py:54-57 | a name containing `norm`, `bias`, `time_in`, `vector_in`, `guidance_in`, `txt_in` or `img_in` gets the base dtype; every other name gets the transformer dtype |
| `Loader.DTypeForExamples` | models/skyreels_v1.py:54-57 | `double_blocks.0.norm.weight` keeps the base dtype and `double_blocks.0.linear.weight` gets the transformer dtype |
| `Loader.DefaultPolicyUniform` | models/skyreels_v1.py:33 | with `transformer_dtype` absent, every parameter gets `dtype` |
| `Loader.InChannels` | models/skyreels_v1.py:39 | the architecture reads the latent channels plus, for i2v, as many again for the conditioning latents |
| `Loader.StateDictFor` | models/skyreels_v1.py:49-53 | a non-empty `transformer_path` selects its checkpoint; an absent or empty one selects the base model's state dict |
| `Loader.FirstMissing` | models/skyreels_v1.py:56-58 | gives no index iff every parameter name is a state-dict key; otherwise the first name without an entry, with every earlier name present |
| `Loader.Transformer.EmptyWeights` | models/skyreels_v1.py:36-48 | the empty-weight transformer has the given channel counts and parameter names, no weights, no original names, and the factory dtype for every parameter |
| `Loader.Transformer.SetModuleTensor` | models/skyreels_v1.py:58 | writing one parameter sets its value and its dtype and no other entry |
| `Loader.Transformer.TagOriginalName` | models/skyreels_v1.py:65 | tagging one parameter records its own name as its original name |
| `Skyreels.PrepareInputs` | models/skyreels_v1.py:68-137 | for a latent with at least one frame when i2v is set, fails exactly on an unknown sampling method. On success: the noisy latent has the data's shape with `in_channels` channels, the target has the data's shape, there are bs timesteps and guidance values, the frequency views have batch bs, and the prompt payloads are forwarded |
| `Skyreels.PrepareInputsValues` | models/skyreels_v1.py:90-125 | the transformer's timestep is the interpolation timestep times 1000; the noisy latent and the target are the elementwise mix and difference; frequencies are requested for the pixel size; guidance is its value times 1000 |
| `Skyreels.PrepareInputsChannels` | models/skyreels_v1.py:109-111 | with i2v, channels [0, C) are the mix unchanged, and channels [C, 2C) are its frame 0 followed by zero frames; without i2v the latent is the mix |
| `Skyreels.DefaultMethodIsLogitNormal` | models/skyreels_v1.py:81 | an absent sampling method means `logit_normal` |
| `Skyreels.MedianQuantileScenario` | models/skyreels_v1.py:81-125 | logit-normal at quantile 0.5 with defaults gives the transformer sigmoid(1.0 * icdf(0.5)) * 1000 for every batch entry |
| `Skyreels.ChannelsMatchArchitecture` | models/skyreels_v1.py:39-40 | connects the loader to the assembler: for a transformer with the channel counts a successful load gives it, the assembled noisy latent has the loaded architecture's `in_channels` (2C with i2v, C without), and the target has its `out_channels` C |
| `Skyreels.SkyreelsVideoPipeline.constructor` | models/skyreels_v1.py:27-29 | the pipeline takes `is_i2v` from the configuration and starts with no transformer |
| `Skyreels.SkyreelsVideoPipeline.LoadDiffusionModel` | models/skyreels_v1.py:32-65 | fails iff a parameter name is missing from the chosen state dict, naming the first such name and leaving the pipeline's transformer as it was. On success the new transformer has in/out channels (2C or C, C); it holds exactly `state_dict[name]` for every parameter name and ignores other keys; every dtype follows the policy; every original name is the parameter's own name |

## Left out

- Sampling from `Normal`/`Uniform`, `icdf`, the logistic function, the shift formula and `randn_like` are floating-point numerics and random-number generation. Timesteps are symbolic terms, and the noise tensor is a parameter.
- The element arithmetic of the flow-matching mix and the target, and `.float()`, are floating point. They are parameters `lerp` and `minus`.
- The guidance value is a `real` times 1000. It does not model float32 rounding.
- The rotary-embedding computation is external code, `get_rotary_pos_embed` in `models/hunyuan_video`, which is not part of this model. It is a parameter. `expand` is a view (`BatchView`) that records the batch size.
- `load_model`, `init_empty_weights` and `named_parameters` come from `models/hunyuan_video`, which is not part of this model. The empty-weight allocation is the `EmptyWeights` constructor, and the parameter-name list is an input.
- `load_safetensors`, `load_state_dict` and `_convert_state_dict_keys` are file I/O and a key-remapping function whose body is not visible. The checkpoint path is a function parameter and the base-model state dict is a map. The model decides only which source is used.
- Transformer.SetModuleTensor: stores the state-dict value as given and records the dtype beside it. The real torch cast to that dtype, device placement (`cuda`/`cpu`) and shape checks are library behaviour.
- `self.transformer.train()` is an external mode switch with no effect on the modelled state.
- The superclass constructor `HunyuanVideoPipeline.__init__` is not visible. Only `is_i2v` is modelled.
- Missing batch-dictionary keys (`inputs['latents']` and so on): the batch is a record, so no `KeyError` path is needed.
- Skyreels.PrepareInputs: with i2v set and a latent of zero frames, the source raises when it indexes frame 0 (`models/skyreels_v1.py:10`); the model requires at least one frame in that case and has no error value for it, so its failure case covers only the unknown sampling method.
- Latents.CondLatents: requires at least one frame, because indexing frame 0 of an empty frame axis raises in torch. The model has no error value for that case.
