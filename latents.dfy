/** Five-dimensional latent tensors with axes (batch, channel, frame, height, width),
    the slicing, zero-filling and concatenation the pipeline applies to them, and the
    construction of the image-to-video conditioning latents (`get_cond_latents`).
    Elements have a generic type: nothing here depends on their arithmetic. */
module Latents {

  datatype Dims = Dims(batch: nat, channels: nat, frames: nat, height: nat, width: nat)

  /** The shape is kept beside the elements so that it survives an empty axis. */
  datatype Latent<T> = Latent(dims: Dims, elems: seq<seq<seq<seq<seq<T>>>>>)

  predicate IsPlane<T>(p: seq<seq<T>>, h: nat, w: nat) {
    |p| == h && forall y :: 0 <= y < |p| ==> |p[y]| == w
  }

  predicate IsClip<T>(c: seq<seq<seq<T>>>, f: nat, h: nat, w: nat) {
    |c| == f && forall k :: 0 <= k < |c| ==> IsPlane(c[k], h, w)
  }

  predicate IsSample<T>(s: seq<seq<seq<seq<T>>>>, ch: nat, f: nat, h: nat, w: nat) {
    |s| == ch && forall j :: 0 <= j < |s| ==> IsClip(s[j], f, h, w)
  }

  /** The nested sequences have exactly the recorded shape. */
  predicate WellShaped<T>(x: Latent<T>) {
    var d := x.dims;
    |x.elems| == d.batch &&
    forall i :: 0 <= i < |x.elems| ==> IsSample(x.elems[i], d.channels, d.frames, d.height, d.width)
  }

  predicate InBounds(d: Dims, i: int, j: int, k: int, y: int, x: int) {
    0 <= i < d.batch && 0 <= j < d.channels && 0 <= k < d.frames && 0 <= y < d.height && 0 <= x < d.width
  }

  /** Element (i, j, k, y, x): batch i, channel j, frame k, row y, column x. */
  function At<T>(t: Latent<T>, i: int, j: int, k: int, y: int, x: int): T
    requires WellShaped(t) && InBounds(t.dims, i, j, k, y, x)
  {
    t.elems[i][j][k][y][x]
  }

  /** Two well-shaped latents with the same shape and the same elements are equal. */
  lemma {:induction false} Extensionality<T>(a: Latent<T>, b: Latent<T>)
    requires WellShaped(a) && WellShaped(b) && a.dims == b.dims
    requires forall i, j, k, y, x :: InBounds(a.dims, i, j, k, y, x) ==> At(a, i, j, k, y, x) == At(b, i, j, k, y, x)
    ensures a == b
  {
    var d := a.dims;
    forall i | 0 <= i < d.batch ensures a.elems[i] == b.elems[i] {
      forall j | 0 <= j < d.channels ensures a.elems[i][j] == b.elems[i][j] {
        forall k | 0 <= k < d.frames ensures a.elems[i][j][k] == b.elems[i][j][k] {
          forall y | 0 <= y < d.height ensures a.elems[i][j][k][y] == b.elems[i][j][k][y] {
            forall x | 0 <= x < d.width ensures a.elems[i][j][k][y][x] == b.elems[i][j][k][y][x] {
              assert At(a, i, j, k, y, x) == At(b, i, j, k, y, x);
            }
          }
        }
      }
    }
  }

  /** `latents[:, :, [k], ...]`: the single frame k, keeping the frame axis (of size 1). */
  function FrameSlice<T>(t: Latent<T>, k: nat): (r: Latent<T>)
    requires WellShaped(t) && k < t.dims.frames
    ensures WellShaped(r) && r.dims == t.dims.(frames := 1)
    ensures forall i, j, y, x :: InBounds(r.dims, i, j, 0, y, x) ==> At(r, i, j, 0, y, x) == At(t, i, j, k, y, x)
  {
    var d := t.dims;
    Latent(d.(frames := 1),
      seq(d.batch, i requires 0 <= i < d.batch =>
        seq(d.channels, j requires 0 <= j < d.channels => [t.elems[i][j][k]])))
  }

  /** `torch.zeros(shape)`, with `zero` the element type's zero. */
  function Zeros<T>(d: Dims, zero: T): (r: Latent<T>)
    ensures WellShaped(r) && r.dims == d
    ensures forall i, j, k, y, x :: InBounds(d, i, j, k, y, x) ==> At(r, i, j, k, y, x) == zero
  {
    Latent(d,
      seq(d.batch, _ => seq(d.channels, _ => seq(d.frames, _ => seq(d.height, _ => seq(d.width, _ => zero))))))
  }

  /** `torch.cat([a, b], dim=2)`: the frames of `b` follow those of `a`. */
  function CatFrames<T>(a: Latent<T>, b: Latent<T>): (r: Latent<T>)
    requires WellShaped(a) && WellShaped(b)
    requires b.dims == a.dims.(frames := b.dims.frames)
    ensures WellShaped(r) && r.dims == a.dims.(frames := a.dims.frames + b.dims.frames)
    ensures forall i, j, k, y, x :: InBounds(r.dims, i, j, k, y, x) ==>
      At(r, i, j, k, y, x) == if k < a.dims.frames then At(a, i, j, k, y, x) else At(b, i, j, k - a.dims.frames, y, x)
  {
    var d := a.dims;
    var r := Latent(d.(frames := a.dims.frames + b.dims.frames),
      seq(d.batch, i requires 0 <= i < d.batch =>
        seq(d.channels, j requires 0 <= j < d.channels => a.elems[i][j] + b.elems[i][j])));
    assert WellShaped(r) by {
      forall i | 0 <= i < d.batch ensures IsSample(r.elems[i], d.channels, r.dims.frames, d.height, d.width) {
        forall j | 0 <= j < d.channels ensures IsClip(r.elems[i][j], r.dims.frames, d.height, d.width) {
          assert IsClip(a.elems[i][j], a.dims.frames, d.height, d.width);
          assert IsClip(b.elems[i][j], b.dims.frames, d.height, d.width);
        }
      }
    }
    r
  }

  /** `torch.cat([a, b], dim=1)`: the channels of `b` follow those of `a`. */
  function CatChannels<T>(a: Latent<T>, b: Latent<T>): (r: Latent<T>)
    requires WellShaped(a) && WellShaped(b)
    requires b.dims == a.dims.(channels := b.dims.channels)
    ensures WellShaped(r) && r.dims == a.dims.(channels := a.dims.channels + b.dims.channels)
    ensures forall i, j, k, y, x :: InBounds(r.dims, i, j, k, y, x) ==>
      At(r, i, j, k, y, x) == if j < a.dims.channels then At(a, i, j, k, y, x) else At(b, i, j - a.dims.channels, k, y, x)
  {
    var d := a.dims;
    var r := Latent(d.(channels := a.dims.channels + b.dims.channels),
      seq(d.batch, i requires 0 <= i < d.batch => a.elems[i] + b.elems[i]));
    assert WellShaped(r) by {
      forall i | 0 <= i < d.batch ensures IsSample(r.elems[i], r.dims.channels, d.frames, d.height, d.width) {
        assert IsSample(a.elems[i], a.dims.channels, d.frames, d.height, d.width);
        assert IsSample(b.elems[i], b.dims.channels, d.frames, d.height, d.width);
      }
    }
    r
  }

  /** `get_cond_latents`: the first frame of `t` followed by `frames - 1` zero frames.
      Indexing frame 0 fails on a latent without frames, hence the precondition. */
  function CondLatents<T>(t: Latent<T>, zero: T): (r: Latent<T>)
    requires WellShaped(t) && t.dims.frames >= 1
    ensures WellShaped(r) && r.dims == t.dims
    ensures forall i, j, k, y, x :: InBounds(r.dims, i, j, k, y, x) ==>
      At(r, i, j, k, y, x) == if k == 0 then At(t, i, j, 0, y, x) else zero
  {
    var first := FrameSlice(t, 0);
    var padding := Zeros(t.dims.(frames := t.dims.frames - 1), zero);
    CatFrames(first, padding)
  }

  /** Building the conditioning latents twice changes nothing: frame 0 is kept and the
      other frames are already zero. */
  lemma CondLatentsIdempotent<T>(t: Latent<T>, zero: T)
    requires WellShaped(t) && t.dims.frames >= 1
    ensures CondLatents(CondLatents(t, zero), zero) == CondLatents(t, zero)
  {
    var c := CondLatents(t, zero);
    Extensionality(CondLatents(c, zero), c);
  }

  /** The conditioning latents depend on the first frame only. */
  lemma CondLatentsFirstFrameOnly<T>(a: Latent<T>, b: Latent<T>, zero: T)
    requires WellShaped(a) && WellShaped(b) && a.dims == b.dims && a.dims.frames >= 1
    requires forall i, j, y, x :: InBounds(a.dims, i, j, 0, y, x) ==> At(a, i, j, 0, y, x) == At(b, i, j, 0, y, x)
    ensures CondLatents(a, zero) == CondLatents(b, zero)
  {
    var ca, cb := CondLatents(a, zero), CondLatents(b, zero);
    forall i, j, k, y, x | InBounds(a.dims, i, j, k, y, x) ensures At(ca, i, j, k, y, x) == At(cb, i, j, k, y, x) {
      if k == 0 {
        assert InBounds(a.dims, i, j, 0, y, x);
      }
    }
    Extensionality(ca, cb);
  }

  /** Elementwise combination of two planes, clips and samples of one shape. */
  function ZipPlane<T>(a: seq<seq<T>>, b: seq<seq<T>>, h: nat, w: nat, f: (T, T) -> T): (r: seq<seq<T>>)
    requires IsPlane(a, h, w) && IsPlane(b, h, w)
    ensures IsPlane(r, h, w)
    ensures forall y, x :: 0 <= y < h && 0 <= x < w ==> r[y][x] == f(a[y][x], b[y][x])
  {
    seq(h, y requires 0 <= y < h => seq(w, x requires 0 <= x < w => f(a[y][x], b[y][x])))
  }

  function ZipClip<T>(a: seq<seq<seq<T>>>, b: seq<seq<seq<T>>>, fr: nat, h: nat, w: nat, f: (T, T) -> T): (r: seq<seq<seq<T>>>)
    requires IsClip(a, fr, h, w) && IsClip(b, fr, h, w)
    ensures IsClip(r, fr, h, w)
    ensures forall k, y, x :: 0 <= k < fr && 0 <= y < h && 0 <= x < w ==> r[k][y][x] == f(a[k][y][x], b[k][y][x])
  {
    seq(fr, k requires 0 <= k < fr => ZipPlane(a[k], b[k], h, w, f))
  }

  function ZipSample<T>(a: seq<seq<seq<seq<T>>>>, b: seq<seq<seq<seq<T>>>>, ch: nat, fr: nat, h: nat, w: nat, f: (T, T) -> T): (r: seq<seq<seq<seq<T>>>>)
    requires IsSample(a, ch, fr, h, w) && IsSample(b, ch, fr, h, w)
    ensures IsSample(r, ch, fr, h, w)
    ensures forall j, k, y, x :: 0 <= j < ch && 0 <= k < fr && 0 <= y < h && 0 <= x < w ==>
      r[j][k][y][x] == f(a[j][k][y][x], b[j][k][y][x])
  {
    seq(ch, j requires 0 <= j < ch => ZipClip(a[j], b[j], fr, h, w, f))
  }

  /** The flow-matching mix `(1 - t) * x_1 + t * x_0`, with `t` broadcast over every
      axis but the batch axis (`t.view(-1, 1, 1, 1, 1)`): each element of batch entry i
      combines the two inputs with that entry's timestep `ts[i]`.  The arithmetic is
      the parameter `lerp`. */
  function Interpolate<T, S>(x1: Latent<T>, x0: Latent<T>, ts: seq<S>, lerp: (T, T, S) -> T): (r: Latent<T>)
    requires WellShaped(x1) && WellShaped(x0) && x0.dims == x1.dims && |ts| == x1.dims.batch
    ensures WellShaped(r) && r.dims == x1.dims
    ensures forall i, j, k, y, x :: InBounds(r.dims, i, j, k, y, x) ==>
      At(r, i, j, k, y, x) == lerp(At(x1, i, j, k, y, x), At(x0, i, j, k, y, x), ts[i])
  {
    var d := x1.dims;
    Latent(d,
      seq(d.batch, i requires 0 <= i < d.batch =>
        ZipSample(x1.elems[i], x0.elems[i], d.channels, d.frames, d.height, d.width, (p, q) => lerp(p, q, ts[i]))))
  }

  /** The elementwise difference `a - b`, with the subtraction the parameter `minus`. */
  function Difference<T>(a: Latent<T>, b: Latent<T>, minus: (T, T) -> T): (r: Latent<T>)
    requires WellShaped(a) && WellShaped(b) && b.dims == a.dims
    ensures WellShaped(r) && r.dims == a.dims
    ensures forall i, j, k, y, x :: InBounds(r.dims, i, j, k, y, x) ==>
      At(r, i, j, k, y, x) == minus(At(a, i, j, k, y, x), At(b, i, j, k, y, x))
  {
    var d := a.dims;
    Latent(d,
      seq(d.batch, i requires 0 <= i < d.batch =>
        ZipSample(a.elems[i], b.elems[i], d.channels, d.frames, d.height, d.width, minus)))
  }
}
