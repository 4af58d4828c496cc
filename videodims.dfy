/** Pixel-space dimensions for the rotary position embedding request.  The video
    autoencoder compresses time by 4 (keeping the first frame) and space by 8, so the
    latent frame count, height and width are mapped back to pixel units. */
module VideoDims {

  const TemporalRatio: int := 4
  const SpatialRatio: int := 8

  /** `(num_frames - 1) * 4 + 1`. */
  function VideoLength(numFrames: int): (n: int)
    ensures (n - 1) % TemporalRatio == 0
    ensures LatentFrames(n) == numFrames
  {
    (numFrames - 1) * TemporalRatio + 1
  }

  /** `h * 8`. */
  function VideoHeight(h: int): (n: int)
    ensures n % SpatialRatio == 0 && LatentSide(n) == h
  {
    h * SpatialRatio
  }

  /** `w * 8`. */
  function VideoWidth(w: int): (n: int)
    ensures n % SpatialRatio == 0 && LatentSide(n) == w
  {
    w * SpatialRatio
  }

  /** The autoencoder's temporal compression, the inverse of `VideoLength`. */
  function LatentFrames(n: int): int {
    (n - 1) / TemporalRatio + 1
  }

  /** The autoencoder's spatial compression, the inverse of `VideoHeight` and `VideoWidth`. */
  function LatentSide(n: int): int {
    n / SpatialRatio
  }

  /** A clip with at least one latent frame has at least one pixel frame, and each
      further latent frame adds four. */
  lemma VideoLengthGrowth(f: int)
    requires f >= 1
    ensures VideoLength(f) >= 1
    ensures VideoLength(f + 1) == VideoLength(f) + TemporalRatio
  {
  }

  /** Five latent frames of 8 by 8 ask for a 17-frame video of 64 by 64 pixels. */
  lemma FiveFramesExample()
    ensures VideoLength(5) == 17 && VideoHeight(8) == 64 && VideoWidth(8) == 64
  {
  }
}
