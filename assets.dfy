/**
 * Engine assets the dialogue system only passes around. A sprite or an audio
 * clip is never inspected, so each is an opaque identifier; a null asset
 * reference is `None` of `Wrappers.Option`.
 */
module Assets {

  /** A portrait image (a `Sprite` asset). */
  datatype SpriteId = SpriteId(asset: nat)

  /** A sound asset (an `AudioClip`). */
  datatype AudioClipId = AudioClipId(asset: nat)

}
