/** AudienceInterruption: a configured pair of an optional animation and an
    optional sound, never changed after it is configured. */
module Interruption {

  /** An engine audio-clip reference; NoClip stands for an unset (null) field. */
  datatype AudioClip = NoClip | Clip(handle: nat)

  /** An engine animation reference; NoAnimation stands for an unset (null) field. */
  datatype Animation = NoAnimation | Anim(handle: nat)

  datatype AudienceInterruption = AudienceInterruption(movementAnimation: Animation, noise: AudioClip)
}
