/**
 * The audio-readiness flag (src/lib/audio/audioContext.ts): a module-level
 * boolean that starts false, is set once the user has interacted, and can
 * be cleared again.
 */
module AudioContext {

  class AudioContextState {
    /** `audioContextInitialized`. */
    var initialized: bool

    constructor ()
      ensures !initialized
    {
      initialized := false;
    }

    /** `isAudioContextReady`: the flag as it is. */
    method IsReady() returns (ready: bool)
      ensures ready == initialized
    {
      ready := initialized;
    }

    /**
     * `initializeAudioContext`: always reports success and leaves the flag
     * set; when it was already set nothing changes.
     */
    method Initialize() returns (ok: bool)
      modifies this
      ensures ok && initialized
      ensures old(initialized) ==> unchanged(this)
    {
      if initialized {
        return true;
      }
      initialized := true;
      ok := true;
    }

    /** `resetAudioContext`: the flag is cleared. */
    method Reset()
      modifies this
      ensures !initialized
    {
      initialized := false;
    }
  }

  /** A reset followed by an initialize leaves the context ready again, and a second initialize changes nothing. */
  method ResetThenInitialize(c: AudioContextState) returns (first: bool, second: bool)
    modifies c
    ensures first && second && c.initialized
  {
    c.Reset();
    var before := c.IsReady();
    assert !before;
    first := c.Initialize();
    second := c.Initialize();
  }
}
