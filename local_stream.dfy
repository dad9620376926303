/**
 * `useLocalStream`: one optional camera/microphone stream, started from a
 * settled `getUserMedia` and stopped track by track.
 */
module LocalStream {
  import opened Browser

  class LocalStreamHook {
    var stream: MediaStream?

    constructor ()
      ensures stream == null && !IsStreamActive()
    {
      stream := null;
    }

    /** `isStreamActive`. */
    function IsStreamActive(): (active: bool)
      reads this
      ensures active <==> stream != null
    {
      stream != null
    }

    /**
     * `startStream`: on success the acquired stream replaces the held one,
     * whose tracks are left running; on failure (only logged) nothing changes.
     */
    method StartStream(media: UserMedia)
      modifies this`stream
      ensures media.Granted? ==> stream == media.stream && IsStreamActive()
      ensures media.Denied? ==> stream == old(stream)
      ensures old(stream) != null ==> forall t :: t in old(stream).tracks ==> t.stopped == old(t.stopped)
    {
      match media
      case Granted(s) =>
        stream := s;
      case Denied(_) =>
    }

    /** `stopStream`: stops every track of a held stream and forgets it; without a stream it does nothing. */
    method StopStream()
      modifies this`stream, TracksOf(stream)
      ensures stream == null && !IsStreamActive()
      ensures old(stream) != null ==> forall t :: t in old(stream).tracks ==> t.stopped
    {
      if stream != null {
        StopTracks(stream);
        stream := null;
      }
    }
  }

  /** Stopping twice is harmless: the second call finds no stream and touches no track. */
  method StopStreamTwice(hook: LocalStreamHook)
    modifies hook, TracksOf(hook.stream)
    ensures hook.stream == null
    ensures old(hook.stream) != null ==> forall t :: t in old(hook.stream).tracks ==> t.stopped
  {
    hook.StopStream();
    hook.StopStream();
  }
}
