/**
 * `useCameraScanner`: a camera stream, an error message and the video
 * element the stream is shown in. `createEffect` is `SyncVideo`, to be run
 * after each change of the stream or the element; `onCleanup` runs
 * `StopCamera`. `requested` counts the `getUserMedia` calls.
 */
module Scanner {
  import opened Wrappers
  import opened Browser

  const NoVideoElement: string := "ビデオ要素がまだ設定されていません。"
  const PermissionDenied: string := "カメラへのアクセスが許可されていません。"
  const CameraNotFound: string := "利用可能なカメラが見つかりません。"
  const CameraInUse: string := "カメラが他のアプリケーションで使用されている可能性があります。"
  const AccessErrorPrefix: string := "カメラへのアクセス中にエラーが発生しました: "
  const UnknownAccessError: string := "カメラへのアクセス中に不明なエラーが発生しました。"
  const PlaybackFailed: string := "ビデオの再生に失敗しました。"

  /** The message `startCamera` shows for a rejected `getUserMedia`. */
  function AccessErrorMessage(e: AccessError): (msg: string)
    ensures msg != NoVideoElement && msg != PlaybackFailed
  {
    match e
    case DomException(name, message) =>
      if name == "NotAllowedError" then PermissionDenied
      else if name == "NotFoundError" then CameraNotFound
      else if name == "NotReadableError" then CameraInUse
      else AccessErrorPrefix + message
    case OtherError => UnknownAccessError
  }

  /** The causes a user can tell apart. */
  datatype Cause = NotAllowed | NotFound | NotReadable | OtherDomException(message: string) | Unknown

  function CauseOf(e: AccessError): Cause {
    match e
    case DomException(name, message) =>
      if name == "NotAllowedError" then NotAllowed
      else if name == "NotFoundError" then NotFound
      else if name == "NotReadableError" then NotReadable
      else OtherDomException(message)
    case OtherError => Unknown
  }

  class CameraScanner {
    var stream: MediaStream?
    var error: Option<string>
    var videoElement: VideoElement?
    ghost var requested: nat

    /** A stream is only ever acquired once an element is set, and the element is never unset. */
    ghost predicate Valid()
      reads this
    {
      videoElement == null ==> stream == null
    }

    /** `isCameraActive`. */
    function IsCameraActive(): (active: bool)
      reads this
      ensures active <==> stream != null
    {
      stream != null
    }

    constructor ()
      ensures Valid()
      ensures stream == null && error == None && videoElement == null && requested == 0
      ensures !IsCameraActive()
    {
      stream := null;
      error := None;
      videoElement := null;
      requested := 0;
    }

    /** `setVideoRef`. */
    method SetVideoRef(element: VideoElement)
      requires Valid()
      modifies this`videoElement
      ensures Valid() && videoElement == element
    {
      videoElement := element;
    }

    /**
     * `startCamera`: clears the error; refuses without a video element;
     * does nothing more while active; otherwise asks `getUserMedia` once and
     * stores the stream or the message for the failure.
     */
    method StartCamera(media: UserMedia)
      requires Valid()
      modifies this`stream, this`error, this`requested
      ensures Valid() && videoElement == old(videoElement)
      ensures old(videoElement) == null ==>
                error == Some(NoVideoElement) && stream == null && requested == old(requested)
      ensures old(videoElement) != null && old(IsCameraActive()) ==>
                error == None && stream == old(stream) && requested == old(requested)
      ensures old(videoElement) != null && !old(IsCameraActive()) ==>
                requested == old(requested) + 1 &&
                match media
                case Granted(s) => stream == s && error == None && IsCameraActive()
                case Denied(e) => stream == null && error == Some(AccessErrorMessage(e)) && !IsCameraActive()
    {
      error := None;
      if videoElement == null {
        error := Some(NoVideoElement);
        return;
      }
      if IsCameraActive() {
        return;
      }
      requested := requested + 1;
      match media
      case Granted(s) =>
        stream := s;
      case Denied(e) =>
        error := Some(AccessErrorMessage(e));
        stream := null;
    }

    /** `stopCamera` (also the `onCleanup`): stops and forgets a held stream, and always clears the error. */
    method StopCamera()
      requires Valid()
      modifies this`stream, this`error, TracksOf(stream)
      ensures Valid() && stream == null && error == None && !IsCameraActive()
      ensures old(stream) != null ==> forall t :: t in old(stream).tracks ==> t.stopped
    {
      var currentStream := stream;
      if currentStream != null {
        StopTracks(currentStream);
        stream := null;
      }
      error := None;
    }

    /**
     * The `createEffect`. With an element and a stream: attach it muted and
     * inline and play; a failed play records an error and calls `stopCamera`,
     * which clears it again, and the effect re-runs without a stream. With an
     * element and no stream: detach and pause. Without an element: nothing.
     */
    method SyncVideo(playOk: bool)
      requires Valid()
      modifies this`stream, this`error, videoElement, TracksOf(stream)
      ensures Valid() && videoElement == old(videoElement)
      ensures old(videoElement) == null ==> stream == old(stream) && error == old(error)
      ensures old(videoElement) != null && old(stream) != null && playOk ==>
                stream == old(stream) && error == old(error) &&
                videoElement.srcObject == stream && videoElement.muted && videoElement.playsInline &&
                !videoElement.paused
      ensures old(stream) != null && (old(videoElement) == null || playOk) ==>
                forall t :: t in old(stream).tracks ==> t.stopped == old(t.stopped)
      ensures old(videoElement) != null && old(stream) != null && !playOk ==>
                stream == null && error == None &&
                videoElement.srcObject == null && videoElement.paused &&
                videoElement.muted && videoElement.playsInline &&
                forall t :: t in old(stream).tracks ==> t.stopped
      ensures old(videoElement) != null && old(stream) == null ==>
                stream == null && error == old(error) &&
                videoElement.srcObject == null && videoElement.paused &&
                videoElement.muted == old(videoElement.muted) &&
                videoElement.playsInline == old(videoElement.playsInline)
    {
      var element := videoElement;
      if element == null {
        return;
      }
      var currentStream := stream;
      if currentStream != null {
        element.srcObject := currentStream;
        element.muted := true;
        element.playsInline := true;
        if playOk {
          element.paused := false;
        } else {
          error := Some(PlaybackFailed);
          StopCamera();
          // the stream changed, so the effect runs again, now without a stream
          element.srcObject := null;
          element.paused := true;
        }
      } else {
        element.srcObject := null;
        element.paused := true;
      }
    }
  }

  // -----------------------------------------------------------------------
  // Lemmas
  // -----------------------------------------------------------------------

  /** The error message tells the causes apart: two failures show the same message exactly when they have the same cause. */
  lemma {:induction false} MessageIdentifiesCause(e1: AccessError, e2: AccessError)
    ensures AccessErrorMessage(e1) == AccessErrorMessage(e2) <==> CauseOf(e1) == CauseOf(e2)
  {
    if CauseOf(e1) != CauseOf(e2) {
      FixedMessagesDiffer(e1);
      FixedMessagesDiffer(e2);
    }
  }

  /** Each fixed message differs from the others and from every `AccessErrorPrefix` message. */
  lemma FixedMessagesDiffer(e: AccessError)
    ensures CauseOf(e).OtherDomException? <==> (
              |AccessErrorMessage(e)| >= |AccessErrorPrefix| &&
              AccessErrorMessage(e)[..|AccessErrorPrefix|] == AccessErrorPrefix)
    ensures CauseOf(e) == NotAllowed <==> AccessErrorMessage(e) == PermissionDenied
    ensures CauseOf(e) == NotFound <==> AccessErrorMessage(e) == CameraNotFound
    ensures CauseOf(e) == NotReadable <==> AccessErrorMessage(e) == CameraInUse
    ensures CauseOf(e) == Unknown <==> AccessErrorMessage(e) == UnknownAccessError
  {
    assert PermissionDenied[9] != AccessErrorPrefix[9];
    assert CameraNotFound[0] != AccessErrorPrefix[0];
    assert CameraInUse[3] != AccessErrorPrefix[3];
    assert UnknownAccessError[11] != AccessErrorPrefix[11];
    assert PermissionDenied[0] != CameraNotFound[0];
    assert PermissionDenied[3] != CameraInUse[3];
    assert PermissionDenied[9] != UnknownAccessError[9];
    assert CameraNotFound[0] != CameraInUse[0];
    assert CameraNotFound[0] != UnknownAccessError[0];
    assert CameraInUse[3] != UnknownAccessError[3];
  }

  /**
   * The scenarios of the hook's test file, driven through `setVideoRef`
   * (the hook takes no argument) and with the effect run after each change.
   */
  method TestScenarios(videoId: nat) returns (missingElementError: Option<string>, attached: bool, deniedError: Option<string>)
    ensures missingElementError == Some(NoVideoElement)
    ensures attached
    ensures deniedError == Some(PermissionDenied)
  {
    // initial state: inactive, no error
    var scanner := new CameraScanner();
    assert !scanner.IsCameraActive() && scanner.error == None;

    // no video element: the missing-element error, still inactive
    var noStream := new MediaStream([]);
    scanner.StartCamera(Granted(noStream));
    assert !scanner.IsCameraActive() && scanner.error == Some(NoVideoElement);
    missingElementError := scanner.error;

    // success path: active, no error, stream attached muted and inline; stop clears everything
    var track := new MediaStreamTrack(videoId);
    var fakeStream := new MediaStream([track]);
    var video := new VideoElement();
    scanner := new CameraScanner();
    scanner.SetVideoRef(video);
    scanner.SyncVideo(true);
    scanner.StartCamera(Granted(fakeStream));
    scanner.SyncVideo(true);
    assert scanner.IsCameraActive() && scanner.error == None;
    assert video.srcObject == fakeStream && video.muted && video.playsInline;
    attached := video.srcObject == fakeStream && video.muted && video.playsInline;
    scanner.StopCamera();
    scanner.SyncVideo(true);
    assert track.stopped && !scanner.IsCameraActive() && scanner.error == None;
    assert video.srcObject == null;

    // NotAllowedError: inactive, permission message
    scanner := new CameraScanner();
    var element := new VideoElement();
    scanner.SetVideoRef(element);
    scanner.StartCamera(Denied(DomException("NotAllowedError", "Denied")));
    assert !scanner.IsCameraActive() && scanner.error == Some(PermissionDenied);
    deniedError := scanner.error;
  }
}
