/**
 * CameraHelper: which camera is opened, its open/closed state, the display orientation
 * and preview size it is configured with, and the one-shot picture latch.
 *
 * The Android Camera object is reduced to the `cameraOpen` flag (mCamera != null);
 * what the device reports (number of cameras, each camera's facing and sensor
 * orientation, supported and default preview sizes, whether the preview could be
 * started) is passed in. The calls made on the CameraListener, when there is one,
 * are recorded in `events`.
 */
module CameraHelperModel {
  import opened Wrappers
  import opened CameraGeometry

  /** The view the preview is shown on: none set, a SurfaceView or a TextureView. */
  datatype PreviewView = NoView | SurfaceView | TextureView

  datatype PictureType = Nv21 | Jpg

  datatype CameraError = CameraNotFound | ConfigurationFailed

  /** One call on the CameraListener. */
  datatype CameraEvent =
    | Opened(cameraId: int, displayOrientation: int, mirror: bool)
    | Closed
    | Failed(error: CameraError)
    | Preview
    | ConfigurationChanged(cameraId: int, displayOrientation: int)
    | PictureTaken(width: int, height: int, kind: PictureType, displayOrientation: int)

  /** What the Builder collects. */
  datatype Builder = Builder(
    previewDisplay: PreviewView,
    isMirror: bool,
    specificCameraId: Option<int>,
    hasListener: bool,
    previewViewSize: Option<Point>,
    rotation: int,
    specificPreviewSize: Option<Point>,
    additionalRotation: int,
    takePictureType: PictureType)

  /** The mirror check of the constructor, given the builder's view and mirror request and
      the value the field `isMirror` holds when the check runs; None means it throws
      IllegalArgumentException. */
  function MirrorCheck(view: PreviewView, requested: bool, field: bool): (r: Option<bool>)
    ensures r.None? <==> view != TextureView && field
    ensures r.Some? ==> r.value == (if view == TextureView then requested else field)
  {
    if view == TextureView then Some(requested)
    else if field then None
    else Some(field)
  }

  /** As written the check tests the field, which is still false, so it never throws: a
      mirror requested on a SurfaceView is silently dropped. */
  lemma MirrorCheckNeverThrows(view: PreviewView, requested: bool)
    ensures MirrorCheck(view, requested, false) == Some(view == TextureView && requested)
  {
  }

  /** The camera id start opens: the last camera, unless a specific id is set and not
      above the last camera's id. */
  function ChooseCameraId(cameraCount: int, specific: Option<int>): (id: int)
    ensures specific.Some? && specific.value <= cameraCount - 1 ==> id == specific.value
    ensures !(specific.Some? && specific.value <= cameraCount - 1) ==> id == cameraCount - 1
    ensures id <= cameraCount - 1
  {
    var last := cameraCount - 1;
    if specific.Some? && specific.value <= last then specific.value else last
  }

  /** With two cameras, switching from either of them picks the other. */
  lemma SwitchToggles(id: int)
    requires id == 0 || id == 1
    ensures ChooseCameraId(2, Some(1 - id)) == 1 - id
    ensures ChooseCameraId(2, Some(1 - ChooseCameraId(2, Some(1 - id)))) == id
  {
  }

  /** The preview size start configures: the default one when the camera supports no
      size list, otherwise the one getBestSupportedSize picks. */
  ghost predicate ChosenPreviewSize(supported: seq<Size>, view: Option<Point>, specific: Option<Point>,
                                    additionalRotation: int, default: Size, chosen: Size)
    requires forall s :: s in supported ==> PositiveSize(s)
    requires view.Some? ==> view.value.x > 0 && view.value.y > 0
  {
    && (supported == [] ==> chosen == default)
    && (supported != [] && SpecificSupported(specific, supported) ==>
          chosen == Size(specific.value.x, specific.value.y))
    && (supported != [] && !SpecificSupported(specific, supported) ==>
          IsClosest(supported, chosen, TargetRatio(view, Largest(supported)), additionalRotation % 180 == 0))
  }

  /** The configuration fields, which only the constructor and release set. */
  datatype Settings = Settings(
    previewDisplay: PreviewView,
    previewViewSize: Option<Point>,
    specificPreviewSize: Option<Point>,
    isMirror: bool,
    hasListener: bool,
    takePictureType: PictureType)

  class CameraHelper {
    var needTakePicture: bool
    var takePictureType: PictureType
    var cameraOpen: bool
    var cameraId: int
    var previewViewSize: Option<Point>
    var previewDisplay: PreviewView
    var previewSize: Option<Size>
    var specificPreviewSize: Option<Point>
    var displayOrientation: int
    var rotation: int
    var additionalRotation: int
    var isMirror: bool
    var specificCameraId: Option<int>
    var hasListener: bool
    var events: seq<CameraEvent>

    /** The view size the preview is matched to is a real size. */
    ghost predicate Valid()
      reads this
    {
      previewViewSize.Some? ==> previewViewSize.value.x > 0 && previewViewSize.value.y > 0
    }

    ghost function CurrentSettings(): Settings
      reads this
    {
      Settings(previewDisplay, previewViewSize, specificPreviewSize, isMirror, hasListener, takePictureType)
    }

    /** Built from the Builder; the mirror flag survives only on a TextureView. */
    constructor (b: Builder)
      requires b.previewViewSize.Some? ==> b.previewViewSize.value.x > 0 && b.previewViewSize.value.y > 0
      ensures Valid()
      ensures CurrentSettings() == Settings(b.previewDisplay, b.previewViewSize, b.specificPreviewSize,
                                            b.previewDisplay == TextureView && b.isMirror,
                                            b.hasListener, b.takePictureType)
      ensures specificCameraId == b.specificCameraId
      ensures rotation == b.rotation && additionalRotation == b.additionalRotation
      ensures !cameraOpen && !needTakePicture && cameraId == 0 && displayOrientation == 0
      ensures previewSize.None? && events == []
    {
      needTakePicture := false;
      cameraOpen := false;
      cameraId := 0;
      previewSize := None;
      displayOrientation := 0;
      events := [];
      previewDisplay := b.previewDisplay;
      specificCameraId := b.specificCameraId;
      hasListener := b.hasListener;
      rotation := b.rotation;
      additionalRotation := b.additionalRotation;
      takePictureType := b.takePictureType;
      previewViewSize := b.previewViewSize;
      specificPreviewSize := b.specificPreviewSize;
      MirrorCheckNeverThrows(b.previewDisplay, b.isMirror);
      isMirror := MirrorCheck(b.previewDisplay, b.isMirror, false).value;
    }

    /** getCameraOri: normalise the extra rotation in place, then derive the display
        orientation for the screen rotation and the camera's facing and sensor. */
    method GetCameraOri(rotation: int, info: CameraInfo) returns (result: int)
      modifies this`additionalRotation
      ensures additionalRotation == NormalizeRotation(old(additionalRotation))
      ensures result == CameraOrientation(info, rotation, old(additionalRotation))
    {
      var degrees := RotationDegrees(rotation);
      additionalRotation := JavaDiv(additionalRotation, 90);
      additionalRotation := additionalRotation * 90;
      degrees := degrees + additionalRotation;
      if info.facing == Front {
        result := JavaRem(info.orientation + degrees, 360);
        result := JavaRem(360 - result, 360);
      } else {
        result := JavaRem(info.orientation - degrees + 360, 360);
      }
    }

    /** start: nothing when the camera is open; otherwise choose the camera id and record
        it as the specific id, report an error when there is no camera, else open the
        camera and configure orientation and preview size. `info` gives each camera's
        facing and sensor orientation; `previewStarts` is false when configuring or
        starting the preview throws. */
    method Start(cameraCount: nat, info: int -> CameraInfo, supported: seq<Size>, default: Size,
                 previewStarts: bool)
      requires Valid()
      requires forall s :: s in supported ==> PositiveSize(s)
      modifies this
      ensures Valid()
      ensures old(cameraOpen) ==> unchanged(this)
      ensures CurrentSettings() == old(CurrentSettings())
      ensures needTakePicture == old(needTakePicture) && rotation == old(rotation)
      ensures !old(cameraOpen) ==>
        && cameraId == ChooseCameraId(cameraCount, old(specificCameraId))
        && specificCameraId == Some(cameraId)
        && (cameraId == -1 ==>
              && !cameraOpen
              && events == old(events) + (if hasListener then [Failed(CameraNotFound)] else [])
              && additionalRotation == old(additionalRotation)
              && displayOrientation == old(displayOrientation)
              && previewSize == old(previewSize))
        && (cameraId != -1 ==>
              && cameraOpen
              && additionalRotation == NormalizeRotation(old(additionalRotation))
              && displayOrientation == CameraOrientation(info(cameraId), rotation, old(additionalRotation))
              && previewSize.Some?
              && ChosenPreviewSize(supported, previewViewSize, specificPreviewSize,
                                   additionalRotation, default, previewSize.value)
              && events == old(events) + (if !hasListener then []
                                          else if previewStarts then [Opened(cameraId, displayOrientation, isMirror)]
                                          else [Failed(ConfigurationFailed)]))
    {
      if cameraOpen {
        return;
      }
      cameraId := ChooseCameraId(cameraCount, specificCameraId);
      specificCameraId := Some(cameraId);
      if cameraId == -1 {
        if hasListener {
          events := events + [Failed(CameraNotFound)];
        }
        return;
      }
      Open(info(cameraId), supported, default, previewStarts);
    }

    /** The second half of start: open camera `cameraId`, set its display orientation and
        preview size, and tell the listener whether the preview started. */
    method Open(info: CameraInfo, supported: seq<Size>, default: Size, previewStarts: bool)
      requires Valid()
      requires forall s :: s in supported ==> PositiveSize(s)
      modifies this`cameraOpen, this`displayOrientation, this`additionalRotation, this`previewSize, this`events
      ensures cameraOpen
      ensures additionalRotation == NormalizeRotation(old(additionalRotation))
      ensures displayOrientation == CameraOrientation(info, rotation, old(additionalRotation))
      ensures previewSize.Some?
      ensures ChosenPreviewSize(supported, previewViewSize, specificPreviewSize,
                                additionalRotation, default, previewSize.value)
      ensures events == old(events) + (if !hasListener then []
                                       else if previewStarts then [Opened(cameraId, displayOrientation, isMirror)]
                                       else [Failed(ConfigurationFailed)])
    {
      cameraOpen := true;
      displayOrientation := GetCameraOri(rotation, info);
      var size := default;
      if |supported| > 0 {
        size := BestSupportedSize(supported, previewViewSize, specificPreviewSize, additionalRotation, default);
      }
      previewSize := Some(size);
      if hasListener {
        if previewStarts {
          events := events + [Opened(cameraId, displayOrientation, isMirror)];
        } else {
          events := events + [Failed(ConfigurationFailed)];
        }
      }
    }

    /** stop: nothing when the camera is closed; otherwise close it and tell the listener
        once. */
    method Stop()
      modifies this`cameraOpen, this`events
      ensures !cameraOpen
      ensures !old(cameraOpen) ==> events == old(events)
      ensures old(cameraOpen) ==> events == old(events) + (if hasListener then [Closed] else [])
    {
      if !cameraOpen {
        return;
      }
      cameraOpen := false;
      if hasListener {
        events := events + [Closed];
      }
    }

    /** isStopped: the camera is closed. */
    method IsStopped() returns (stopped: bool)
      ensures stopped <==> !cameraOpen
    {
      stopped := !cameraOpen;
    }

    /** release: stop, then forget the view, the specific camera id, the listener and the
        sizes. */
    method Release()
      modifies this
      ensures !cameraOpen
      ensures events == old(events) + (if old(cameraOpen) && old(hasListener) then [Closed] else [])
      ensures previewDisplay == NoView && specificCameraId.None? && !hasListener
      ensures previewViewSize.None? && specificPreviewSize.None? && previewSize.None?
      ensures Valid()
      ensures cameraId == old(cameraId) && needTakePicture == old(needTakePicture)
      ensures isMirror == old(isMirror) && takePictureType == old(takePictureType)
      ensures rotation == old(rotation) && additionalRotation == old(additionalRotation)
      ensures displayOrientation == old(displayOrientation)
    {
      Stop();
      previewDisplay := NoView;
      specificCameraId := None;
      hasListener := false;
      previewViewSize := None;
      specificPreviewSize := None;
      previewSize := None;
    }

    /** switchCamera: the specific id becomes 1 minus the specific id (the open id when
        none is set), then stop and start. */
    method SwitchCamera(cameraCount: nat, info: int -> CameraInfo, supported: seq<Size>, default: Size,
                        previewStarts: bool)
      requires Valid()
      requires forall s :: s in supported ==> PositiveSize(s)
      modifies this
      ensures Valid()
      ensures var toggled := 1 - (if old(specificCameraId).Some? then old(specificCameraId).value else old(cameraId));
        && cameraId == ChooseCameraId(cameraCount, Some(toggled))
        && specificCameraId == Some(cameraId)
        && (toggled <= cameraCount - 1 ==> cameraId == toggled)
        && (cameraOpen <==> cameraId != -1)
      ensures CurrentSettings() == old(CurrentSettings())
      ensures needTakePicture == old(needTakePicture) && rotation == old(rotation)
      ensures cameraId == -1 ==>
        && additionalRotation == old(additionalRotation)
        && displayOrientation == old(displayOrientation)
        && previewSize == old(previewSize)
        && events == old(events) + (if old(cameraOpen) && hasListener then [Closed] else [])
                                 + (if hasListener then [Failed(CameraNotFound)] else [])
      ensures cameraId != -1 ==>
        && additionalRotation == NormalizeRotation(old(additionalRotation))
        && displayOrientation == CameraOrientation(info(cameraId), rotation, old(additionalRotation))
        && previewSize.Some?
        && ChosenPreviewSize(supported, previewViewSize, specificPreviewSize,
                             additionalRotation, default, previewSize.value)
        && events == old(events) + (if old(cameraOpen) && hasListener then [Closed] else [])
                                 + (if !hasListener then []
                                    else if previewStarts then [Opened(cameraId, displayOrientation, isMirror)]
                                    else [Failed(ConfigurationFailed)])
    {
      if specificCameraId.None? {
        specificCameraId := Some(cameraId);
      }
      specificCameraId := Some(1 - specificCameraId.value);
      Stop();
      Start(cameraCount, info, supported, default, previewStarts);
    }

    /** changeDisplayOrientation: with the camera open, take the new screen rotation,
        derive the orientation again and tell the listener. */
    method ChangeDisplayOrientation(newRotation: int, info: int -> CameraInfo)
      modifies this`rotation, this`additionalRotation, this`displayOrientation, this`events
      ensures !old(cameraOpen) ==> unchanged(this)
      ensures old(cameraOpen) ==>
        && rotation == newRotation
        && additionalRotation == NormalizeRotation(old(additionalRotation))
        && displayOrientation == CameraOrientation(info(cameraId), newRotation, old(additionalRotation))
        && events == old(events) + (if hasListener then [ConfigurationChanged(cameraId, displayOrientation)] else [])
    {
      if cameraOpen {
        rotation := newRotation;
        displayOrientation := GetCameraOri(newRotation, info(cameraId));
        if hasListener {
          events := events + [ConfigurationChanged(cameraId, displayOrientation)];
        }
      }
    }

    /** takePicture(): arm the latch for the next frame. */
    method TakePicture()
      modifies this`needTakePicture
      ensures needTakePicture
    {
      needTakePicture := true;
    }

    /** onPreviewFrame: with a listener, forward the frame, then, if the latch is armed,
        clear it and deliver exactly one picture of the frame's size. Without a listener
        nothing happens and the latch stays as it was. */
    method OnPreviewFrame(frameSize: Size)
      modifies this`needTakePicture, this`events
      ensures !hasListener ==> needTakePicture == old(needTakePicture) && events == old(events)
      ensures hasListener ==> !needTakePicture
      ensures hasListener ==>
        events == old(events) + [Preview] +
                  (if old(needTakePicture)
                   then [PictureTaken(frameSize.width, frameSize.height, takePictureType, displayOrientation)]
                   else [])
    {
      if hasListener {
        events := events + [Preview];
        if needTakePicture {
          needTakePicture := false;
          events := events + [PictureTaken(frameSize.width, frameSize.height, takePictureType, displayOrientation)];
        }
      }
    }
  }
}
