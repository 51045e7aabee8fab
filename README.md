# ID-card face verification: a Dafny model

This project models the two pieces of sequential logic inside ArcSoft's Android
ID-card verification demo and proves properties about them.

**1. The verification state machine of `MainActivity`.** An ID-card photo is submitted
to the face engine under the tag -2. Live preview frames are submitted under their
first face's track id, and a per-track-id status map (SEARCHING / FAILED) prevents
submitting a face again while its request is pending (SEARCHING); a FAILED id is
submitted again. When both features are back, `compare` asks the engine for a
similarity score. The comparison succeeds when the score is above 0.82. After it, both
ready flags drop, the pending timers are cancelled, and a restart timer brings back the
"put ID card" prompt. The stored features and the status map are kept. A read timeout
abandons an ID card that never met a face.

- `IdCardVerification.MainActivity` is a class over the activity's own fields. Each
  handler is a method proved to leave the object in the state that the matching
  transition function of `VerificationSpec` computes from the old state.
- `VerificationSpec` holds the session value, the transition functions and an
  event-sequence fold `Run`. The properties are proved there: the request guard, the
  dedup of SEARCHING ids, compare-only-when-both-ready, the reset after a result, the
  read timeout, and an invariant that holds across every run.
- The face engine is an oracle. Each handler receives the engine's answer as a
  parameter: the detection result, the extraction callback's error code and feature,
  and the comparison score as a `real`. The extraction requests the activity issues
  are appended to a log of tags. The comparisons it runs are appended to a log of
  (reference, live, score) triples.
- Each `Handler` timer is a count of pending posts. `postDelayed` adds one post.
  `removeCallbacks` sets the count to zero. Firing the timer runs one pending post.

**2. Camera configuration in `CameraHelper`.**

- `CameraGeometry` holds the pure arithmetic:
  - Java's truncating `/` and `%`;
  - the display orientation that `getCameraOri` derives from the screen rotation, the
    extra rotation and the camera's facing and sensor orientation;
  - the comparator;
  - the in-place sort of the supported preview sizes on an array;
  - the closest-ratio scan of `getBestSupportedSize`.
- `CameraHelperModel.CameraHelper` is a class over the helper's fields. The Android
  `Camera` object is reduced to a `cameraOpen` flag. What the device reports comes in
  as parameters: the number of cameras, each camera's facing and sensor orientation,
  the supported and default preview sizes, and whether the preview started. Every
  call on the `CameraListener` is appended to an event trace.

## Model

| member | source | states |
|---|---|---|
| IdCardVerification.MainActivity.constructor | app/src/main/java/com/arcsoft/idcardveridemo/MainActivity.java:81-113 | The activity starts with neither side ready, the reader flag up, no stored features, an empty status map, no pending timer posts and the "put ID card" prompt. |
| IdCardVerification.MainActivity.OnPreview | app/src/main/java/com/arcsoft/idcardveridemo/MainActivity.java:321-346 | A frame changes the state exactly as `PreviewStep` says. Exactly one request, tagged with the first face's track id, is logged when `RequestDue` holds; otherwise the request log is unchanged. |
| IdCardVerification.MainActivity.OnFaceFeatureInfoGet | app/src/main/java/com/arcsoft/idcardveridemo/MainActivity.java:266-293 | The extraction callback followed by the compare it schedules changes the state exactly as `FeatureStep` says: a failure only marks its tag FAILED; tag -2 goes to the ID-card branch; any other tag goes to the live branch. |
| IdCardVerification.MainActivity.OnIdCardFeature | app/src/main/java/com/arcsoft/idcardveridemo/MainActivity.java:273-284 | The ID-card branch sets the ready flag, stores the reference, cancels pending restarts, adds one read-timeout post, then compares. |
| IdCardVerification.MainActivity.OnLiveFeature | app/src/main/java/com/arcsoft/idcardveridemo/MainActivity.java:286-291 | The live branch stores the feature, sets the live flag, then compares. |
| IdCardVerification.MainActivity.Compare | app/src/main/java/com/arcsoft/idcardveridemo/MainActivity.java:428-470 | compare changes the state exactly as `CompareStep` says. |
| IdCardVerification.MainActivity.ShowResult | app/src/main/java/com/arcsoft/idcardveridemo/MainActivity.java:439-462 | With both sides ready: one comparison of the stored features, the sound and panel for the score, then the reset. |
| IdCardVerification.MainActivity.EndSession | app/src/main/java/com/arcsoft/idcardveridemo/MainActivity.java:458-462 | The reset lowers both ready flags, raises the reader flag, cancels the read timeout and adds one restart post; nothing else changes. |
| IdCardVerification.MainActivity.InputIdCard | app/src/main/java/com/arcsoft/idcardveridemo/MainActivity.java:522-545 | The ID card is submitted under tag -2 exactly when there is a bitmap, it converts, and detection finds a face (`InputIdCardStep`). |
| IdCardVerification.MainActivity.OnClickIdCard | app/src/main/java/com/arcsoft/idcardveridemo/MainActivity.java:505-520 | The sample name is taken, the decoded bitmap (or none) is kept, then the card is input (`ClickIdCardStep`). |
| IdCardVerification.MainActivity.FireReadTimeout | app/src/main/java/com/arcsoft/idcardveridemo/MainActivity.java:144-148 | One pending read-timeout post runs (`ReadTimeoutStep`). |
| IdCardVerification.MainActivity.FireRestart | app/src/main/java/com/arcsoft/idcardveridemo/MainActivity.java:151 | One pending restart post runs and brings back the "put ID card" prompt. |
| IdCardVerification.MainActivity.FireSound | app/src/main/java/com/arcsoft/idcardveridemo/MainActivity.java:154 | One pending sound post runs and plays the "look at the screen" sound. |
| VerificationSpec.PreviewRequestGuard | app/src/main/java/com/arcsoft/idcardveridemo/MainActivity.java:329-344 | A request is issued iff detection succeeded with a face, the ID card is ready and the first track id has no entry or a FAILED one. It is exactly one request, tagged with that id, and the id becomes SEARCHING. Otherwise the frame changes nothing. |
| VerificationSpec.PreviewSkipsSearching | app/src/main/java/com/arcsoft/idcardveridemo/MainActivity.java:340-343 | A frame whose first face is SEARCHING changes nothing. |
| VerificationSpec.FailedExtractionOnlyMarks | app/src/main/java/com/arcsoft/idcardveridemo/MainActivity.java:268-271 | A failed extraction sets its tag to FAILED and changes nothing else, for tag -2 as well. |
| VerificationSpec.ReferenceExtracted | app/src/main/java/com/arcsoft/idcardveridemo/MainActivity.java:273-284 | A successful ID-card extraction stores the reference, leaves the map and the request log alone, and then does one of two things. With no live side it prompts "look at camera", cancels restarts, adds one read-timeout post and adds one sound post. With a live side it compares the new reference once and resets. Both outcomes are stated as whole-session equations, so every other field is unchanged. |
| VerificationSpec.LiveExtracted | app/src/main/java/com/arcsoft/idcardveridemo/MainActivity.java:286-291 | A successful live extraction stores the feature and sets the live flag even without the ID card (and then changes nothing else). It leaves the status map alone, so the id stays SEARCHING. It compares once exactly when the ID card is ready. |
| VerificationSpec.CompareOnlyWhenBothReady | app/src/main/java/com/arcsoft/idcardveridemo/MainActivity.java:428-438 | compare calls the engine iff both sides are ready. Without the ID card it changes nothing. With the card but no live side it only shows "look at camera" and adds one sound post. |
| VerificationSpec.CompareDecides | app/src/main/java/com/arcsoft/idcardveridemo/MainActivity.java:439-462 | With both sides ready, compare runs one comparison of the two stored features. It succeeds iff the score is above 0.82 (strict). Success shows the card name with the success sound; failure shows the retry hint with the failure sound. Then it lowers both flags, raises the reader flag, cancels the sound and read posts and adds one restart post. The map and the features are kept. |
| VerificationSpec.ReadTimeoutResets | app/src/main/java/com/arcsoft/idcardveridemo/MainActivity.java:144-148 | The read timeout raises the reader flag, lowers the ID-card flag and shows "put ID card". Both features, the live flag and the status map are untouched. |
| VerificationSpec.StepExtends | app/src/main/java/com/arcsoft/idcardveridemo/MainActivity.java:113 | Any single event only appends to the request and comparison logs and only adds status-map keys. |
| VerificationSpec.RunExtendsRequests | app/src/main/java/com/arcsoft/idcardveridemo/MainActivity.java:338-344 | Over any sequence of events, the request and comparison logs only grow by appending. |
| VerificationSpec.StatusNeverCleared | app/src/main/java/com/arcsoft/idcardveridemo/MainActivity.java:113 | Over any sequence of events, a track id once in the status map keeps an entry: the map is never cleared. |
| VerificationSpec.StepKeepsSearching | app/src/main/java/com/arcsoft/idcardveridemo/MainActivity.java:338-344 | An event other than a failed extraction for a SEARCHING id keeps the id SEARCHING and issues no request for it. |
| VerificationSpec.SearchingNeverReRequested | app/src/main/java/com/arcsoft/idcardveridemo/MainActivity.java:338-344 | Once a track id is SEARCHING, no later request carries it, however many events follow, until an extraction for it fails. A successful extraction does not free it. |
| VerificationSpec.InitialSettled | app/src/main/java/com/arcsoft/idcardveridemo/MainActivity.java:81-113 | The initial session satisfies the between-events invariant `Settled`. |
| VerificationSpec.StepKeepsSettled | app/src/main/java/com/arcsoft/idcardveridemo/MainActivity.java:428-462 | Every event keeps `Settled`: the activity never rests with both sides ready, and every live request has a status entry. |
| VerificationSpec.RunKeepsSettled | app/src/main/java/com/arcsoft/idcardveridemo/MainActivity.java:428-462 | `Settled` holds after any sequence of events from a settled session. |
| VerificationSpec.SuccessScenario | app/src/main/java/com/arcsoft/idcardveridemo/MainActivity.java:266-293 | The sequence is: card clicked and extracted, face 7 seen and extracted, score 0.90. The run shows success with the card's name, logs requests [-2, 7] and one comparison, leaves 7 SEARCHING and posts one restart, which restores the prompt. |
| VerificationSpec.TimeoutScenario | app/src/main/java/com/arcsoft/idcardveridemo/MainActivity.java:144-148 | The card is extracted and the read timeout fires: the prompt is back, the card is no longer ready (so frames request nothing), and the reference feature is kept. |
| VerificationSpec.RetryAfterFailure | app/src/main/java/com/arcsoft/idcardveridemo/MainActivity.java:268-271 | After a failed extraction for track id 3, the next frame with face 3 requests it again and marks it SEARCHING. |
| CameraGeometry.RotationDegrees | app/src/main/java/com/arcsoft/idcardveridemo/camera/CameraHelper.java:76-92 | The switch on the screen rotation gives `rotation * 90`, in the four named cases and in the default one (with unbounded integers; see "Left out"). |
| CameraGeometry.NormalizeRotation | app/src/main/java/com/arcsoft/idcardveridemo/camera/CameraHelper.java:93-94 | The extra rotation is cut toward zero to a multiple of 90: the largest multiple not above it when it is non-negative, the smallest not below it when it is negative. |
| CameraGeometry.NormalizeIdempotent | app/src/main/java/com/arcsoft/idcardveridemo/camera/CameraHelper.java:93-94 | Normalising twice is normalising once, so a second getCameraOri leaves the field as it is. |
| CameraGeometry.Orientation | app/src/main/java/com/arcsoft/idcardveridemo/camera/CameraHelper.java:99-104 | The result lies strictly between -360 and 360. Front-facing: it is non-negative and cancels sensor + degrees modulo 360. Back-facing: it is congruent to sensor - degrees modulo 360, non-negative when sensor - degrees + 360 is and non-positive otherwise, which leaves exactly one value (`BackOrientationDetermined`). |
| CameraGeometry.BackOrientationDetermined | app/src/main/java/com/arcsoft/idcardveridemo/camera/CameraHelper.java:102-104 | Any value in range that is congruent with the back-camera formula and has its sign is exactly `Orientation`: the contract determines the result. |
| CameraGeometry.BackOrientationZeroFromNegative | app/src/main/java/com/arcsoft/idcardveridemo/camera/CameraHelper.java:102-104 | A back camera with sensor 0 and 720 degrees gives 0: a dividend of -360 leaves no remainder, so a negative dividend does not always give a negative result. |
| CameraGeometry.OrientationIsRightAngle | app/src/main/java/com/arcsoft/idcardveridemo/camera/CameraHelper.java:96-105 | With a sensor orientation and degrees that are multiples of 90 (and, for a back camera, degrees at most sensor + 360), the result is 0, 90, 180 or 270. |
| CameraGeometry.DemoOrientationIsRightAngle | app/src/main/java/com/arcsoft/idcardveridemo/camera/CameraHelper.java:75-106 | With rotation 0..3, no extra rotation and a sensor orientation of 0, 90, 180 or 270, the result is 0, 90, 180 or 270. |
| CameraGeometry.FrontSensor270Example | app/src/main/java/com/arcsoft/idcardveridemo/camera/CameraHelper.java:99-101 | A front camera with sensor 270 at rotation 0 gives 90. |
| CameraGeometry.BackOrientationCanBeNegative | app/src/main/java/com/arcsoft/idcardveridemo/camera/CameraHelper.java:102-104 | A back camera with sensor 90, rotation 3 and extra rotation 270 gives -90: Java's `%` keeps the sign. |
| CameraGeometry.CompareSizes | app/src/main/java/com/arcsoft/idcardveridemo/camera/CameraHelper.java:224-235 | The comparator answers only -1 or 1, and -1 exactly when the first size is wider, or equally wide and taller. |
| CameraGeometry.CompareSizesOnPairs | app/src/main/java/com/arcsoft/idcardveridemo/camera/CameraHelper.java:224-235 | The comparator is antisymmetric on distinct sizes, but compares a size with itself as 1, never 0. |
| CameraGeometry.SortSizes | app/src/main/java/com/arcsoft/idcardveridemo/camera/CameraHelper.java:222-236 | The array ends sorted widest first, then tallest, and holds the same multiset of sizes. |
| CameraGeometry.InsertAt | app/src/main/java/com/arcsoft/idcardveridemo/camera/CameraHelper.java:224-235 | One insertion step extends the sorted prefix by one and keeps the multiset of sizes. |
| CameraGeometry.SortedUnique | app/src/main/java/com/arcsoft/idcardveridemo/camera/CameraHelper.java:222-236 | Any two lists that are sorted by the comparator's order and hold the same sizes are equal. Every correct sort, `Arrays.sort` included, therefore produces the list `SortSizes` produces. |
| CameraGeometry.Largest | app/src/main/java/com/arcsoft/idcardveridemo/camera/CameraHelper.java:238 | The first size after sorting is a supported size that no supported size comes before. |
| CameraGeometry.SortedLargest | app/src/main/java/com/arcsoft/idcardveridemo/camera/CameraHelper.java:236-238 | A sorted permutation has the same members and starts with `Largest`. |
| CameraGeometry.TargetRatio | app/src/main/java/com/arcsoft/idcardveridemo/camera/CameraHelper.java:239-248 | The target ratio is the view's ratio (or the largest size's ratio) folded into (0, 1]. |
| CameraGeometry.Distance | app/src/main/java/com/arcsoft/idcardveridemo/camera/CameraHelper.java:255-263 | The distance of a size's ratio from the target is non-negative. |
| CameraGeometry.BestSupportedSize | app/src/main/java/com/arcsoft/idcardveridemo/camera/CameraHelper.java:219-266 | With no sizes it returns the current preview size. With a supported requested size it returns that size. Otherwise it returns a supported size at minimal ratio distance, and no equally distant size sorts before it. The ratio is height/width when the extra rotation is a multiple of 180, else width/height. |
| CameraGeometry.ScanSorted | app/src/main/java/com/arcsoft/idcardveridemo/camera/CameraHelper.java:250-265 | The loop returns the requested size as soon as it is met. Otherwise it keeps a minimal-distance size, the first one met thanks to the strict `<`. |
| CameraGeometry.SixteenNineExample | app/src/main/java/com/arcsoft/idcardveridemo/camera/CameraHelper.java:219-266 | Supported sizes are 640x480, 1280x720 and 1920x1080, on a 1920x1080 view. Both 16:9 sizes match exactly, and the choice is 1920x1080, which sorts first. |
| CameraHelperModel.MirrorCheck | app/src/main/java/com/arcsoft/idcardveridemo/camera/CameraHelper.java:52-56 | The constructor's mirror check throws iff the view is not a TextureView and the field it tests is set. On a TextureView the requested mirror is taken; otherwise the field keeps its value. |
| CameraHelperModel.MirrorCheckNeverThrows | app/src/main/java/com/arcsoft/idcardveridemo/camera/CameraHelper.java:52-56 | The field tested is still false at that point, so the check never throws: mirroring survives only on a TextureView. |
| CameraHelperModel.ChooseCameraId | app/src/main/java/com/arcsoft/idcardveridemo/camera/CameraHelper.java:116-121 | The chosen id is the specific id when one is set and is at most n-1; otherwise it is n-1. It is never above n-1. |
| CameraHelperModel.SwitchToggles | app/src/main/java/com/arcsoft/idcardveridemo/camera/CameraHelper.java:383-390 | With two cameras, switching from 0 opens 1 and from 1 opens 0; switching twice returns to the first. |
| CameraHelperModel.CameraHelper.constructor | app/src/main/java/com/arcsoft/idcardveridemo/camera/CameraHelper.java:44-57 | The fields are taken from the builder. Mirroring is kept only on a TextureView. The camera is closed and the picture latch is down. |
| CameraHelperModel.CameraHelper.GetCameraOri | app/src/main/java/com/arcsoft/idcardveridemo/camera/CameraHelper.java:75-106 | The field `additionalRotation` is overwritten with its normalised value. The result is `Orientation` of the rotation's degrees plus that value. |
| CameraHelperModel.CameraHelper.Start | app/src/main/java/com/arcsoft/idcardveridemo/camera/CameraHelper.java:108-179 | Start does nothing when the camera is open. Otherwise it chooses the id and records it as the specific id. With id -1 it reports "not found" (with a listener) and stays closed. Otherwise it opens the camera, sets the orientation and the chosen preview size, and reports opened or a configuration error; the camera stays open in both cases. |
| CameraHelperModel.CameraHelper.Open | app/src/main/java/com/arcsoft/idcardveridemo/camera/CameraHelper.java:132-177 | Opening sets the display orientation and the chosen preview size. The normalised extra rotation decides the ratio's direction. The listener hears opened (with id, orientation and mirror) or a configuration error. |
| CameraHelperModel.CameraHelper.Stop | app/src/main/java/com/arcsoft/idcardveridemo/camera/CameraHelper.java:181-199 | Afterwards the camera is closed. If it was already closed nothing is reported; otherwise "closed" is reported exactly once (with a listener). |
| CameraHelperModel.CameraHelper.IsStopped | app/src/main/java/com/arcsoft/idcardveridemo/camera/CameraHelper.java:201-205 | The result is true iff the camera is closed. |
| CameraHelperModel.CameraHelper.Release | app/src/main/java/com/arcsoft/idcardveridemo/camera/CameraHelper.java:207-217 | Release stops the camera, then clears the view, the specific id, the listener and the three sizes. The rest is kept. |
| CameraHelperModel.CameraHelper.SwitchCamera | app/src/main/java/com/arcsoft/idcardveridemo/camera/CameraHelper.java:383-390 | The id opened is the choice for 1 - (specific id, or the current id when none is set), and it is exactly that id when that camera exists. The camera is open iff the id is not -1. The listener hears "closed" (when the camera was open), then "not found", "opened" or a configuration error. With a camera, the extra rotation is normalised and the orientation and preview size are derived again; without one, they are kept. The latch and the screen rotation are kept. |
| CameraHelperModel.CameraHelper.ChangeDisplayOrientation | app/src/main/java/com/arcsoft/idcardveridemo/camera/CameraHelper.java:372-381 | With the camera closed nothing changes. With it open, the new rotation is stored, the orientation is derived again and "configuration changed" is reported (with a listener). |
| CameraHelperModel.CameraHelper.TakePicture | app/src/main/java/com/arcsoft/idcardveridemo/camera/CameraHelper.java:284-286 | The picture latch is armed. |
| CameraHelperModel.CameraHelper.OnPreviewFrame | app/src/main/java/com/arcsoft/idcardveridemo/camera/CameraHelper.java:273-315 | With a listener, the frame is forwarded; if the latch was armed it is cleared and exactly one picture of the frame's size, type and orientation is delivered. Without a listener nothing happens and the latch stays as it was. |

## Left out

- The ArcSoft engine, both for detection and for feature extraction. `FaceHelper`'s
  queueing is left out with it. The engine's answers are parameters. `FaceHelper`
  delivers every result through `onFaceFeatureInfoGet`; its queue limit (5) and
  threads are not part of this model.
- Threads, `runOnUiThread` and `ConcurrentHashMap` are left out; the model is
  sequential. Each runnable posted to the UI thread runs at once inside its handler.
  Real timer delays (5000, 3000 and 500 ms) are replaced by explicit "timer fires"
  events.
- `ReadThread` is a busy loop whose card-reader calls are stubs that never succeed.
  Only the `isRead` flag it polls is kept. The `IdCardInput` event stands for the
  `inputIdCard` call it would post, without the `isRead = false` that precedes it.
- Image work is reduced to flags: bitmap decoding, 4-byte alignment, BGR conversion and
  PNG compression. The decode and the conversion become ok/fail inputs, and face
  detection on the card becomes a code and a face count.
- UI and sound details are reduced to a prompt/result value and a list of sounds
  played. Left out are MediaPlayer, Glide, views, Toast, permissions, drawing of face
  rectangles and engine initialisation.
- The name shown on success: the source shows a null name before the first click. It
  is modelled as the empty string; only `SAMPLE_NAME` is ever assigned.
- The layout file is left out; the "put ID card" prompt of the initial session stands
  for its initial tip.
- The Android `Camera` API is left out: `Camera.open`, parameters, focus modes,
  `setPreviewTexture` and `startPreview`. Any exception inside the `try` of `start` is
  the single input `previewStarts`. It is taken to happen after the preview size is
  chosen.
- Exceptions thrown outside that `try` are not modelled, such as `Camera.open` on an
  id that does not exist (for example a negative specific id other than -1).
- CameraHelperModel.CameraHelper.OnPreviewFrame: a null frame is not modelled. With a
  listener and the latch armed, the source then throws a NullPointerException at
  `nv21.clone()` (CameraHelper.java:278); the model takes the frame to be present.
- The `TextureView` and `SurfaceHolder` callbacks are left out. Apart from Camera API
  calls (handing the surface to an open camera), which are left out, their only logic
  is a call to `stop`, which is modelled.
- The flash-mode getters and setters, `getSupportedPreviewSizes` and the
  `CameraListener` interface are left out. The listener's calls are the event trace.
- JPEG compression in `takePicture` is left out. The delivered picture carries its
  size, type and orientation, not its bytes. A null picture type, which throws, is
  not modelled: the type is one of the two enum values.
- `CameraGeometry.BestSupportedSize` requires positive supported sizes and a positive
  view size. The source divides floats and would produce infinities or NaN on zero
  dimensions; those are not modelled. For the same reason the
  `CameraHelperModel.CameraHelper.constructor` requires a positive view size, although
  the Java constructor accepts any `Point`, and `CameraHelper.Valid()` keeps it positive.
- VerificationSpec.FeatureStep: the ID-card callback can arrive after its bitmap was
  cleared, for instance by a second click whose decode failed
  (MainActivity.java:510). The source then sets the ready flag, stores the feature,
  cancels the restart and posts the read timeout. It next throws a
  NullPointerException at `bmp.compress` (MainActivity.java:280) and never compares.
  The model compares as if the bitmap were present; application crashes are not
  modelled.
- VerificationSpec.InputIdCardStep: `faceHelper` stays null until the camera has opened
  (MainActivity.java:311). A card input before that crashes at
  `faceHelper.requestFaceFeature` (MainActivity.java:540). The model logs the -2
  request regardless; the camera-opened callback is not part of this model.
- CameraGeometry.Orientation, together with `CameraGeometry.RotationDegrees`,
  `CameraGeometry.NormalizeRotation` and `CameraHelperModel.CameraHelper.GetCameraOri`,
  computes with unbounded integers. It matches getCameraOri only while every
  intermediate value of CameraHelper.java:76-103 fits in a 32-bit `int`. Examples are
  `rotation * 90`, `additionalRotation * 90`, `degrees + additionalRotation` and the
  sums reduced with `% 360`. Java wraps these around; for instance an extra rotation
  near 2^31 on a front camera gives 76 where the model gives 180. Screen rotations 0..3
  and extra rotations of a few turns stay far inside that range.
- Float rounding: ratios and scores are exact reals. Near-ties that float rounding
  would break differently are not captured.
- `CameraGeometry.SortSizes` is an insertion sort, not TimSort. `SortedUnique` shows
  that the sorted list is determined, so the result is the same. TimSort could throw
  on the comparator's inconsistency with duplicate sizes in lists of 32 or more; that
  is not modelled.
- The commented-out retry in `compare` and the unused retry counters are dead code.
- The model follows the code on these points:
  - the status map is never cleared;
  - the read timeout keeps the stored reference feature;
  - the "look at the camera" sound is posted once per compare and does not repeat;
  - a successful live extraction leaves its track id SEARCHING.
