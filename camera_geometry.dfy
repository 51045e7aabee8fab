/**
 * The arithmetic CameraHelper uses to configure the camera: the display orientation
 * derived from the screen rotation, the extra rotation and the sensor, and the choice
 * of a preview size among those the camera supports.
 *
 * Java's int `/` and `%` truncate toward zero; they are written out as JavaDiv and
 * JavaRem. The float ratios of the size choice are exact reals here.
 */
module CameraGeometry {
  import opened Wrappers

  // ---------------------------------------------------------------------------
  // Java integer arithmetic
  // ---------------------------------------------------------------------------

  /** Java's `a / b` for a positive divisor: the quotient rounded toward zero. */
  function JavaDiv(a: int, b: int): int
    requires b > 0
  {
    if a >= 0 then a / b else -((-a) / b)
  }

  /** Java's `a % b` for a positive divisor: what is left after JavaDiv, carrying the
      sign of `a`. */
  function JavaRem(a: int, b: int): int
    requires b > 0
  {
    a - JavaDiv(a, b) * b
  }

  // ---------------------------------------------------------------------------
  // Display orientation
  // ---------------------------------------------------------------------------

  datatype Facing = Back | Front

  /** What Camera.getCameraInfo reports for a camera id: which way it faces and the
      fixed orientation of its sensor. */
  datatype CameraInfo = CameraInfo(facing: Facing, orientation: int)

  /** The degrees for a Surface.ROTATION_* value: the four named cases, and `rotation * 90`
      for any other value. */
  function RotationDegrees(rotation: int): (d: int)
    ensures d == rotation * 90
  {
    match rotation
    case 0 => 0
    case 1 => 90
    case 2 => 180
    case 3 => 270
    case _ => rotation * 90
  }

  /** `additionalRotation /= 90; additionalRotation *= 90;`: the extra rotation cut toward
      zero to a multiple of 90. */
  function NormalizeRotation(x: int): (r: int)
    ensures r % 90 == 0
    ensures 0 <= x ==> 0 <= r <= x < r + 90
    ensures x < 0 ==> r - 90 < x <= r <= 0
  {
    JavaDiv(x, 90) * 90
  }

  /** The orientation formula of getCameraOri for `degrees` of screen plus extra rotation:
      front cameras mirror, back cameras subtract, both reduced with Java's `%`. */
  function Orientation(info: CameraInfo, degrees: int): (r: int)
    ensures -360 < r < 360
    ensures info.facing == Front ==> 0 <= r && (r + info.orientation + degrees) % 360 == 0
    ensures info.facing == Back ==> (r - info.orientation + degrees) % 360 == 0
    ensures info.facing == Back && 0 <= info.orientation - degrees + 360 ==> 0 <= r
    ensures info.facing == Back && info.orientation - degrees + 360 < 0 ==> r <= 0
  {
    if info.facing == Front then
      JavaRem(360 - JavaRem(info.orientation + degrees, 360), 360)
    else
      JavaRem(info.orientation - degrees + 360, 360)
  }

  /** For a back camera the range, the congruence and the sign of `Orientation` leave one
      value only: Java's `%` makes the result negative exactly when the dividend is. */
  lemma BackOrientationDetermined(info: CameraInfo, degrees: int, r: int)
    requires info.facing == Back
    requires -360 < r < 360 && (r - info.orientation + degrees) % 360 == 0
    requires 0 <= info.orientation - degrees + 360 ==> 0 <= r
    requires info.orientation - degrees + 360 < 0 ==> r <= 0
    ensures r == Orientation(info, degrees)
  {
    var o := Orientation(info, degrees);
    assert (r - o) % 360 == 0;
    assert -360 < r - o < 360;
  }

  /** A dividend of -360 gives 0: the result is not negative although the dividend is. */
  lemma BackOrientationZeroFromNegative()
    ensures Orientation(CameraInfo(Back, 0), 720) == 0
  {
    assert JavaDiv(-360, 360) == -1;
  }

  /** The value getCameraOri returns for a screen rotation and an extra rotation. */
  function CameraOrientation(info: CameraInfo, rotation: int, additionalRotation: int): int {
    Orientation(info, RotationDegrees(rotation) + NormalizeRotation(additionalRotation))
  }

  /** Normalising the extra rotation twice is normalising it once. */
  lemma NormalizeIdempotent(x: int)
    ensures NormalizeRotation(NormalizeRotation(x)) == NormalizeRotation(x)
  {
    var r := NormalizeRotation(x);
    var k := JavaDiv(x, 90);
    assert r == k * 90;
    if k >= 0 {
      assert JavaDiv(r, 90) == r / 90 == k;
    } else {
      assert JavaDiv(r, 90) == -((-r) / 90);
      assert -r == (-k) * 90;
      assert (-r) / 90 == -k;
    }
  }

  /** With sensor and rotation both right angles, the orientation is one of the four right
      angles, for a front camera always and for a back camera unless the rotation exceeds
      the sensor orientation by more than a full turn. */
  lemma OrientationIsRightAngle(info: CameraInfo, degrees: int)
    requires info.orientation % 90 == 0 && degrees % 90 == 0
    requires info.facing == Back ==> degrees <= info.orientation + 360
    ensures Orientation(info, degrees) in {0, 90, 180, 270}
  {
    var r := Orientation(info, degrees);
    var o, d := info.orientation / 90, degrees / 90;
    assert info.orientation == 90 * o && degrees == 90 * d;
    var k: int;
    if info.facing == Front {
      k := (r + info.orientation + degrees) / 360;
      assert r + info.orientation + degrees == 360 * k;
      assert r == 90 * (4 * k - o - d);
    } else {
      k := (r - info.orientation + degrees) / 360;
      assert r - info.orientation + degrees == 360 * k;
      assert r == 90 * (4 * k + o - d);
      assert 0 <= r;
    }
    var m := r / 90;
    assert r == 90 * m && 0 <= m < 4;
  }

  /** The case of the demo: screen rotation ROTATION_0 to ROTATION_270, no extra rotation,
      and a sensor mounted at a right angle. */
  lemma DemoOrientationIsRightAngle(info: CameraInfo, rotation: int)
    requires 0 <= rotation <= 3
    requires info.orientation in {0, 90, 180, 270}
    ensures CameraOrientation(info, rotation, 0) in {0, 90, 180, 270}
  {
    var d := RotationDegrees(rotation);
    assert d % 90 == 0 && 0 <= d <= 270;
    assert info.orientation % 90 == 0 && 0 <= info.orientation;
    assert NormalizeRotation(0) == 0;
    assert CameraOrientation(info, rotation, 0) == Orientation(info, d);
    OrientationIsRightAngle(info, d);
  }

  /** A front camera with its sensor at 270 degrees, screen not rotated: 90 degrees. */
  lemma FrontSensor270Example()
    ensures CameraOrientation(CameraInfo(Front, 270), 0, 0) == 90
  {
  }

  /** As written, a back camera with a large extra rotation gets a negative orientation:
      sensor 90, ROTATION_270 and 270 extra degrees give -90. */
  lemma BackOrientationCanBeNegative()
    ensures CameraOrientation(CameraInfo(Back, 90), 3, 270) == -90
  {
  }

  // ---------------------------------------------------------------------------
  // Preview size selection
  // ---------------------------------------------------------------------------

  datatype Size = Size(width: int, height: int)
  datatype Point = Point(x: int, y: int)

  /** `a` comes before `b` in the preview-size order: wider first, then taller. */
  predicate Precedes(a: Size, b: Size) {
    a.width > b.width || (a.width == b.width && a.height > b.height)
  }

  /** The comparator getBestSupportedSize sorts with. */
  function CompareSizes(o1: Size, o2: Size): (c: int)
    ensures c == -1 || c == 1
    ensures c == -1 <==> Precedes(o1, o2)
  {
    if o1.width > o2.width then -1
    else if o1.width == o2.width then (if o1.height > o2.height then -1 else 1)
    else 1
  }

  /** The comparator is antisymmetric on distinct sizes but never answers 0: it reports
      every size as greater than itself, so it orders the sizes only as long as the list
      holds no duplicates. */
  lemma CompareSizesOnPairs(a: Size, b: Size)
    ensures a != b ==> CompareSizes(a, b) == -CompareSizes(b, a)
    ensures CompareSizes(a, a) == 1
  {
  }

  /** No later size comes before an earlier one: widest first, then tallest. */
  ghost predicate SortedDescending(s: seq<Size>) {
    forall i, j :: 0 <= i < j < |s| ==> !Precedes(s[j], s[i])
  }

  /** Arrays.sort with the comparator: the array ends sorted widest first, then tallest,
      and holds the same sizes. */
  method SortSizes(a: array<Size>)
    modifies a
    ensures SortedDescending(a[..])
    ensures multiset(a[..]) == multiset(old(a[..]))
  {
    var i := 0;
    while i < a.Length
      invariant 0 <= i <= a.Length
      invariant SortedDescending(a[..i])
      invariant multiset(a[..]) == multiset(old(a[..]))
    {
      InsertAt(a, i);
      i := i + 1;
    }
  }

  /** One insertion step: the size at index i moves left past every size it comes
      before, extending the sorted prefix by one. */
  method InsertAt(a: array<Size>, i: nat)
    requires i < a.Length
    requires SortedDescending(a[..i])
    modifies a
    ensures SortedDescending(a[..i + 1])
    ensures multiset(a[..]) == multiset(old(a[..]))
  {
    var j := i;
    while j > 0 && CompareSizes(a[j], a[j - 1]) == -1
      invariant 0 <= j <= i
      invariant multiset(a[..]) == multiset(old(a[..]))
      invariant forall p, q :: 0 <= p < q <= i && p != j && q != j ==> !Precedes(a[q], a[p])
      invariant forall q :: j < q <= i ==> Precedes(a[j], a[q])
    {
      Swap(a, j - 1, j);
      j := j - 1;
    }
  }

  method Swap(a: array<Size>, i: nat, j: nat)
    requires i < j < a.Length
    modifies a
    ensures a[..] == old(a[..])[i := old(a[j])][j := old(a[i])]
    ensures multiset(a[..]) == multiset(old(a[..]))
  {
    a[i], a[j] := a[j], a[i];
  }

  /** The first size after sorting: no supported size comes before it. */
  function Largest(sizes: seq<Size>): (m: Size)
    requires |sizes| > 0
    ensures m in sizes
    ensures forall s :: s in sizes ==> !Precedes(s, m)
  {
    if |sizes| == 1 then sizes[0]
    else
      var rest := Largest(sizes[1..]);
      assert forall s :: s in sizes ==> s == sizes[0] || s in sizes[1..];
      if Precedes(sizes[0], rest) then sizes[0] else rest
  }

  /** Only one size has no size before it. */
  lemma LargestUnique(sizes: seq<Size>, m: Size)
    requires m in sizes && forall s :: s in sizes ==> !Precedes(s, m)
    ensures m == Largest(sizes)
  {
    var l := Largest(sizes);
    assert !Precedes(l, m) && !Precedes(m, l);
  }

  predicate PositiveSize(s: Size) {
    s.width > 0 && s.height > 0
  }

  /** The aspect ratio of the preview view (of the largest size when there is no view),
      folded into (0, 1]. */
  function TargetRatio(view: Option<Point>, largest: Size): (r: real)
    requires view.Some? ==> view.value.x > 0 && view.value.y > 0
    requires PositiveSize(largest)
    ensures 0.0 < r <= 1.0
  {
    var ratio := if view.Some? then view.value.x as real / view.value.y as real
                 else largest.width as real / largest.height as real;
    if ratio > 1.0 then 1.0 / ratio else ratio
  }

  /** A size's ratio as compared: height over width when the extra rotation is a multiple
      of 180 degrees, width over height otherwise. */
  function SizeRatio(s: Size, normalRotate: bool): real
    requires PositiveSize(s)
  {
    if normalRotate then s.height as real / s.width as real
    else s.width as real / s.height as real
  }

  /** How far a size's ratio is from the target. */
  function Distance(s: Size, target: real, normalRotate: bool): (d: real)
    requires PositiveSize(s)
    ensures d >= 0.0
  {
    var diff := SizeRatio(s, normalRotate) - target;
    if diff < 0.0 then -diff else diff
  }

  /** `best` is a supported size at minimal distance from the target, and among those at
      that distance it comes first in the sorted order. */
  ghost predicate IsClosest(sizes: seq<Size>, best: Size, target: real, normalRotate: bool)
    requires forall s :: s in sizes ==> PositiveSize(s)
  {
    && best in sizes
    && (forall s :: s in sizes ==> Distance(best, target, normalRotate) <= Distance(s, target, normalRotate))
    && (forall s :: s in sizes && Distance(s, target, normalRotate) == Distance(best, target, normalRotate)
          ==> !Precedes(s, best))
  }

  /** The explicitly requested preview size is among the supported ones. */
  predicate SpecificSupported(specific: Option<Point>, sizes: seq<Size>) {
    specific.Some? && Size(specific.value.x, specific.value.y) in sizes
  }

  /** getBestSupportedSize: the current preview size when nothing is supported; the
      requested size when it is supported; otherwise the supported size whose ratio is
      closest to the view's, the earliest in the sorted order on a tie. */
  method BestSupportedSize(sizes: seq<Size>, view: Option<Point>, specific: Option<Point>,
                           additionalRotation: int, current: Size) returns (best: Size)
    requires forall s :: s in sizes ==> PositiveSize(s)
    requires view.Some? ==> view.value.x > 0 && view.value.y > 0
    ensures sizes == [] ==> best == current
    ensures sizes != [] && SpecificSupported(specific, sizes) ==>
              best == Size(specific.value.x, specific.value.y)
    ensures sizes != [] && !SpecificSupported(specific, sizes) ==>
              IsClosest(sizes, best, TargetRatio(view, Largest(sizes)), additionalRotation % 180 == 0)
  {
    if |sizes| == 0 {
      return current;
    }
    var a := new Size[|sizes|](k requires 0 <= k < |sizes| => sizes[k]);
    assert a[..] == sizes;
    SortSizes(a);
    var sorted := a[..];
    SortedLargest(sizes, sorted);
    var normalRotate := additionalRotation % 180 == 0;
    best := ScanSorted(sorted, TargetRatio(view, sorted[0]), normalRotate, specific);
  }

  /** Sorting keeps the members, and puts the largest size first. */
  lemma SortedLargest(sizes: seq<Size>, sorted: seq<Size>)
    requires |sizes| > 0
    requires multiset(sorted) == multiset(sizes) && SortedDescending(sorted)
    ensures forall s :: s in sizes <==> s in sorted
    ensures sorted[0] == Largest(sizes)
  {
    forall s ensures s in sizes <==> s in sorted {
      assert s in sizes <==> s in multiset(sizes);
      assert s in sorted <==> s in multiset(sorted);
    }
    assert sorted[0] in sizes;
    forall s | s in sizes ensures !Precedes(s, sorted[0]) {
      var k :| 0 <= k < |sorted| && sorted[k] == s;
    }
    LargestUnique(sizes, sorted[0]);
  }

  /** Two sorted lists of the same sizes start with the same size. */
  lemma SameFirst(x: seq<Size>, y: seq<Size>)
    requires |x| > 0 && |y| > 0
    requires SortedDescending(x) && SortedDescending(y)
    requires multiset(x) == multiset(y)
    ensures x[0] == y[0]
  {
    SortedLargest(x, x);
    SortedLargest(x, y);
  }

  /** Dropping the first size of a sorted list leaves a sorted list of the other sizes. */
  lemma SortedRest(x: seq<Size>)
    requires |x| > 0 && SortedDescending(x)
    ensures SortedDescending(x[1..])
    ensures multiset(x[1..]) == multiset(x) - multiset{x[0]}
  {
    assert x == [x[0]] + x[1..];
  }

  /** The comparator orders every pair of distinct sizes, so there is only one way to
      sort a list by it: any sort, stable or not, gives the same list. */
  lemma {:induction false} SortedUnique(x: seq<Size>, y: seq<Size>)
    requires SortedDescending(x) && SortedDescending(y)
    requires multiset(x) == multiset(y)
    ensures x == y
    decreases |x|
  {
    assert |x| == |multiset(x)| == |multiset(y)| == |y|;
    if x != [] {
      SameFirst(x, y);
      SortedRest(x);
      SortedRest(y);
      SortedUnique(x[1..], y[1..]);
      assert x == [x[0]] + x[1..] && y == [y[0]] + y[1..];
    }
  }

  /** The loop of getBestSupportedSize over the sorted sizes: return the requested size
      as soon as it comes; otherwise keep the first size seen at the smallest distance. */
  method ScanSorted(sorted: seq<Size>, target: real, normalRotate: bool, specific: Option<Point>)
    returns (best: Size)
    requires |sorted| > 0 && SortedDescending(sorted)
    requires forall s :: s in sorted ==> PositiveSize(s)
    ensures SpecificSupported(specific, sorted) ==> best == Size(specific.value.x, specific.value.y)
    ensures !SpecificSupported(specific, sorted) ==> IsClosest(sorted, best, target, normalRotate)
  {
    best := sorted[0];
    var bestIndex := 0;
    var i := 0;
    while i < |sorted|
      invariant 0 <= i <= |sorted|
      invariant 0 <= bestIndex < |sorted| && best == sorted[bestIndex] && (bestIndex < i || bestIndex == 0)
      invariant forall k :: 0 <= k < i ==> Distance(best, target, normalRotate) <= Distance(sorted[k], target, normalRotate)
      invariant forall k :: 0 <= k < bestIndex ==> Distance(best, target, normalRotate) < Distance(sorted[k], target, normalRotate)
      invariant specific.Some? ==> forall k :: 0 <= k < i ==> sorted[k] != Size(specific.value.x, specific.value.y)
    {
      var s := sorted[i];
      if specific.Some? && specific.value.x == s.width && specific.value.y == s.height {
        return s;
      }
      if Distance(s, target, normalRotate) < Distance(best, target, normalRotate) {
        best := s;
        bestIndex := i;
      }
      i := i + 1;
    }
    forall s | s in sorted && Distance(s, target, normalRotate) == Distance(best, target, normalRotate)
      ensures !Precedes(s, best)
    {
      var k :| 0 <= k < |sorted| && sorted[k] == s;
      assert k >= bestIndex;
    }
  }

  /** Supported 640x480, 1280x720 and 1920x1080 on a 16:9 view: 1280x720 and 1920x1080
      match the ratio exactly, and the tie goes to 1920x1080, which sorts first. */
  lemma SixteenNineExample(best: Size)
    requires IsClosest([Size(640, 480), Size(1280, 720), Size(1920, 1080)], best,
                       TargetRatio(Some(Point(1920, 1080)), Size(1920, 1080)), true)
    ensures best == Size(1920, 1080)
  {
    var sizes := [Size(640, 480), Size(1280, 720), Size(1920, 1080)];
    var target := TargetRatio(Some(Point(1920, 1080)), Size(1920, 1080));
    assert target == 1080.0 / 1920.0;
    assert Distance(Size(1920, 1080), target, true) == 0.0;
    assert Distance(Size(1280, 720), target, true) == 0.0;
    assert Distance(Size(640, 480), target, true) > 0.0;
    assert Size(1920, 1080) in sizes;
  }
}
