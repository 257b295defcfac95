/**
 * The Tk window (`SmartTerminal`): the probe of camera indices 0..9, the device names
 * read from the `ffmpeg` DirectShow listing, the capture index chosen for a selector
 * entry, the frame size kept from what the camera reports, the aspect-ratio fit of a
 * frame into the canvas, and the recording switch.
 */
module TkTerminal {
  import opened Wrappers
  import opened Text
  import opened Media

  // ===========================================================================
  // Camera probe (detect_cameras)
  // ===========================================================================

  /** `detect_cameras` tries the indices `0 <= index < 10`. */
  const ProbeCount: nat := 10

  /**
   * The indices below `n` whose probe read a frame, in increasing order: `probe[i]` is
   * whether `cv2.VideoCapture(i).read()[0]` held.
   */
  function Probed(probe: seq<bool>, n: nat): seq<int>
    requires n <= |probe|
  {
    if n == 0 then []
    else Probed(probe, n - 1) + (if probe[n - 1] then [n - 1] else [])
  }

  /**
   * The probed indices below `n` are strictly increasing, each one answered the
   * probe, and every index below `n` that answered is among them.
   */
  lemma {:induction false} ProbedExactly(probe: seq<bool>, n: nat)
    requires n <= |probe|
    ensures forall k :: 0 <= k < |Probed(probe, n)| ==>
      0 <= Probed(probe, n)[k] < n && probe[Probed(probe, n)[k]]
    ensures forall i, j :: 0 <= i < j < |Probed(probe, n)| ==> Probed(probe, n)[i] < Probed(probe, n)[j]
    ensures forall i :: 0 <= i < n && probe[i] ==> i in Probed(probe, n)
  {
    if n > 0 {
      var earlier := Probed(probe, n - 1);
      var last: seq<int> := if probe[n - 1] then [n - 1] else [];
      var all := earlier + last;
      ProbedExactly(probe, n - 1);
      assert Probed(probe, n) == all;
      forall k | 0 <= k < |all|
        ensures 0 <= all[k] < n && probe[all[k]]
      {
        if k < |earlier| {
          assert all[k] == earlier[k];
        }
      }
      forall i, j | 0 <= i < j < |all|
        ensures all[i] < all[j]
      {
        if j < |earlier| {
          assert all[i] == earlier[i] && all[j] == earlier[j];
        } else if i < |earlier| {
          assert all[i] == earlier[i] && all[j] == n - 1;
        }
      }
      forall i | 0 <= i < n && probe[i]
        ensures i in all
      {
        if i < n - 1 {
          assert i in earlier;
        } else {
          assert i in last;
        }
      }
    }
  }

  /** The selector's only entry when no camera answered. */
  const NoCamerasText: string := "No Cameras Found"

  /** What the selector shows: the names, or a single placeholder when there are none. */
  function SelectorValues(names: seq<string>): (values: seq<string>)
    ensures values != []
    ensures names != [] ==> values == names
    ensures names == [] ==> values == [NoCamerasText]
  {
    if names == [] then [NoCamerasText] else names
  }

  // ===========================================================================
  // Device names (get_device_name)
  // ===========================================================================

  /** The text that marks a section header of the listing. */
  const SectionMarker: string := "video devices"

  /** A line of the listing that names a device: it holds `"` and is not a section header. */
  predicate NamedLine(line: string) {
    '"' in line && !Contains(line, SectionMarker)
  }

  /**
   * `line.strip().split('"')[1]`. On a naming line the split always has a second part
   * (`QuotedNameBetween`), so the empty default is never taken there.
   */
  function QuotedName(line: string): string {
    SecondField(Strip(line), '"').GetOr("")
  }

  /**
   * The quoted name is the text after the first `"` of the stripped line up to the
   * next `"` (or the end), so it holds no `"` itself.
   */
  lemma QuotedNameBetween(line: string)
    requires '"' in line
    ensures '"' in Strip(line) && SecondField(Strip(line), '"').Some?
    ensures var t := Strip(line);
      var tail := t[Find(t, '"') + 1..];
      QuotedName(line) == tail[..Find(tail, '"')]
    ensures '"' !in QuotedName(line)
  {
    StripTrims(line);
    SecondFieldBetween(Strip(line), '"');
  }

  /** The list comprehension `[f(x) for x in xs if keep(x)]`. */
  function FilterMap<T, U>(keep: T -> bool, f: T -> U, xs: seq<T>): seq<U> {
    if xs == [] then []
    else (if keep(xs[0]) then [f(xs[0])] else []) + FilterMap(keep, f, xs[1..])
  }

  /** A comprehension over two lists joined is the two comprehensions joined. */
  lemma {:induction false} FilterMapAppend<T, U>(keep: T -> bool, f: T -> U, a: seq<T>, b: seq<T>)
    ensures FilterMap(keep, f, a + b) == FilterMap(keep, f, a) + FilterMap(keep, f, b)
  {
    if a == [] {
      assert a + b == b;
    } else {
      var head := if keep(a[0]) then [f(a[0])] else [];
      assert (a + b)[0] == a[0] && (a + b)[1..] == a[1..] + b;
      assert FilterMap(keep, f, a + b) == head + FilterMap(keep, f, a[1..] + b);
      FilterMapAppend(keep, f, a[1..], b);
      assert FilterMap(keep, f, a) == head + FilterMap(keep, f, a[1..]);
    }
  }

  /** The `names` list: the quoted name of every naming line, in order. */
  function ListedNames(lines: seq<string>): seq<string> {
    FilterMap(NamedLine, QuotedName, lines)
  }

  /** The names of a listing split in two are the names of each part, in order. */
  lemma ListedNamesAppend(a: seq<string>, b: seq<string>)
    ensures ListedNames(a + b) == ListedNames(a) + ListedNames(b)
  {
    FilterMapAppend(NamedLine, QuotedName, a, b);
  }

  /**
   * A comprehension has at most one element per input, and when every kept input maps
   * to a value with property `p`, every element has it.
   */
  lemma {:induction false} FilterMapAll<T, U>(keep: T -> bool, f: T -> U, xs: seq<T>, p: U -> bool)
    requires forall x :: keep(x) ==> p(f(x))
    ensures |FilterMap(keep, f, xs)| <= |xs|
    ensures forall k :: 0 <= k < |FilterMap(keep, f, xs)| ==> p(FilterMap(keep, f, xs)[k])
  {
    if xs != [] {
      var first := if keep(xs[0]) then [f(xs[0])] else [];
      var rest := FilterMap(keep, f, xs[1..]);
      FilterMapAll(keep, f, xs[1..], p);
      assert FilterMap(keep, f, xs) == first + rest;
      forall k | 0 <= k < |first + rest|
        ensures p((first + rest)[k])
      {
        if k >= |first| {
          assert (first + rest)[k] == rest[k - |first|];
        }
      }
    }
  }

  /** There is at most one name per line and no name holds a `"`. */
  lemma ListedNamesShape(lines: seq<string>)
    ensures |ListedNames(lines)| <= |lines|
    ensures forall k :: 0 <= k < |ListedNames(lines)| ==> '"' !in ListedNames(lines)[k]
  {
    forall line | NamedLine(line)
      ensures '"' !in QuotedName(line)
    {
      QuotedNameBetween(line);
    }
    FilterMapAll(NamedLine, QuotedName, lines, name => '"' !in name);
  }

  /** `f"Camera {index}"`. */
  function FallbackName(index: int): string {
    "Camera " + IntToString(index)
  }

  /**
   * `get_device_name(index)` given the listing `ffmpeg` wrote to its error stream
   * (`None` when running it raised): entry `index` of the names, or the fallback.
   */
  function DeviceName(listing: Option<string>, index: nat): string {
    match listing
    case None => FallbackName(index)
    case Some(text) =>
      var names := ListedNames(SplitOn(text, '\n'));
      if index < |names| then names[index] else FallbackName(index)
  }

  /**
   * A device name is either a quoted name from the listing, and then holds no `"`,
   * or the fallback for its index.
   */
  lemma DeviceNameSource(listing: Option<string>, index: nat)
    ensures DeviceName(listing, index) == FallbackName(index) ||
      (listing.Some? && DeviceName(listing, index) in ListedNames(SplitOn(listing.value, '\n')) &&
       '"' !in DeviceName(listing, index))
    ensures listing.None? ==> DeviceName(listing, index) == FallbackName(index)
  {
    if listing.Some? {
      ListedNamesShape(SplitOn(listing.value, '\n'));
    }
  }

  /** The names given to the probed indices, each found by its own index. */
  function NamesFor(listing: Option<string>, indices: seq<int>): (names: seq<string>)
    requires forall k :: 0 <= k < |indices| ==> indices[k] >= 0
    ensures |names| == |indices|
  {
    seq(|indices|, k requires 0 <= k < |indices| => DeviceName(listing, indices[k]))
  }

  /** Naming one more index appends its name. */
  lemma NamesForAppend(listing: Option<string>, indices: seq<int>, i: nat)
    requires forall k :: 0 <= k < |indices| ==> indices[k] >= 0
    ensures NamesFor(listing, indices + [i]) == NamesFor(listing, indices) + [DeviceName(listing, i)]
  {
    var longer := indices + [i];
    assert forall k :: 0 <= k < |indices| ==> longer[k] == indices[k];
  }

  /** The capture index for selector entry `index`: its probed index, or 0 past the end. */
  function CaptureIndex(camIndices: seq<int>, index: nat): int {
    if index < |camIndices| then camIndices[index] else 0
  }

  /** The camera opened is always one whose probe answered, or camera 0. */
  lemma CaptureIndexProbed(probe: seq<bool>, index: nat)
    requires |probe| == ProbeCount
    ensures var i := CaptureIndex(Probed(probe, ProbeCount), index);
      i == 0 || (0 <= i < ProbeCount && probe[i])
    ensures var indices := Probed(probe, ProbeCount);
      index < |indices| ==> CaptureIndex(indices, index) == indices[index]
  {
    ProbedExactly(probe, ProbeCount);
  }

  // ===========================================================================
  // Aspect-ratio fit (display_frame)
  // ===========================================================================

  /**
   * The size a `frame` is resized to on a `cw` x `ch` canvas: the full canvas height
   * when the canvas is relatively wider than the frame, the full width otherwise,
   * with the other side scaled by the frame's aspect ratio and truncated by `int()`.
   * `None` is the `ZeroDivisionError` of `canvas_width / canvas_height` on a canvas
   * of height 0.
   */
  function FitToCanvas(frame: Size, cw: nat, ch: nat): Option<Size>
    requires frame.width > 0 && frame.height > 0
  {
    if ch == 0 then None
    else
      var aspect := frame.width as real / frame.height as real;
      var canvasRatio := cw as real / ch as real;
      if canvasRatio > aspect then Some(Size((aspect * ch as real).Floor, ch))
      else Some(Size(cw, (cw as real / aspect).Floor))
  }

  /** Multiplying both sides by a positive number keeps an order. */
  lemma ScaleReal(a: real, b: real, c: real)
    requires c > 0.0
    ensures a <= b ==> a * c <= b * c
    ensures a < b ==> a * c < b * c
  {
  }

  /** The product of two integers, taken as a real. */
  lemma RealProduct(a: int, b: int)
    ensures (a * b) as real == a as real * b as real
  {
  }

  /** Dividing by a positive number and multiplying back gives the number again. */
  lemma DivTimes(p: real, q: real)
    requires q > 0.0
    ensures p / q * q == p
  {
  }

  /** `int(p / q)` times `q` does not exceed `p`, for `q > 0`. */
  lemma FloorTimesBelow(p: int, q: int)
    requires q > 0
    ensures (p as real / q as real).Floor * q <= p
  {
    var rq := q as real;
    var x := p as real / rq;
    var w := x.Floor;
    DivTimes(p as real, rq);
    ScaleReal(w as real, x, rq);
    RealProduct(w, q);
  }

  /** One more than `int(p / q)`, times `q`, exceeds `p`, for `q > 0`. */
  lemma FloorTimesAbove(p: int, q: int)
    requires q > 0
    ensures p < ((p as real / q as real).Floor + 1) * q
  {
    var rq := q as real;
    var x := p as real / rq;
    var w := x.Floor + 1;
    assert x < w as real;
    DivTimes(p as real, rq);
    ScaleReal(x, w as real, rq);
    RealProduct(w, q);
  }

  /** `int(p / q)` for `p >= 0`, `q > 0`: the largest `w` with `w * q <= p`. */
  lemma FloorQuotient(p: int, q: int)
    requires p >= 0 && q > 0
    ensures var w := (p as real / q as real).Floor;
      w >= 0 && w * q <= p < (w + 1) * q
  {
    FloorTimesBelow(p, q);
    FloorTimesAbove(p, q);
  }

  /** A product is below `p * q` exactly when its first factor is below `p`, for `q > 0`. */
  lemma ScaleBelow(w: int, p: int, q: int)
    requires q > 0
    ensures w * q < p * q <==> w < p
    ensures w * q <= p * q <==> w <= p
  {
    if w < p {
      assert p * q - w * q == (p - w) * q;
    } else {
      assert w * q - p * q == (w - p) * q;
    }
  }

  /** The canvas is relatively wider than the frame exactly when `cw * fh > fw * ch`. */
  lemma WiderCanvas(fw: int, fh: int, cw: int, ch: int)
    requires fw > 0 && fh > 0 && ch > 0
    ensures (cw as real / ch as real > fw as real / fh as real) <==> cw * fh > fw * ch
  {
    var x, y := cw as real / ch as real, fw as real / fh as real;
    var both := ch as real * fh as real;
    DivTimes(cw as real, ch as real);
    DivTimes(fw as real, fh as real);
    ScaleReal(y, x, both);
    ScaleReal(x, y, both);
    assert x * both == cw as real * fh as real;
    assert y * both == fw as real * ch as real;
    RealProduct(cw, fh);
    RealProduct(fw, ch);
  }

  /** `aspect_ratio * canvas_height` is `fw * ch / fh`. */
  lemma ScaledWidth(fw: int, fh: int, ch: int)
    requires fh > 0
    ensures fw as real / fh as real * ch as real == (fw * ch) as real / fh as real
  {
    RealProduct(fw, ch);
  }

  /** `canvas_width / aspect_ratio` is `cw * fh / fw`. */
  lemma ScaledHeight(fw: int, fh: int, cw: int)
    requires fw > 0 && fh > 0
    ensures cw as real / (fw as real / fh as real) == (cw * fh) as real / fw as real
  {
    RealProduct(cw, fh);
  }

  /**
   * On a canvas of positive height the fitted frame lies inside the canvas and fills
   * one of its sides: on a relatively wider canvas its height is the canvas height and
   * its width `w` is the truncated `fw * ch / fh`; otherwise its width is the canvas
   * width and its height `h` is the truncated `cw * fh / fw`.
   */
  lemma FitInsideCanvas(frame: Size, cw: nat, ch: nat)
    requires frame.width > 0 && frame.height > 0
    ensures FitToCanvas(frame, cw, ch).Some? <==> ch > 0
    ensures FitToCanvas(frame, cw, ch).Some? ==>
      var r := FitToCanvas(frame, cw, ch).value;
      0 <= r.width <= cw && 0 <= r.height <= ch && (r.width == cw || r.height == ch)
    ensures ch > 0 && cw * frame.height > frame.width * ch ==>
      var r := FitToCanvas(frame, cw, ch).value;
      r.height == ch && r.width * frame.height <= frame.width * ch < (r.width + 1) * frame.height
    ensures ch > 0 && cw * frame.height <= frame.width * ch ==>
      var r := FitToCanvas(frame, cw, ch).value;
      r.width == cw && r.height * frame.width <= cw * frame.height < (r.height + 1) * frame.width
  {
    if ch > 0 {
      var fw, fh := frame.width, frame.height;
      if cw * fh > fw * ch {
        FitWide(fw, fh, cw, ch);
      } else {
        FitTall(fw, fh, cw, ch);
      }
    }
  }

  /** The wider-canvas branch: full canvas height, width `int(fw * ch / fh)`. */
  lemma FitWide(fw: int, fh: int, cw: nat, ch: nat)
    requires fw > 0 && fh > 0 && ch > 0
    requires cw * fh > fw * ch
    ensures var w := ((fw * ch) as real / fh as real).Floor;
      var r := FitToCanvas(Size(fw, fh), cw, ch);
      r.Some? && r.value.width == w && r.value.height == ch &&
      0 <= w <= cw && w * fh <= fw * ch < (w + 1) * fh
  {
    var w := ((fw * ch) as real / fh as real).Floor;
    var r := FitToCanvas(Size(fw, fh), cw, ch);
    assert r.Some? && r.value.width == w && r.value.height == ch by {
      WiderCanvas(fw, fh, cw, ch);
      ScaledWidth(fw, fh, ch);
    }
    assert 0 <= w && w * fh <= fw * ch < (w + 1) * fh by {
      FloorQuotient(fw * ch, fh);
    }
    assert w <= cw by {
      ScaleBelow(w, cw, fh);
    }
  }

  /** The other branch: full canvas width, height `int(cw * fh / fw)`. */
  lemma FitTall(fw: int, fh: int, cw: nat, ch: nat)
    requires fw > 0 && fh > 0 && ch > 0
    requires cw * fh <= fw * ch
    ensures var h := ((cw * fh) as real / fw as real).Floor;
      var r := FitToCanvas(Size(fw, fh), cw, ch);
      r.Some? && r.value.width == cw && r.value.height == h &&
      0 <= h <= ch && h * fw <= cw * fh < (h + 1) * fw
  {
    var h := ((cw * fh) as real / fw as real).Floor;
    var r := FitToCanvas(Size(fw, fh), cw, ch);
    assert r.Some? && r.value.width == cw && r.value.height == h by {
      WiderCanvas(fw, fh, cw, ch);
      ScaledHeight(fw, fh, cw);
    }
    assert 0 <= h && h * fw <= cw * fh < (h + 1) * fw by {
      FloorQuotient(cw * fh, fw);
    }
    assert h <= ch by {
      assert fw * ch == ch * fw;
      ScaleBelow(h, ch, fw);
    }
  }

  // ===========================================================================
  // The window
  // ===========================================================================

  const StartRecordingText: string := "Start Recording"
  const StopRecordingText: string := "Stop Recording"

  /** Frame rate handed to the video writer (`fps = 20.0`). */
  const RecordingFps: nat := 20

  class SmartTerminal {
    var capture: Option<Capture>
    /** Every capture `release()` was called on, in order. */
    ghost var releasedCaptures: seq<Capture>
    /** The selector entry last chosen (`current_cam_index`). */
    var currentCamIndex: int
    /** Whether the capture thread should keep reading. */
    var running: bool
    var recording: bool
    var out: Option<Writer>
    /** Every writer `release()` was called on, in order. */
    ghost var releasedWriters: seq<Writer>
    /** Canvas size from the last `<Configure>` event. */
    var displayWidth: nat
    var displayHeight: nat
    /** Frame size last reported by the camera, 640x480 until one is reported. */
    var frameWidth: int
    var frameHeight: int
    var camIndices: seq<int>
    var camNames: seq<string>
    /** The camera selector's `values` and `current()` index. */
    var selectorValues: seq<string>
    var selectorCurrent: int
    var recordButtonText: string

    /**
     * The frame size stays positive, recording exactly when a writer is present, the
     * button names the next action, every probed index has a name, and the selector
     * shows the names (or the placeholder) with an entry selected.
     */
    ghost predicate Valid()
      reads this
    {
      frameWidth > 0 && frameHeight > 0 &&
      (recording <==> out.Some?) &&
      recordButtonText == (if recording then StopRecordingText else StartRecordingText) &&
      |camIndices| == |camNames| &&
      (forall k :: 0 <= k < |camIndices| ==> 0 <= camIndices[k] < ProbeCount) &&
      selectorValues == SelectorValues(camNames) &&
      0 <= selectorCurrent < |selectorValues|
    }

    /**
     * `__init__`, given the probe answers for indices 0..9, the device listing and the
     * size the first camera opened reports.
     */
    constructor (probe: seq<bool>, listing: Option<string>, reportedWidth: int, reportedHeight: int)
      requires |probe| == ProbeCount
      ensures Valid()
      ensures camIndices == Probed(probe, ProbeCount) && camNames == NamesFor(listing, camIndices)
      ensures selectorCurrent == 0 && currentCamIndex == 0
      ensures capture == Some(Capture(CaptureIndex(camIndices, 0), true)) && running
      ensures !recording && out == None
      ensures releasedCaptures == [] && releasedWriters == []
      ensures displayWidth == 640 && displayHeight == 480
      ensures if reportedWidth > 0 && reportedHeight > 0
              then frameWidth == reportedWidth && frameHeight == reportedHeight
              else frameWidth == 640 && frameHeight == 480
    {
      capture := None;
      releasedCaptures, releasedWriters := [], [];
      currentCamIndex := 0;
      running := false;
      recording := false;
      out := None;
      displayWidth, displayHeight := 640, 480;
      frameWidth, frameHeight := 640, 480;
      camIndices, camNames := [], [];
      selectorValues, selectorCurrent := [], -1;
      recordButtonText := StartRecordingText;
      new;
      DetectCameras(probe, listing);
      // probing and naming leave the display and recording settings as initialised
      assert displayWidth == 640 && displayHeight == 480 && currentCamIndex == 0;
      assert !recording && out == None && capture == None && releasedCaptures == [] && releasedWriters == [];
      StartCamera(currentCamIndex, reportedWidth, reportedHeight);
    }

    /**
     * `detect_cameras`: probe indices 0..9, name each one that answers, and show the
     * names (or the placeholder) with the first entry selected.
     */
    method DetectCameras(probe: seq<bool>, listing: Option<string>)
      requires |probe| == ProbeCount
      modifies this`camIndices, this`camNames, this`selectorValues, this`selectorCurrent
      ensures camIndices == Probed(probe, ProbeCount)
      ensures forall k :: 0 <= k < |camIndices| ==> 0 <= camIndices[k] < ProbeCount
      ensures camNames == NamesFor(listing, camIndices) && |camNames| == |camIndices|
      ensures selectorValues == SelectorValues(camNames) && selectorCurrent == 0
      ensures selectorValues != []
    {
      var index := 0;
      var available: seq<string> := [];
      camIndices, camNames := [], [];
      while index < ProbeCount
        modifies this`camIndices, this`camNames
        invariant 0 <= index <= ProbeCount
        invariant camIndices == Probed(probe, index)
        invariant forall k :: 0 <= k < |camIndices| ==> 0 <= camIndices[k] < index
        invariant camNames == NamesFor(listing, camIndices) && available == camNames
      {
        if probe[index] {
          var name := DeviceName(listing, index);
          NamesForAppend(listing, camIndices, index);
          camIndices := camIndices + [index];
          camNames := camNames + [name];
          available := available + [name];
        }
        index := index + 1;
      }
      if available == [] {
        available := [NoCamerasText];
      }
      selectorValues := available;
      selectorCurrent := 0;
    }

    /**
     * `start_camera(index)`: release the old capture, open the probed index of entry
     * `index` (0 past the end), keep the size the camera reports when both sides are
     * positive, and mark the window running.
     */
    method StartCamera(index: nat, reportedWidth: int, reportedHeight: int)
      requires Valid()
      modifies this`capture, this`frameWidth, this`frameHeight, this`running, this`releasedCaptures
      ensures Valid()
      ensures capture == Some(Capture(CaptureIndex(camIndices, index), true)) && running
      ensures releasedCaptures == old(releasedCaptures) + (if old(capture).Some? then [old(capture).value] else [])
      ensures if reportedWidth > 0 && reportedHeight > 0
              then frameWidth == reportedWidth && frameHeight == reportedHeight
              else frameWidth == old(frameWidth) && frameHeight == old(frameHeight)
    {
      if capture.Some? {
        releasedCaptures := releasedCaptures + [capture.value];
      }
      var actualIndex := if index < |camIndices| then camIndices[index] else 0;
      capture := Some(Capture(actualIndex, true));
      if reportedWidth > 0 && reportedHeight > 0 {
        frameWidth := reportedWidth;
        frameHeight := reportedHeight;
      }
      running := true;
    }

    /** `on_resize`: remember the canvas size. */
    method OnResize(width: nat, height: nat)
      modifies this`displayWidth, this`displayHeight
      ensures displayWidth == width && displayHeight == height
    {
      displayWidth := width;
      displayHeight := height;
    }

    /**
     * The size `display_frame` draws the current frame at, or `None` when it raises:
     * it raises only on a canvas of height 0, and otherwise lies inside the canvas and
     * fills its width or its height.
     */
    function DisplaySize(): (r: Option<Size>)
      reads this
      requires Valid()
      ensures r.Some? <==> displayHeight > 0
      ensures r.Some? ==>
        0 <= r.value.width <= displayWidth && 0 <= r.value.height <= displayHeight &&
        (r.value.width == displayWidth || r.value.height == displayHeight)
    {
      FitInsideCanvas(Size(frameWidth, frameHeight), displayWidth, displayHeight);
      FitToCanvas(Size(frameWidth, frameHeight), displayWidth, displayHeight)
    }

    /** `change_camera`: the user picks selector entry `i`, which is opened. */
    method ChangeCamera(i: int, reportedWidth: int, reportedHeight: int)
      requires Valid() && 0 <= i < |selectorValues|
      modifies this`selectorCurrent, this`currentCamIndex
      modifies this`capture, this`frameWidth, this`frameHeight, this`running, this`releasedCaptures
      ensures Valid() && selectorCurrent == i && currentCamIndex == i
      ensures capture == Some(Capture(CaptureIndex(camIndices, i), true)) && running
      ensures releasedCaptures == old(releasedCaptures) + (if old(capture).Some? then [old(capture).value] else [])
      ensures if reportedWidth > 0 && reportedHeight > 0
              then frameWidth == reportedWidth && frameHeight == reportedHeight
              else frameWidth == old(frameWidth) && frameHeight == old(frameHeight)
    {
      selectorCurrent := i;
      currentCamIndex := i;
      StartCamera(i, reportedWidth, reportedHeight);
    }

    /**
     * `toggle_recording`. Starting asks for a file name (`filename`, empty when the
     * dialog is cancelled) and opens a writer at the size the capture reports; a
     * cancelled dialog changes nothing. Stopping releases and drops the writer.
     */
    method ToggleRecording(filename: string, reportedWidth: int, reportedHeight: int)
      requires Valid()
      modifies this`recording, this`out, this`recordButtonText, this`releasedWriters
      ensures Valid()
      ensures !old(recording) && filename == "" ==>
        !recording && out == old(out) && recordButtonText == old(recordButtonText)
      ensures !old(recording) && filename != "" ==>
        recording && out == Some(NewWriter(filename, RecordingFps, Size(reportedWidth, reportedHeight)))
      ensures !old(recording) ==> releasedWriters == old(releasedWriters)
      ensures old(recording) ==> !recording && out == None
      ensures old(recording) ==>
        releasedWriters == old(releasedWriters) + (if old(out).Some? then [old(out).value] else [])
    {
      if !recording {
        if filename != "" {
          out := Some(NewWriter(filename, RecordingFps, Size(reportedWidth, reportedHeight)));
          recording := true;
          recordButtonText := StopRecordingText;
        }
      } else {
        recording := false;
        if out.Some? {
          releasedWriters := releasedWriters + [out.value];
          out := None;
        }
        recordButtonText := StartRecordingText;
      }
    }

    /**
     * `on_closing`: stop the capture thread, release the capture, and release the
     * writer only while recording. `recording` and `out` themselves are left as they are.
     */
    method OnClosing()
      requires Valid()
      modifies this`running, this`capture, this`out, this`releasedCaptures, this`releasedWriters
      ensures Valid() && !running
      ensures capture == if old(capture).Some? then Some(old(capture).value.Released()) else None
      ensures releasedCaptures == old(releasedCaptures) + (if old(capture).Some? then [old(capture).value] else [])
      ensures out == if recording && old(out).Some? then Some(old(out).value.Released()) else old(out)
      ensures releasedWriters == old(releasedWriters) + (if recording && old(out).Some? then [old(out).value] else [])
    {
      running := false;
      if capture.Some? {
        releasedCaptures := releasedCaptures + [capture.value];
        capture := Some(capture.value.Released());
      }
      if recording && out.Some? {
        releasedWriters := releasedWriters + [out.value];
        out := Some(out.value.Released());
      }
    }
  }
}
