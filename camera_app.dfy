/**
 * The Qt camera window (`SmartTerminalApp`): the frame-time window behind the FPS
 * overlay, the camera list read from the `ffmpeg -list_devices` DirectShow listing,
 * the resolution selector with its optional 4K entries, the defaults used when a
 * selector holds nothing, and the recording switch.
 */
module CameraApp {
  import opened Wrappers
  import opened Text
  import opened Media

  // ===========================================================================
  // Frame-time window (update_frame)
  // ===========================================================================

  /** How far back, in seconds, frame timestamps are kept for the FPS estimate. */
  const WindowSeconds: real := 5.0

  /** The pruning loop: drop the oldest entry while it is more than five seconds before `now`. */
  function Prune(times: seq<real>, now: real): seq<real>
    decreases |times|
  {
    if times != [] && now - times[0] > WindowSeconds then Prune(times[1..], now) else times
  }

  /** `frame_times` after a frame arrives at `now`: append, then prune. */
  function Slide(times: seq<real>, now: real): seq<real> {
    Prune(times + [now], now)
  }

  /**
   * The new window is a suffix of the old one followed by `now`: only the oldest
   * entries are ever dropped, and the newest one never is.
   */
  lemma {:induction false} SlideShape(times: seq<real>, now: real)
    ensures |Slide(times, now)| >= 1 && Slide(times, now)[|Slide(times, now)| - 1] == now
    ensures exists k :: 0 <= k <= |times| && Slide(times, now) == times[k..] + [now]
  {
    if times == [] {
      assert Slide(times, now) == [now] == times[0..] + [now];
    } else if now - times[0] > WindowSeconds {
      assert (times + [now])[1..] == times[1..] + [now];
      SlideShape(times[1..], now);
      var k :| 0 <= k <= |times[1..]| && Slide(times[1..], now) == times[1..][k..] + [now];
      assert times[1..][k..] == times[k + 1..];
    } else {
      assert Slide(times, now) == times[0..] + [now];
    }
  }

  /** Timestamps that never go backwards. */
  predicate NonDecreasing(s: seq<real>) {
    forall i, j :: 0 <= i < j < |s| ==> s[i] <= s[j]
  }

  /** The entries of `s` at most five seconds before `now`, in order. */
  function Recent(s: seq<real>, now: real): (r: seq<real>)
    ensures forall t :: t in r <==> t in s && now - t <= WindowSeconds
  {
    if s == [] then []
    else (if now - s[0] <= WindowSeconds then [s[0]] else []) + Recent(s[1..], now)
  }

  lemma {:induction false} RecentOfFresh(s: seq<real>, now: real)
    requires forall i :: 0 <= i < |s| ==> now - s[i] <= WindowSeconds
    ensures Recent(s, now) == s
  {
    if s != [] {
      RecentOfFresh(s[1..], now);
      assert [s[0]] + s[1..] == s;
    }
  }

  /**
   * With timestamps that never go backwards, the pruned window holds exactly the
   * timestamps (old ones and `now`) at most five seconds before `now`, in order.
   */
  lemma {:induction false} SlideIsRecent(times: seq<real>, now: real)
    requires NonDecreasing(times + [now])
    ensures Slide(times, now) == Recent(times + [now], now)
    ensures forall t :: t in Slide(times, now) <==> t in times + [now] && now - t <= WindowSeconds
  {
    var s := times + [now];
    if times == [] {
      assert now - now <= WindowSeconds;
      assert Recent(s, now) == [now];
    } else if now - times[0] > WindowSeconds {
      assert s[1..] == times[1..] + [now];
      assert NonDecreasing(times[1..] + [now]) by {
        forall i, j | 0 <= i < j < |s[1..]| ensures s[1..][i] <= s[1..][j] {
          assert s[1..][i] == s[i + 1] && s[1..][j] == s[j + 1];
        }
      }
      SlideIsRecent(times[1..], now);
    } else {
      forall i | 0 <= i < |s| ensures now - s[i] <= WindowSeconds {
        assert s[0] <= s[i];
      }
      RecentOfFresh(s, now);
    }
  }

  /** A window that starts ordered and receives a later timestamp stays ordered. */
  lemma SlideKeepsOrder(times: seq<real>, now: real)
    requires NonDecreasing(times)
    requires times != [] ==> times[|times| - 1] <= now
    ensures NonDecreasing(Slide(times, now))
  {
    var s := times + [now];
    assert NonDecreasing(s) by {
      forall i, j | 0 <= i < j < |s| ensures s[i] <= s[j] {
        if j < |times| {
          assert s[i] == times[i] && s[j] == times[j];
        } else {
          assert s[i] == times[i] <= times[|times| - 1];
        }
      }
    }
    SlideShape(times, now);
    var k :| 0 <= k <= |times| && Slide(times, now) == times[k..] + [now];
    assert Slide(times, now) == s[k..];
  }

  /** `len(frame_times) / (frame_times[-1] - frame_times[0])`. */
  function Rate(window: seq<real>): real
    requires |window| > 1 && window[|window| - 1] != window[0]
  {
    |window| as real / (window[|window| - 1] - window[0])
  }

  /**
   * With ordered timestamps, the FPS shown is at least the number of frames in the
   * window divided by the five-second span the window may cover.
   */
  lemma RateAtLeastWindowAverage(times: seq<real>, now: real)
    requires NonDecreasing(times + [now])
    requires var w := Slide(times, now); |w| > 1 && w[|w| - 1] != w[0]
    ensures Rate(Slide(times, now)) >= |Slide(times, now)| as real / WindowSeconds
  {
    var s := times + [now];
    var w := Slide(times, now);
    SlideIsRecent(times, now);
    SlideShape(times, now);
    assert w[0] in w;
    var i :| 0 <= i < |s| && s[i] == w[0];
    assert s[i] <= s[|s| - 1] == now;
    var span := w[|w| - 1] - w[0];
    assert 0.0 < span <= WindowSeconds;
    DivideBySmaller(|w| as real, span, WindowSeconds);
  }

  /** Dividing a non-negative amount by a smaller positive number gives more. */
  lemma DivideBySmaller(n: real, a: real, b: real)
    requires 0.0 <= n && 0.0 < a <= b
    ensures n / a >= n / b
  {
    assert n / a * a == n;
    assert n / b * b == n;
    assert n / b * a <= n / b * b;
  }

  // ===========================================================================
  // Camera list (detect_cameras)
  // ===========================================================================

  /** A line of the listing that mentions both `dshow` and `video`. */
  predicate IsVideoDeviceLine(line: string) {
    Contains(line, "dshow") && Contains(line, "video")
  }

  /** The lines of the captured `ffmpeg` output; none when the call raised. */
  function OutputLines(output: Option<string>): seq<string> {
    match output
    case None => []
    case Some(text) => SplitLines(text)
  }

  /**
   * The names `detect_cameras` adds, in line order: the second `"`-field of every
   * video device line. A video device line without `"` raises `IndexError`, which
   * ends the whole loop, so nothing after it is read.
   */
  function ListedCameras(lines: seq<string>): seq<string> {
    if lines == [] then []
    else if !IsVideoDeviceLine(lines[0]) then ListedCameras(lines[1..])
    else
      match SecondField(lines[0], '"')
      case None => []
      case Some(name) => [name] + ListedCameras(lines[1..])
  }

  /**
   * At most one name per line, and each name is the whole text between two quotes,
   * so it holds none itself.
   */
  lemma {:induction false} ListedCamerasShape(lines: seq<string>)
    ensures |ListedCameras(lines)| <= |lines|
    ensures forall k :: 0 <= k < |ListedCameras(lines)| ==> '"' !in ListedCameras(lines)[k]
  {
    if lines != [] {
      ListedCamerasShape(lines[1..]);
      SecondFieldBetween(lines[0], '"');
    }
  }

  /** The video device lines, in order. */
  function VideoLines(lines: seq<string>): seq<string> {
    if lines == [] then []
    else (if IsVideoDeviceLine(lines[0]) then [lines[0]] else []) + VideoLines(lines[1..])
  }

  /** The longest prefix of `lines` in which every line holds a `"`. */
  function QuotedRun(lines: seq<string>): (run: seq<string>)
    ensures |run| <= |lines| && run == lines[..|run|]
    ensures forall k :: 0 <= k < |run| ==> '"' in run[k]
    ensures |run| < |lines| ==> '"' !in lines[|run|]
  {
    if lines == [] || '"' !in lines[0] then [] else [lines[0]] + QuotedRun(lines[1..])
  }

  /** The text between the first and second `"` of each line; every line must hold one. */
  function QuotedNames(lines: seq<string>): seq<string>
    requires forall k :: 0 <= k < |lines| ==> '"' in lines[k]
  {
    if lines == [] then []
    else
      SecondFieldBetween(lines[0], '"');
      [SecondField(lines[0], '"').value] + QuotedNames(lines[1..])
  }

  /**
   * Reference reading of the parse loop: take the video device lines, keep them up to
   * the first one without a `"`, and take the quoted name of each.
   */
  lemma {:induction false} ListedCamerasByFilter(lines: seq<string>)
    ensures ListedCameras(lines) == QuotedNames(QuotedRun(VideoLines(lines)))
  {
    if lines != [] {
      ListedCamerasByFilter(lines[1..]);
      SecondFieldBetween(lines[0], '"');
      if IsVideoDeviceLine(lines[0]) {
        assert VideoLines(lines) == [lines[0]] + VideoLines(lines[1..]);
        if '"' in lines[0] {
          assert QuotedRun(VideoLines(lines)) == [lines[0]] + QuotedRun(VideoLines(lines[1..]));
          assert QuotedRun(VideoLines(lines))[1..] == QuotedRun(VideoLines(lines[1..]));
        }
      } else {
        assert VideoLines(lines) == VideoLines(lines[1..]);
      }
    }
  }

  /**
   * A video device line without a `"` ends the parse: the names found before it are
   * kept and every line after it is ignored.
   */
  lemma {:induction false} UnquotedLineStopsParse(before: seq<string>, line: string, after: seq<string>)
    requires IsVideoDeviceLine(line) && '"' !in line
    ensures ListedCameras(before + [line] + after) == ListedCameras(before)
  {
    SecondFieldBetween(line, '"');
    if before == [] {
      assert (before + [line] + after)[0] == line;
    } else {
      assert (before + [line] + after)[1..] == before[1..] + [line] + after;
      assert (before + [line] + after)[0] == before[0];
      UnquotedLineStopsParse(before[1..], line, after);
    }
  }

  /**
   * The camera selector entries `detect_cameras` builds from the listing. Entry `k`
   * is added as `addItem(name, index)` with `index` counting from 0, so its data is
   * always its position `k`; only the names are kept.
   */
  function CameraMenu(output: Option<string>): seq<string> {
    ListedCameras(OutputLines(output))
  }

  // ===========================================================================
  // Resolution selector (populate_resolutions, update_resolution_list)
  // ===========================================================================

  const StandardResolutions: seq<Size> :=
    [Size(1920, 1080), Size(1280, 720), Size(800, 600), Size(640, 480), Size(320, 240)]

  /** Offered in front of the standard ones when "Enable 4K" is checked. */
  const UhdResolutions: seq<Size> := [Size(3840, 2160), Size(2560, 1440)]

  /** The size used when the resolution selector has no current data. */
  const DefaultSize: Size := Size(1920, 1080)

  function Resolutions(enable4K: bool): seq<Size> {
    if enable4K then UhdResolutions + StandardResolutions else StandardResolutions
  }

  /** `f"{w}x{h}"`. */
  function Label(s: Size): string {
    IntToString(s.width) + "x" + IntToString(s.height)
  }

  /** Sizes with the same label are the same size. */
  lemma LabelInjective(a: Size, b: Size)
    ensures Label(a) == Label(b) ==> a == b
  {
    if Label(a) == Label(b) {
      SplitAtUnique(IntToString(a.width), IntToString(a.height),
                    IntToString(b.width), IntToString(b.height), 'x');
      IntToStringInjective(a.width, b.width);
      IntToStringInjective(a.height, b.height);
    }
  }

  /**
   * A resolution selector entry, `addItem(f"{w}x{h}", (w, h))`: its data is the size
   * and its text is always the label of that size.
   */
  datatype ResolutionItem = ResolutionItem(data: Size) {
    function Text(): string {
      Label(data)
    }
  }

  /** The entries `populate_resolutions` adds, in order. */
  function ResolutionMenu(enable4K: bool): seq<ResolutionItem> {
    MenuOf(Resolutions(enable4K))
  }

  function MenuOf(sizes: seq<Size>): (items: seq<ResolutionItem>)
    ensures |items| == |sizes|
    ensures forall k :: 0 <= k < |sizes| ==> items[k].data == sizes[k]
  {
    seq(|sizes|, k requires 0 <= k < |sizes| => ResolutionItem(sizes[k]))
  }

  /** Without 4K the menu offers the five standard sizes, largest first. */
  lemma StandardMenu()
    ensures |ResolutionMenu(false)| == 5
    ensures [ResolutionMenu(false)[0].data, ResolutionMenu(false)[1].data, ResolutionMenu(false)[2].data,
             ResolutionMenu(false)[3].data, ResolutionMenu(false)[4].data]
         == [Size(1920, 1080), Size(1280, 720), Size(800, 600), Size(640, 480), Size(320, 240)]
  {
  }

  /** The first standard entry, selected by default, reads "1920x1080". */
  lemma DefaultEntryLabel()
    ensures ResolutionMenu(false)[0].Text() == "1920x1080" && ResolutionMenu(false)[0].data == DefaultSize
  {
    assert IntToString(1920) == "1920";
    assert IntToString(1080) == "1080";
  }

  /** With 4K the two 4K sizes come first, followed by the five standard entries. */
  lemma UhdMenu()
    ensures |ResolutionMenu(true)| == 7
    ensures ResolutionMenu(true)[0].data == Size(3840, 2160) && ResolutionMenu(true)[1].data == Size(2560, 1440)
    ensures ResolutionMenu(true)[2..] == ResolutionMenu(false)
  {
  }

  /** No two entries of either menu are for the same size. */
  lemma MenuSizesDistinct(enable4K: bool)
    ensures forall i, j :: 0 <= i < j < |ResolutionMenu(enable4K)| ==>
      ResolutionMenu(enable4K)[i].data != ResolutionMenu(enable4K)[j].data
  {
    var sizes := Resolutions(enable4K);
    forall i, j | 0 <= i < j < |sizes| ensures sizes[i] != sizes[j] {
      if enable4K {
        assert sizes[i].width > sizes[j].width;
      } else {
        assert sizes[i].width > sizes[j].width;
      }
    }
  }

  /** Entries for different sizes carry different labels. */
  lemma DistinctLabels(items: seq<ResolutionItem>)
    requires forall i, j :: 0 <= i < j < |items| ==> items[i].data != items[j].data
    ensures forall i, j :: 0 <= i < j < |items| ==> items[i].Text() != items[j].Text()
  {
    forall i, j | 0 <= i < j < |items| ensures items[i].Text() != items[j].Text() {
      LabelInjective(items[i].data, items[j].data);
    }
  }

  /** No two entries of either menu share a label, so the text search is unambiguous. */
  lemma MenuLabelsDistinct(enable4K: bool)
    ensures forall i, j :: 0 <= i < j < |ResolutionMenu(enable4K)| ==>
      ResolutionMenu(enable4K)[i].Text() != ResolutionMenu(enable4K)[j].Text()
  {
    MenuSizesDistinct(enable4K);
    DistinctLabels(ResolutionMenu(enable4K));
  }

  /**
   * What `update_resolution_list` leaves selected, by text: the first entry whose text
   * is `previous`, or the first entry (selected by the refill) when none has it.
   */
  predicate Selects(items: seq<ResolutionItem>, current: int, previous: string) {
    0 <= current < |items| &&
    (forall k :: 0 <= k < current ==> items[k].Text() != previous) &&
    (items[current].Text() == previous ||
     (current == 0 && forall k :: 0 <= k < |items| ==> items[k].Text() != previous))
  }

  /** The same choice stated on sizes: the first entry of size `previous`, else entry 0. */
  predicate SelectsSize(items: seq<ResolutionItem>, current: int, previous: Size) {
    0 <= current < |items| &&
    (forall k :: 0 <= k < current ==> items[k].data != previous) &&
    (items[current].data == previous ||
     (current == 0 && forall k :: 0 <= k < |items| ==> items[k].data != previous))
  }

  /**
   * Labels name sizes one-to-one, so looking for the label of a size selects the same
   * entry as looking for the size itself.
   */
  lemma SelectsByLabel(items: seq<ResolutionItem>, current: int, previous: Size)
    ensures Selects(items, current, Label(previous)) <==> SelectsSize(items, current, previous)
  {
    forall k | 0 <= k < |items|
      ensures items[k].Text() == Label(previous) <==> items[k].data == previous
    {
      LabelInjective(items[k].data, previous);
    }
  }

  /**
   * The search loop of `update_resolution_list` over a freshly filled selector, whose
   * current entry is the first: select the first entry whose text is the label of the
   * size selected before, if any.
   */
  method Reselect(items: seq<ResolutionItem>, previous: Size) returns (current: int)
    requires items != []
    ensures SelectsSize(items, current, previous)
  {
    var text := Label(previous);
    current := 0;
    var i := 0;
    while i < |items|
      invariant 0 <= i <= |items|
      invariant forall k :: 0 <= k < i ==> items[k].Text() != text
    {
      if items[i].Text() == text {
        current := i;
        break;
      }
      i := i + 1;
    }
    assert Selects(items, current, text);
    SelectsByLabel(items, current, previous);
  }

  /**
   * When the size selected before is in the rebuilt menu, the entry carrying it is the
   * one and only entry that can be selected.
   */
  lemma RebuildKeepsSize(enable4K: bool, previous: Size, k: nat)
    requires k < |ResolutionMenu(enable4K)| && ResolutionMenu(enable4K)[k].data == previous
    ensures forall j :: SelectsSize(ResolutionMenu(enable4K), j, previous) <==> j == k
  {
    MenuSizesDistinct(enable4K);
  }

  /** Turning 4K on always keeps the selected size. */
  lemma Enable4KKeepsSelection(k: nat)
    requires k < |ResolutionMenu(false)|
    ensures forall j :: SelectsSize(ResolutionMenu(true), j, ResolutionMenu(false)[k].data) ==>
      ResolutionMenu(true)[j] == ResolutionMenu(false)[k]
  {
    UhdMenu();
    assert ResolutionMenu(true)[k + 2] == ResolutionMenu(false)[k];
    RebuildKeepsSize(true, ResolutionMenu(false)[k].data, k + 2);
  }

  /**
   * Turning 4K off while a 4K size is selected falls back to the first entry,
   * 1920x1080; any other selection is kept.
   */
  lemma Disable4KSelection(k: nat)
    requires k < |ResolutionMenu(true)|
    ensures forall j :: SelectsSize(ResolutionMenu(false), j, ResolutionMenu(true)[k].data) ==>
      (k < 2 ==> j == 0 && ResolutionMenu(false)[j].data == DefaultSize) &&
      (k >= 2 ==> ResolutionMenu(false)[j] == ResolutionMenu(true)[k])
  {
    UhdMenu();
    StandardMenu();
    if k >= 2 {
      assert ResolutionMenu(true)[k] == ResolutionMenu(false)[k - 2];
      RebuildKeepsSize(false, ResolutionMenu(true)[k].data, k - 2);
    }
  }

  // ===========================================================================
  // The window
  // ===========================================================================

  const StartRecordingText: string := "Start Recording"
  const StopRecordingText: string := "Stop Recording"

  /** Frame rate handed to the video writer. */
  const RecordingFps: nat := 30

  class SmartTerminalApp {
    /** Camera opened by the last `start_camera`. */
    var cameraIndex: int
    var recording: bool
    var cap: Option<Capture>
    /** Every capture `release()` was called on, in order. */
    ghost var releasedCaptures: seq<Capture>
    /** Every writer `release()` was called on, in order. */
    ghost var releasedWriters: seq<Writer>
    /** Frame size last requested from `cap` (`CAP_PROP_FRAME_WIDTH`/`HEIGHT`). */
    var captureSize: Size
    var videoWriter: Option<Writer>
    var frameTimes: seq<real>
    var fps: real
    /** Whether the 30 ms frame timer runs. */
    var timerActive: bool
    /** Camera selector entry names (entry `k` carries data `k`) and current index (-1 when it is empty). */
    var cameraNames: seq<string>
    var cameraCurrent: int
    /** Resolution selector entries and current index (-1 when it is empty). */
    var resolutionItems: seq<ResolutionItem>
    var resolutionCurrent: int
    /** The "Enable 4K" check box. */
    var enable4K: bool
    var recordButtonText: string

    /**
     * Recording exactly when a writer is present, the button names the next action,
     * the resolution selector has an entry selected, and the camera selector has one
     * selected whenever it is not empty.
     */
    ghost predicate Valid()
      reads this
    {
      (recording <==> videoWriter.Some?) &&
      recordButtonText == (if recording then StopRecordingText else StartRecordingText) &&
      0 <= resolutionCurrent < |resolutionItems| &&
      (if cameraNames == [] then cameraCurrent == -1 else 0 <= cameraCurrent < |cameraNames|)
    }

    /** `camera_selector.currentData()`. */
    function CurrentCameraData(): Option<int>
      reads this
    {
      if 0 <= cameraCurrent < |cameraNames| then Some(cameraCurrent) else None
    }

    /** `resolution_selector.currentData()`. */
    function CurrentResolutionData(): Option<Size>
      reads this
    {
      if 0 <= resolutionCurrent < |resolutionItems| then Some(resolutionItems[resolutionCurrent].data)
      else None
    }

    /**
     * The state `start_camera` leaves: the selected camera (0 when none) opened at the
     * selected size (1920x1080 when none), and the timer running.
     */
    ghost predicate Started()
      reads this
    {
      cameraIndex == CurrentCameraData().GetOr(0) &&
      cap == Some(Capture(cameraIndex, true)) &&
      captureSize == CurrentResolutionData().GetOr(DefaultSize) &&
      timerActive
    }

    /** `__init__`: build the selectors from the device listing, then open the camera. */
    constructor (deviceListing: Option<string>)
      ensures Valid() && Started()
      ensures cameraNames == CameraMenu(deviceListing)
      ensures cameraCurrent == if cameraNames == [] then -1 else 0
      ensures !enable4K && resolutionItems == ResolutionMenu(false)
      ensures resolutionCurrent == 0 && captureSize == DefaultSize
      ensures releasedCaptures == [] && releasedWriters == []
      ensures !recording && videoWriter == None && frameTimes == [] && fps == 0.0
    {
      cameraIndex := 0;
      recording := false;
      cap := None;
      releasedCaptures, releasedWriters := [], [];
      captureSize := DefaultSize;
      videoWriter := None;
      frameTimes := [];
      fps := 0.0;
      timerActive := false;
      cameraNames := [];
      cameraCurrent := -1;
      resolutionItems := [];
      resolutionCurrent := -1;
      enable4K := false;
      recordButtonText := StartRecordingText;
      new;
      DetectCameras(deviceListing);
      PopulateResolutions();
      StartCamera();
    }

    /**
     * `detect_cameras`: clear the camera selector and add every name the listing
     * yields with its position as data. The first entry added becomes current.
     */
    method DetectCameras(output: Option<string>)
      modifies this`cameraNames, this`cameraCurrent
      ensures cameraNames == CameraMenu(output)
      ensures cameraCurrent == if cameraNames == [] then -1 else 0
    {
      var names: seq<string> := [];
      if output.Some? {
        var lines := SplitLines(output.value);
        var i := 0;
        while i < |lines|
          invariant 0 <= i <= |lines|
          invariant ListedCameras(lines) == names + ListedCameras(lines[i..])
        {
          var line := lines[i];
          assert lines[i..][0] == line && lines[i..][1..] == lines[i + 1..];
          if Contains(line, "dshow") && Contains(line, "video") {
            var parts := SplitOn(line, '"');
            if |parts| < 2 {
              // `parts[1]` raises IndexError: the handler ends the loop
              break;
            }
            var name := parts[1];
            names := names + [name];
          }
          i := i + 1;
        }
      }
      // `clear()` leaves no current entry; the first `addItem` makes entry 0 current
      cameraNames := names;
      cameraCurrent := if names == [] then -1 else 0;
    }

    /**
     * `populate_resolutions`: clear the resolution selector and add the entries for the
     * 4K setting. The first entry added becomes current.
     */
    method PopulateResolutions()
      modifies this`resolutionItems, this`resolutionCurrent
      ensures resolutionItems == ResolutionMenu(enable4K) && resolutionCurrent == 0
    {
      resolutionItems, resolutionCurrent := [], -1;
      var resolutions := StandardResolutions;
      if enable4K {
        resolutions := UhdResolutions + resolutions;
      }
      for i := 0 to |resolutions|
        invariant resolutions == Resolutions(enable4K)
        invariant resolutionItems == MenuOf(resolutions[..i])
        invariant resolutionCurrent == if i == 0 then -1 else 0
      {
        var size := resolutions[i];
        assert MenuOf(resolutions[..i + 1]) == MenuOf(resolutions[..i]) + [ResolutionItem(size)];
        resolutionItems := resolutionItems + [ResolutionItem(size)];
        if resolutionCurrent == -1 {
          resolutionCurrent := 0;
        }
      }
      assert resolutions[..|resolutions|] == resolutions;
    }

    /**
     * `update_resolution_list`: rebuild the menu and select the entry carrying the
     * label selected before, if any. The camera ends up restarted with the final
     * selection, as the selector's change signal leaves it.
     */
    method UpdateResolutionList()
      requires Valid()
      modifies this`resolutionItems, this`resolutionCurrent
      modifies this`cameraIndex, this`cap, this`captureSize, this`timerActive, this`releasedCaptures
      ensures Valid() && Started()
      ensures resolutionItems == ResolutionMenu(enable4K)
      ensures releasedCaptures == old(releasedCaptures) + (if old(cap).Some? then [old(cap).value] else [])
      ensures SelectsSize(resolutionItems, resolutionCurrent, old(resolutionItems[resolutionCurrent].data))
    {
      // `currentText()` is the label of the current entry's size
      var previous := resolutionItems[resolutionCurrent].data;
      PopulateResolutions();
      resolutionCurrent := Reselect(resolutionItems, previous);
      RestartCamera();
    }

    /** The "Enable 4K" box is clicked: flip it and rebuild the menu. */
    method Toggle4K()
      requires Valid()
      modifies this`enable4K, this`resolutionItems, this`resolutionCurrent
      modifies this`cameraIndex, this`cap, this`captureSize, this`timerActive, this`releasedCaptures
      ensures Valid() && Started()
      ensures enable4K == !old(enable4K)
      ensures resolutionItems == ResolutionMenu(enable4K)
      ensures releasedCaptures == old(releasedCaptures) + (if old(cap).Some? then [old(cap).value] else [])
      ensures SelectsSize(resolutionItems, resolutionCurrent, old(resolutionItems[resolutionCurrent].data))
    {
      enable4K := !enable4K;
      UpdateResolutionList();
    }

    /** `start_camera`: open the selected camera at the selected size, or the defaults. */
    method StartCamera()
      modifies this`cameraIndex, this`cap, this`captureSize, this`timerActive
      ensures Started()
    {
      var data := CurrentCameraData();
      cameraIndex := if data.None? then 0 else data.value;
      var resolution := CurrentResolutionData();
      var size := if resolution.Some? then resolution.value else DefaultSize;
      cap := Some(Capture(cameraIndex, true));
      captureSize := size;
      timerActive := true;
    }

    /**
     * `restart_camera`: stop the timer, release the capture and start again. The
     * released capture is the one open before, so none is left unreleased.
     */
    method RestartCamera()
      modifies this`cameraIndex, this`cap, this`captureSize, this`timerActive, this`releasedCaptures
      ensures Started()
      ensures releasedCaptures == old(releasedCaptures) + (if old(cap).Some? then [old(cap).value] else [])
    {
      timerActive := false;
      if cap.Some? {
        releasedCaptures := releasedCaptures + [cap.value];
      }
      StartCamera();
    }

    /** The user picks camera entry `i`; a change of index restarts the camera. */
    method SelectCamera(i: int)
      requires Valid() && 0 <= i < |cameraNames|
      modifies this`cameraCurrent, this`cameraIndex, this`cap, this`captureSize, this`timerActive
      modifies this`releasedCaptures
      ensures Valid() && cameraCurrent == i
      ensures i != old(cameraCurrent) ==> Started() && cameraIndex == i
      ensures i != old(cameraCurrent) ==>
        releasedCaptures == old(releasedCaptures) + (if old(cap).Some? then [old(cap).value] else [])
      ensures i == old(cameraCurrent) ==> unchanged(this)
    {
      if i != cameraCurrent {
        cameraCurrent := i;
        RestartCamera();
      }
    }

    /** The user picks resolution entry `i`; a change of index restarts the camera. */
    method SelectResolution(i: int)
      requires Valid() && 0 <= i < |resolutionItems|
      modifies this`resolutionCurrent, this`cameraIndex, this`cap, this`captureSize, this`timerActive
      modifies this`releasedCaptures
      ensures Valid() && resolutionCurrent == i
      ensures i != old(resolutionCurrent) ==> Started() && captureSize == resolutionItems[i].data
      ensures i != old(resolutionCurrent) ==>
        releasedCaptures == old(releasedCaptures) + (if old(cap).Some? then [old(cap).value] else [])
      ensures i == old(resolutionCurrent) ==> unchanged(this)
    {
      if i != resolutionCurrent {
        resolutionCurrent := i;
        RestartCamera();
      }
    }

    /**
     * `update_frame`, given whether the device opened (`deviceOpen`), whether a frame
     * was read, and the clock reading `now`. `isOpened()` holds for a capture that is
     * not released and whose device opened. `raised` is the division by zero
     * when the window's first and last timestamps are equal; it skips the rest.
     */
    method UpdateFrame(deviceOpen: bool, grabbed: bool, now: real) returns (raised: bool)
      requires Valid()
      modifies this`frameTimes, this`fps, this`videoWriter
      ensures Valid()
      ensures !(cap.Some? && cap.value.open && deviceOpen && grabbed) ==>
        !raised && frameTimes == old(frameTimes) && fps == old(fps) && videoWriter == old(videoWriter)
      ensures cap.Some? && cap.value.open && deviceOpen && grabbed ==> frameTimes == Slide(old(frameTimes), now)
      ensures raised <==>
        cap.Some? && cap.value.open && deviceOpen && grabbed && |frameTimes| > 1 && frameTimes[|frameTimes| - 1] == frameTimes[0]
      ensures fps == if cap.Some? && cap.value.open && deviceOpen && grabbed && |frameTimes| > 1 && !raised
                     then Rate(frameTimes) else old(fps)
      ensures videoWriter ==
        if cap.Some? && cap.value.open && deviceOpen && grabbed && !raised && recording
        then Some(old(videoWriter).value.Written()) else old(videoWriter)
    {
      raised := false;
      if cap.Some? && cap.value.open && deviceOpen && grabbed {
        frameTimes := frameTimes + [now];
        while frameTimes != [] && now - frameTimes[0] > WindowSeconds
          invariant Prune(frameTimes, now) == Slide(old(frameTimes), now)
          modifies this`frameTimes
          decreases |frameTimes|
        {
          frameTimes := frameTimes[1..];
        }
        if |frameTimes| > 1 {
          var span := frameTimes[|frameTimes| - 1] - frameTimes[0];
          if span == 0.0 {
            raised := true;
            return;
          }
          fps := |frameTimes| as real / span;
        }
        if recording && videoWriter.Some? {
          videoWriter := Some(videoWriter.value.Written());
        }
      }
    }

    /**
     * `toggle_recording`. Starting asks for a file name (`path`, empty when the dialog
     * is cancelled) and opens a writer at the selected size, or 1920x1080; a cancelled
     * dialog changes nothing. Stopping releases and drops the writer.
     */
    method ToggleRecording(path: string)
      requires Valid()
      modifies this`recording, this`videoWriter, this`recordButtonText, this`releasedWriters
      ensures Valid()
      ensures !old(recording) && path == "" ==>
        !recording && videoWriter == old(videoWriter) && recordButtonText == old(recordButtonText)
      ensures !old(recording) && path != "" ==>
        recording && videoWriter == Some(NewWriter(path, RecordingFps, CurrentResolutionData().GetOr(DefaultSize)))
      ensures !old(recording) ==> releasedWriters == old(releasedWriters)
      ensures old(recording) ==> !recording && videoWriter == None
      ensures old(recording) ==>
        releasedWriters == old(releasedWriters) + (if old(videoWriter).Some? then [old(videoWriter).value] else [])
    {
      if !recording {
        var data := CurrentResolutionData();
        var size := if data.Some? then data.value else DefaultSize;
        if path == "" {
          return;
        }
        videoWriter := Some(NewWriter(path, RecordingFps, size));
        recording := true;
        recordButtonText := StopRecordingText;
      } else {
        recording := false;
        if videoWriter.Some? {
          releasedWriters := releasedWriters + [videoWriter.value];
        }
        videoWriter := None;
        recordButtonText := StartRecordingText;
      }
    }

    /** `closeEvent`: stop the timer and release the capture and the writer. */
    method CloseEvent()
      requires Valid()
      modifies this`timerActive, this`cap, this`videoWriter, this`releasedCaptures, this`releasedWriters
      ensures Valid() && !timerActive
      ensures releasedCaptures == old(releasedCaptures) + (if old(cap).Some? then [old(cap).value] else [])
      ensures releasedWriters == old(releasedWriters) + (if old(videoWriter).Some? then [old(videoWriter).value] else [])
      ensures cap == if old(cap).Some? then Some(old(cap).value.Released()) else None
      ensures videoWriter == if old(videoWriter).Some? then Some(old(videoWriter).value.Released()) else None
    {
      timerActive := false;
      if cap.Some? {
        releasedCaptures := releasedCaptures + [cap.value];
        cap := Some(cap.value.Released());
      }
      if videoWriter.Some? {
        releasedWriters := releasedWriters + [videoWriter.value];
        videoWriter := Some(videoWriter.value.Released());
      }
    }
  }
}
