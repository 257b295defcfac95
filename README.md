# SmartTerminal camera windows in Dafny

SmartTerminal is a pair of desktop webcam viewers. `smart_terminal_camera.py` is a Qt
window and `SmartTerminal.py` is a Tk window. The windows are mostly glue over Qt/Tk,
OpenCV and an `ffmpeg` subprocess. This project models the rules inside their callbacks,
with the libraries turned into inputs:

- `wrappers.dfy` (module `Wrappers`): `Option`.
- `text.dfy` (module `Text`): the Python string operations the windows rely on. These are
  `in` on strings, `split(c)` and `split(c)[1]`, `splitlines()`, `strip()`, and the decimal
  text of an integer in `f"{w}x{h}"` / `f"Camera {i}"`.
- `media.dfy` (module `Media`): value stand-ins for OpenCV's `VideoCapture` and
  `VideoWriter`, and a frame `Size`.
- `camera_app.dfy` (module `CameraApp`): the Qt window, class `SmartTerminalApp`. It covers:
  - the five-second frame-time window behind the FPS overlay;
  - the camera list parsed from the `ffmpeg -list_devices` DirectShow listing;
  - the resolution selector with its optional 4K entries, and selection preservation when
    the 4K box is toggled;
  - the defaults used when a selector has no current data;
  - the recording switch and `closeEvent`.
- `tk_terminal.dfy` (module `TkTerminal`): the Tk window, class `SmartTerminal`. It covers:
  - the probe of camera indices 0..9 and the naming of each camera that answers;
  - the selector values;
  - the capture index chosen for a selector entry;
  - the frame size kept from what the camera reports;
  - the aspect-ratio fit of a frame into the canvas;
  - the recording switch and `on_closing`.

Each window's mutable state is a class whose methods update it. Each class keeps an
invariant `Valid()`, which includes "recording exactly when a writer is present". Pure
rules, such as the parsing, the menus and the fit arithmetic, are functions with lemmas
about them. The loops in the source are methods with loop invariants, proved against
those functions:
- the pruning loop of `update_frame`;
- the parse loop of `detect_cameras`;
- the fill loop of `populate_resolutions`;
- the search loop of `update_resolution_list`;
- the probe loop of the Tk `detect_cameras`.

Library results are parameters:
- the `ffmpeg` output text (`None` when running it raised);
- whether a capture is open and read a frame;
- the clock reading;
- the probe answers for indices 0..9;
- the size a capture reports;
- the file name a save dialog returns (empty when cancelled).

## Model

| member | source | states |
|---|---|---|
| Text.ContainsIff | smart_terminal_camera.py:80 | `sub in s` holds exactly when `sub` occurs at some position of `s` |
| Text.JoinSplitOn | smart_terminal_camera.py:81 | joining the parts of `s.split(c)` with `c` gives `s` back |
| Text.SplitOnFirst | smart_terminal_camera.py:81 | the first part of `s.split(c)` is the text before the first `c`; the other parts are the split of the rest |
| Text.SecondFieldBetween | smart_terminal_camera.py:81 | `s.split(c)[1]` exists exactly when `c` occurs in `s`; it is the text after the first `c` up to the next `c` or the end, and it holds no `c` |
| Text.SplitLinesNoBreaks | smart_terminal_camera.py:79 | no line of `splitlines()` holds a line-boundary character |
| Text.SplitLinesPlain | smart_terminal_camera.py:79 | non-empty text without boundaries is one line |
| Text.SplitLinesAtNewline | smart_terminal_camera.py:79 | `a + "\n" + b` splits into `a` followed by the lines of `b` |
| Text.SplitLinesAtCrLf | smart_terminal_camera.py:79 | `"\r\n"` is a single boundary: `a + "\r\n" + b` splits into `a` followed by the lines of `b` |
| Text.StripTrims | SmartTerminal.py:85 | `strip()` gives a slice `s[i..j]` with only whitespace before `i` and after `j`, with no whitespace at either end, and keeping every non-space character of the line |
| Text.StripSlice | SmartTerminal.py:85 | `strip()` removes a leading and a trailing run of whitespace and nothing else |
| Text.TrimStartDrops | SmartTerminal.py:85 | removing leading whitespace drops a run of whitespace characters from the front and nothing else (helper for `StripSlice`) |
| Text.TrimEndDrops | SmartTerminal.py:85 | removing trailing whitespace drops a run of whitespace characters from the back and nothing else (helper for `StripSlice`) |
| Text.ParseNatToString | smart_terminal_camera.py:106 | reading back the decimal text of a natural number gives the number |
| Text.IntToStringInjective | smart_terminal_camera.py:106 | different integers have different decimal texts |
| Text.SplitAtUnique | smart_terminal_camera.py:106 | `a + "x" + b` with no `x` in `a` determines `a` and `b` |
| CameraApp.Prune | smart_terminal_camera.py:139-140 | definition of the pruning loop: drop the oldest entry while it is more than five seconds before `now`; what it keeps is stated by `SlideShape` and `SlideIsRecent` |
| CameraApp.Slide | smart_terminal_camera.py:137-140 | definition of `frame_times` after a frame: append `now`, then prune; `UpdateFrame` is proved to compute it |
| CameraApp.Rate | smart_terminal_camera.py:142-143 | definition of `len(frame_times) / (frame_times[-1] - frame_times[0])`, defined only for two or more entries whose ends differ; bounded below by `RateAtLeastWindowAverage` |
| CameraApp.SlideShape | smart_terminal_camera.py:137-140 | after a frame at `now`, the window is a suffix of the old window followed by `now`: it is non-empty, ends in `now`, and only the oldest entries are dropped |
| CameraApp.RecentOfFresh | smart_terminal_camera.py:139-140 | a window whose entries are all within five seconds of `now` loses nothing to pruning |
| CameraApp.SlideIsRecent | smart_terminal_camera.py:139-140 | with ordered timestamps, the pruned window holds exactly the timestamps within five seconds of `now`, so every kept `t` has `now - t <= 5` |
| CameraApp.SlideKeepsOrder | smart_terminal_camera.py:137-140 | an ordered window that receives a later timestamp stays ordered |
| CameraApp.RateAtLeastWindowAverage | smart_terminal_camera.py:142-143 | with ordered timestamps and a window of two or more entries whose ends differ, the FPS is at least the entry count divided by five |
| CameraApp.DivideBySmaller | smart_terminal_camera.py:143 | arithmetic helper for `RateAtLeastWindowAverage`: dividing a non-negative amount by a smaller positive span gives more |
| CameraApp.ListedCameras | smart_terminal_camera.py:79-85 | definition of the names the parse loop adds, line by line, ending at a video device line without `"`; characterised by `ListedCamerasByFilter` and `UnquotedLineStopsParse` |
| CameraApp.CameraMenu | smart_terminal_camera.py:72-85 | definition of the camera entries built from the `ffmpeg` output: the parsed names of its lines, none when running it raised |
| CameraApp.ListedCamerasShape | smart_terminal_camera.py:79-83 | the parse yields at most one name per line, and no name holds `"` |
| CameraApp.QuotedRun | smart_terminal_camera.py:79-85 | the longest prefix of lines that all hold `"`; the line after it, if any, has none |
| CameraApp.ListedCamerasByFilter | smart_terminal_camera.py:79-85 | the parsed names are the quoted fields of the video device lines (those containing `dshow` and `video`), in order, up to the first such line without `"` |
| CameraApp.UnquotedLineStopsParse | smart_terminal_camera.py:79-85 | a video device line without `"` raises, and the parse ends: the names before it are kept and every later line is ignored |
| CameraApp.Resolutions | smart_terminal_camera.py:97-103 | definition of the size list: the standard five, with the two 4K sizes in front when 4K is checked; spelled out by `StandardMenu` and `UhdMenu` |
| CameraApp.Label | smart_terminal_camera.py:106 | definition of `f"{w}x{h}"`; one-to-one by `LabelInjective` |
| CameraApp.ResolutionMenu | smart_terminal_camera.py:95-106 | definition of the entries `populate_resolutions` adds, one per size in order; `PopulateResolutions` is proved to build it |
| CameraApp.LabelInjective | smart_terminal_camera.py:106 | two sizes with the same `f"{w}x{h}"` label are the same size |
| CameraApp.StandardMenu | smart_terminal_camera.py:97-99 | without 4K the menu is exactly 1920x1080, 1280x720, 800x600, 640x480, 320x240 |
| CameraApp.DefaultEntryLabel | smart_terminal_camera.py:95-117 | the first standard entry reads "1920x1080" and is the default size |
| CameraApp.UhdMenu | smart_terminal_camera.py:100-103 | with 4K the menu has 7 entries: 3840x2160 and 2560x1440, then the five standard ones |
| CameraApp.MenuSizesDistinct | smart_terminal_camera.py:97-103 | no two entries of either menu carry the same size |
| CameraApp.DistinctLabels | smart_terminal_camera.py:106 | entries with distinct sizes have distinct labels |
| CameraApp.MenuLabelsDistinct | smart_terminal_camera.py:87-106 | no two entries of either menu share a label, so the text search matches at most one |
| CameraApp.SelectsByLabel | smart_terminal_camera.py:88-93 | searching for the label of a size selects the same entry as searching for the size |
| CameraApp.Reselect | smart_terminal_camera.py:88-93 | the search loop selects the first entry whose label is the previously selected one, or keeps entry 0 when there is none |
| CameraApp.RebuildKeepsSize | smart_terminal_camera.py:87-93 | when the previously selected size is in the rebuilt menu, its entry is the only one that can be selected |
| CameraApp.Enable4KKeepsSelection | smart_terminal_camera.py:87-106 | turning 4K on always keeps the selected size |
| CameraApp.Disable4KSelection | smart_terminal_camera.py:87-106 | turning 4K off keeps a standard selection and falls back to entry 0 (1920x1080) from a 4K one |
| CameraApp.SmartTerminalApp.constructor | smart_terminal_camera.py:13-29 | the camera selector holds the listed names with the first one current (none when empty); 4K is off and the resolution selector holds exactly the standard menu with entry 0 (1920x1080) current; the selected camera is open at that size; no capture and no writer has been released; there is no recording, no writer and an empty frame window |
| CameraApp.SmartTerminalApp.Started | smart_terminal_camera.py:108-124 | definition of the state `start_camera` leaves: the selected camera (0 when none) open at the selected size (1920x1080 when none), with the timer running |
| CameraApp.SmartTerminalApp.DetectCameras | smart_terminal_camera.py:72-85 | the camera selector holds exactly the parsed names (entry `k` carrying data `k`), with the first one current, or no current entry when there are none |
| CameraApp.SmartTerminalApp.PopulateResolutions | smart_terminal_camera.py:95-106 | the resolution selector holds exactly the menu for the 4K setting, with entry 0 current |
| CameraApp.SmartTerminalApp.UpdateResolutionList | smart_terminal_camera.py:87-93 | the menu is rebuilt for the 4K setting, the previously selected size stays selected when it is offered (entry 0 otherwise), and the camera is restarted with that selection, so the capture open before, if any, is appended to the log of released captures |
| CameraApp.SmartTerminalApp.Toggle4K | smart_terminal_camera.py:57-58 | clicking the 4K box flips it; the resolution entries become exactly the menu for the new setting, the previous size stays selected when offered, and the capture open before, if any, is appended to the log of released captures |
| CameraApp.SmartTerminalApp.StartCamera | smart_terminal_camera.py:108-124 | the selected camera is opened, camera 0 when none is selected, at the selected size, 1920x1080 when none, and the timer runs |
| CameraApp.SmartTerminalApp.RestartCamera | smart_terminal_camera.py:126-130 | the capture open before, if any, is released (appended to the log of released captures) and the camera is started again |
| CameraApp.SmartTerminalApp.SelectCamera | smart_terminal_camera.py:48-50 | picking another camera entry releases the old capture and restarts on that camera; picking the current one changes nothing at all |
| CameraApp.SmartTerminalApp.SelectResolution | smart_terminal_camera.py:53-54 | picking another resolution entry releases the old capture and restarts at that size; picking the current one changes nothing at all |
| CameraApp.SmartTerminalApp.UpdateFrame | smart_terminal_camera.py:132-166 | with an unreleased capture whose device is open and a frame read, the window slides to `now`; `fps` is recomputed only when the window holds more than one entry and otherwise kept; equal first and last entries raise; while recording the frame goes to the writer; otherwise nothing changes |
| CameraApp.SmartTerminalApp.ToggleRecording | smart_terminal_camera.py:176-195 | a cancelled dialog changes nothing; otherwise start opens a writer at the selected size (1920x1080 when none) and sets recording; stop releases the writer, if any (appended to the log of released writers), and clears recording and the writer; starting releases nothing; recording ⇔ writer present is kept |
| CameraApp.SmartTerminalApp.CloseEvent | smart_terminal_camera.py:207-213 | the timer stops and the capture and the writer, if present, are released; each released one is appended to its log |
| TkTerminal.Probed | SmartTerminal.py:58-69 | definition of the indices below `n` whose probe read a frame, in increasing order; `ProbedExactly` states what it holds |
| TkTerminal.ProbedExactly | SmartTerminal.py:58-69 | the probed indices are strictly increasing and below 10, each one answered the probe, and every index that answered is among them |
| TkTerminal.QuotedName | SmartTerminal.py:85 | definition of `line.strip().split('"')[1]`; `QuotedNameBetween` shows it exists on naming lines and what it is |
| TkTerminal.QuotedNameBetween | SmartTerminal.py:85 | on a line holding `"`, `line.strip().split('"')[1]` exists; it is the text after the first `"` up to the next one, and it holds no `"` |
| TkTerminal.FilterMapAppend | SmartTerminal.py:85 | a comprehension over two lists joined is the two comprehensions joined |
| TkTerminal.ListedNames | SmartTerminal.py:85 | definition of the `names` comprehension: the quoted name of every line holding `"` and not `video devices`, in order |
| TkTerminal.ListedNamesAppend | SmartTerminal.py:85 | the names of a listing split in two are the names of each part, in order |
| TkTerminal.FilterMapAll | SmartTerminal.py:85 | a comprehension has at most one element per input, and every element has each property all kept inputs map to |
| TkTerminal.ListedNamesShape | SmartTerminal.py:85 | at most one name per line, and no name holds `"` |
| TkTerminal.DeviceName | SmartTerminal.py:77-88 | definition of `get_device_name(i)` given the listing: entry `i` of the names, or `f"Camera {i}"` past the end or when running `ffmpeg` raised; `DeviceNameSource` bounds what it can be |
| TkTerminal.DeviceNameSource | SmartTerminal.py:77-88 | a device name is either a quoted name from the listing or `f"Camera {i}"`, and always the latter when running `ffmpeg` raised |
| TkTerminal.NamesFor | SmartTerminal.py:64-66 | one name per probed index |
| TkTerminal.NamesForAppend | SmartTerminal.py:64-66 | naming one more index appends exactly its device name |
| TkTerminal.CaptureIndex | SmartTerminal.py:94 | definition of `cam_indices[index] if index < len(cam_indices) else 0`; `CaptureIndexProbed` shows it is a camera that answered or camera 0 |
| TkTerminal.CaptureIndexProbed | SmartTerminal.py:94 | the capture opened for entry `index` is `cam_indices[index]` when it exists, and is always a camera that answered the probe or camera 0 |
| TkTerminal.FloorTimesBelow | SmartTerminal.py:126-131 | arithmetic helper for `FloorQuotient`/`FitWide`/`FitTall`: `int(p / q)` times `q` does not exceed `p` |
| TkTerminal.FloorTimesAbove | SmartTerminal.py:126-131 | arithmetic helper for `FloorQuotient`/`FitWide`/`FitTall`: one more than `int(p / q)`, times `q`, exceeds `p` |
| TkTerminal.FloorQuotient | SmartTerminal.py:126-131 | `int(p / q)` of non-negative `p` and positive `q` is the largest `w` with `w * q <= p` |
| TkTerminal.WiderCanvas | SmartTerminal.py:121-126 | `canvas_ratio > aspect_ratio` exactly when `cw * fh > fw * ch` |
| TkTerminal.ScaleBelow | SmartTerminal.py:126-132 | arithmetic helper for `FloorQuotient`/`FitWide`/`FitTall`: for positive `q`, `w * q` is below `p * q` exactly when `w` is below `p` |
| TkTerminal.ScaledWidth | SmartTerminal.py:128 | `aspect_ratio * canvas_height` is `fw * ch / fh` |
| TkTerminal.ScaledHeight | SmartTerminal.py:131 | `canvas_width / aspect_ratio` is `cw * fh / fw` |
| TkTerminal.FitToCanvas | SmartTerminal.py:121-132 | definition of the fitted size: the canvas height and the truncated scaled width on a relatively wider canvas, the canvas width and the truncated scaled height otherwise, and `None` for the division by zero on a canvas of height 0 |
| TkTerminal.FitInsideCanvas | SmartTerminal.py:121-132 | for a positive frame size the fit raises exactly when the canvas height is 0. Otherwise the fitted size lies inside the canvas and fills one side: the height on a relatively wider canvas, with the width the truncated `fw * ch / fh`; the width otherwise, with the height the truncated `cw * fh / fw` |
| TkTerminal.FitWide | SmartTerminal.py:126-128 | on a relatively wider canvas the fit is the canvas height and the floor of `fw * ch / fh`, which fits in the width |
| TkTerminal.FitTall | SmartTerminal.py:129-131 | otherwise the fit is the canvas width and the floor of `cw * fh / fw`, which fits in the height |
| TkTerminal.SmartTerminal.constructor | SmartTerminal.py:19-51 | the canvas is 640x480; the probe results and their names are recorded; entry 0 is selected and opened; the frame size is the reported one when both sides are positive, 640x480 otherwise; there is no recording and no writer; and no capture and no writer has been released |
| TkTerminal.SmartTerminal.DetectCameras | SmartTerminal.py:55-75 | `cam_indices` are exactly the answering indices below 10, in increasing order; `cam_names` holds the device name of each; the selector shows them, or the placeholder, with entry 0 selected |
| TkTerminal.SmartTerminal.StartCamera | SmartTerminal.py:90-108 | the capture for entry `index` is opened (`cam_indices[index]`, or 0 past the end); the frame size is replaced only when both reported sides are positive; the window runs; the capture open before, if any, is appended to the log of released captures |
| TkTerminal.SmartTerminal.OnResize | SmartTerminal.py:146-148 | the canvas size is the event's size |
| TkTerminal.SmartTerminal.DisplaySize | SmartTerminal.py:120-132 | the size the current frame is drawn at: it raises exactly on a canvas of height 0, and otherwise lies inside the canvas and fills its width or its height |
| TkTerminal.SmartTerminal.ChangeCamera | SmartTerminal.py:150-153 | the chosen entry becomes current and its capture is opened; the frame size is replaced only when both reported sides are positive, and kept otherwise; the capture open before, if any, is appended to the log of released captures |
| TkTerminal.SmartTerminal.ToggleRecording | SmartTerminal.py:161-177 | a cancelled dialog changes nothing; otherwise start opens a 20 fps writer at the reported capture size and sets recording; stop releases the writer, if any (appended to the log of released writers), and clears recording and the writer; starting releases nothing; recording ⇔ writer present is kept |
| TkTerminal.SmartTerminal.OnClosing | SmartTerminal.py:179-185 | the window stops running, the capture is released, and the writer is released only while recording; each released one is appended to its log |

## Left out

- `main_launcher.py`, `back_to_home` and `take_snapshot` (both windows) are not modelled. They open other windows or save a single image, and carry no rule.
- Qt `resizeEvent` is a second caller of `update_frame`: its effect on the frame window, `fps` and the writer is one call of `CameraApp.SmartTerminalApp.UpdateFrame`, and the inherited resize handling is left out.
- Widget construction, layout, drawing and image conversion are left out. This includes the `QPainter` FPS text, `cvtColor`, `resize`, the pixmap scaling and centring, and the Tk canvas image.
- The selectors are modelled by their entries and current index only.
  - Each Qt camera entry's data is its position, so only the names are kept.
  - Each Qt resolution entry's text is the label of its size, so only the size is kept.
- CameraApp.SmartTerminalApp.UpdateResolutionList: Qt's `currentIndexChanged` cascade is collapsed into one `restart_camera` with the final selection. The cascade comes from `clear()`, `addItem` and `setCurrentIndex` each restarting the camera.
  - The intermediate restarts, each opening and releasing a capture, are not modelled.
  - The extra restart fired while the constructor fills the resolution selector is not modelled either.
  - The capture the constructor's second `start_camera` leaves unreleased is not modelled.
- CameraApp.SmartTerminalApp.SelectCamera, CameraApp.SmartTerminalApp.SelectResolution: the user's pick is the only way modelled to change a selector's index.
- OpenCV is not modelled. Captures and writers are values recording only:
  - which device, path, fps and size were used;
  - how many frames were written;
  - whether the handle was released.

  Reading a frame, its pixels, and whether a device really opens are inputs.
- The `ffmpeg` subprocess is not modelled. Its output is an input, `None` when running it raised. The Qt `except` handler's message is not modelled.
- Time is an input. `time.time()` is a `real`, and the FPS is computed exactly in reals rather than in floating point.
- CameraApp.SmartTerminalApp.UpdateFrame: `now - frame_times[0]` uses exact reals, so float rounding near the five-second edge is not captured. "Every kept `t` has `now - t <= 5`" is proved for non-decreasing timestamps only. A division by zero is reported as `raised`, and the rest of the callback is skipped.
- TkTerminal.DeviceName: each call of `get_device_name` runs `ffmpeg` again. The model uses one listing text for every call in a probe loop. The `except` path is modelled only as the listing being absent; nothing else in the parse can raise, because on a naming line `split('"')[1]` always exists.
- TkTerminal.QuotedName: the `GetOr("")` default is never taken on naming lines (`QuotedNameBetween`). It exists only to keep the function total.
- The unused `device_lines` comprehension in `get_device_name` is not modelled. Its condition always holds and its result is never read.
- The probe captures are not modelled: the capture the Tk `detect_cameras` opens per index, and the one it leaves open when no frame is read. The probe answers are inputs.
- The Tk capture thread (`update_frame`), `root.after_idle` and the Qt `QTimer` are not modelled. They are concurrency and event-loop plumbing. The timer is a flag, and the thread is the `running` flag.
- TkTerminal.SmartTerminal.ToggleRecording: the size the capture reports is an input. `int()` of the reported float is taken as already done.
- TkTerminal.SmartTerminal.StartCamera: the ten warm-up reads are not modelled.
- TkTerminal.SmartTerminal.ChangeCamera: `cam_selector.current()` is taken to be a valid entry index, as it is after a selection event in a read-only combobox.
- TkTerminal.SmartTerminal.DisplaySize, TkTerminal.FitToCanvas: the fit is computed on reals, not floats, and `int()` is `Floor`, which agrees for the non-negative values involved.
