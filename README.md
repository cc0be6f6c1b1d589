# Librer detection engine in Dafny

Librer automates a game screen. It looks for a target icon by multi-scale
template matching, clicks it, and finds the player character the same way. It
then watches for a red arrow around the character and drags the character
towards the arrow's bearing. The engine exists in four versions:

- `app.py`: a Qt front end whose `DetectorWorker` thread reads a JSON settings
  file and can be paused, resumed and stopped.
- `main.py`: a command-line `MainController` whose settings are the constants of
  `config.py`.
- `detectArrow.py` and `detectIcon.py`: two earlier standalone scripts. Their
  loops run when the file is loaded.

The model treats the image library as an oracle:

- A template match at a scale (or at an angle and a scale) returns a score and
  an offset (`Match`).
- A colour capture returns contours as records of their measured features
  (`Contour`).
- Trigonometry is passed in as functions: the bearing `atan2`, the circular
  mean's `atan2` of the sums, and the drag heading `(sin, -cos)`.
- Random click offsets are integer draws that are reduced into range.
- The screen size is a parameter.
- Time-driven loops are modelled over what happened: the polls of one arrow
  wait, or the passes of a controller loop.

What is verified is the selection, skip, threshold, clamp and control-flow
logic built on those answers. It is stated against specification functions:

- `Argmax.Scan` is the first strict maximum.
- `Matching.Located` is the thresholded search.
- `Blobs.Chosen` is the contour choice.
- `Trace.AttemptStep` is one arrow attempt.
- `App.Loop` is the worker's outer loop; `Cli.Passes` is the controller's.

Each of these is connected to its partner by lemmas:

- `IsFirstMax` for the scan.
- `LocatedSpec` for the thresholded search.
- `Walk`, an automaton over the action log that admits only the program's
  order.
- `Hear`, an automaton over the message log that admits a status message only
  on a change of status.

Modules:

- `Base`: Option, points, sizes, regions.
- `Geometry`: Python `round`/`int`, `% 360`, clamps, click and drag points.
- `Argmax`: the shared strict-`>` scan with its initial -1.
- `Matching`: `np.linspace`, resized template sizes, the oversize skip, the
  thresholded search and its loop.
- `Blobs`: the arrow-blob filter, the choice, one sighting and the hit
  collection.
- `Compass`: `get_direction_from_angle`.
- `Config`: `load_cfg`.
- `Trace`: the attempt and pass steps shared by both controllers.
- `App`: the `app.py` detectors and the `DetectorWorker` class.
- `Cli`: the `main.py` detectors and the `MainController` class.
- `DetectArrow` and `DetectIcon`: the two scripts.

## Model

| member | source | states |
|---|---|---|
| Geometry.Trunc | app.py:128 | `int()` of a float truncates toward zero: the result is within one below a non-negative value and within one above a negative one |
| Geometry.Round | app.py:93-96 | Python `round` is within one half of its argument and breaks ties to the even integer |
| Geometry.RoundWithin | app.py:93-96 | rounding a value between two integers stays between them |
| Geometry.RoundOfInteger | app.py:93-96 | rounding an integer-valued float gives that integer back |
| Geometry.Mod360 | main.py:520 | `% 360` on a float gives a value in [0, 360), unchanged for an angle already in range |
| Geometry.Mod360Periodic | main.py:520 | shifting an angle by whole turns does not change its normalised value |
| Geometry.Clamp | app.py:157-158 | `max(lo, min(hi, v))` lies in [lo, hi], is `v` inside the range and the nearer end outside it |
| Geometry.ClampContracts | app.py:300-301 | clamping never moves a point farther from any point inside the range |
| Geometry.ClampRegion | app.py:91-97 | `clamp_region_to_screen` yields a region with its corner on screen, width and height at least 1, and its far edges within the screen |
| Geometry.ClampRegionKeepsOnScreen | app.py:91-97 | a region already on screen is returned unchanged |
| Geometry.ClampRegionIdempotent | app.py:91-97 | clamping a clamped region returns it unchanged |
| Geometry.CenterInsideBox | app.py:144-149 | `get_center_position` lies inside the scaled template box placed at the location |
| Geometry.ClickPoint | app.py:156-158 | the click point is clamped into [0, sw-1] x [0, sh-1] |
| Geometry.ClickNearCenter | app.py:154-158 | for an on-screen centre, the clamped click stays within the offset reach of the centre on both axes |
| Geometry.DragTarget | app.py:300-303 | the drag release is on screen, and equals the rounded raw target whenever that target is already on screen |
| Argmax.Scan | app.py:240-263 | the running best keeps a score of at least the initial -1 and a winner index inside the candidates |
| Argmax.ScanIsFirstMax | app.py:133-137 | the scan's winner is the first eligible candidate of maximal score above -1, and there is no winner exactly when no eligible candidate beats -1 |
| Argmax.FirstMaxUnique | app.py:133-137 | there is only one first maximum |
| Argmax.Accept | app.py:139-142 | the threshold passes on the scan's own winner or nothing |
| Argmax.AcceptCharacterised | app.py:213-216 | a result exists exactly when some eligible candidate scores at least the confidence and above -1, and it is the first maximum |
| Matching.Linspace | app.py:126 | `np.linspace(a, b, n)` has n values, starts at a and, with the endpoint, ends at b |
| Matching.LinspaceOrdered | detectArrow.py:163 | for a <= b the sweep is non-decreasing and within [a, b], and without the endpoint stays below b |
| Matching.RoundedDimsPositive | app.py:200-201 | `max(1, int(round(...)))` sizes are at least one pixel |
| Matching.LocatedSpec | app.py:126-142 | a search result is the first maximum among the eligible scales, scores at least the confidence and every eligible scale, and is at the match offset plus the region origin; there is none exactly when no eligible scale reaches the confidence |
| Matching.Sweep | app.py:199-211 | the scale loop leaves the best correlation and the translated location of the first strictly best eligible scale |
| Matching.ThresholdIsLocated | app.py:213-216 | `max_corr >= confidence` on the loop's result is the thresholded search |
| Blobs.AcceptedScoresPositive | app.py:260-263 | an accepted contour has positive area and a score above -1, so the first accepted contour always replaces `best = None` |
| Blobs.FlatBoxRejected | app.py:247-250 | `w * h or 1` on a flat box gives an extent equal to the area, which fails the extent test once the minimum area exceeds 0.9 |
| Blobs.ZeroPerimeterRejected | app.py:256-259 | `arcLength or 1` on a zero perimeter makes circularity large and rejects the contour |
| Blobs.ChosenSpec | app.py:240-266 | a contour is chosen exactly when one passes all four filters, and the choice is the first accepted contour of maximal score |
| Blobs.SearchWindow | app.py:219-222 | the square window of side twice the radius around the centre is clamped on screen |
| Blobs.SightedSpec | app.py:218-279 | a sighting needs a capture and an accepted contour with nonzero `m00`; its corner is the box corner in screen coordinates and its bearing lies in [0, 360); with measured boxes there is none exactly when no contour is accepted or the chosen one has `m00 == 0` |
| Blobs.FindArrowByColor | app.py:218-279 | the contour loop returns the sighting of the chosen contour |
| Blobs.Angles | app.py:284-289 | the collected angles are at most the polls |
| Blobs.AnglesAreHits | app.py:286-289 | the angles are exactly the hits' angles, and the last location is the last poll that hit |
| Blobs.CircularMean | app.py:81-89 | the circular mean of no angles is None; otherwise it lies in [0, 360) |
| Blobs.WaitOutcomeSpec | app.py:290-293 | a steady wait has at least `min_hits` and at least one hit, the last hit's location and an angle in [0, 360); too few hits give (None, None, 0) |
| Blobs.WaitForArrow | app.py:281-293 | the poll loop returns the wait outcome of the polls that happened |
| Blobs.Polls | app.py:285-289 | poll k is the sighting of frame k |
| Compass.DirectionFromAngle | main.py:518-538 | the direction is never the unknown label |
| Compass.Sector | main.py:521-536 | an independent sector index in 0..7 |
| Compass.DirectionIsSector | main.py:518-538 | the chain of tests agrees with the sector index of the normalised angle |
| Compass.DirectionIsNearest | main.py:518-538 | the label is the compass point within 22.5 degrees of the normalised angle, or straight up from 337.5 |
| Compass.DirectionPeriodic | main.py:520 | whole turns do not change the direction |
| Compass.SectorBoundaries | main.py:521-536 | 22.5 and 337.5 are straight up, 67.5 is up-right, 112.5 is right, 360 is up and -90 is left |
| Config.Merged | app.py:67-71 | the merged settings hold every key of the file and of the defaults, the file's values kept and the missing defaults added |
| Config.FillMissing | app.py:68-70 | the fill loop adds every missing default and overwrites nothing |
| Config.LoadCfg | app.py:63-72 | with a file, its keys win and every default key is present; without one, the defaults |
| Config.MergeIdempotent | app.py:63-72 | loading merged settings again changes nothing, and a file of the defaults loads as the defaults |
| Trace.Jitter | app.py:154-155 | `random.randint(-reach, reach)` stays in [-reach, reach] |
| Trace.JitterOnto | app.py:154-155 | every offset in range is some draw |
| Trace.ClickAtSpec | app.py:151-161 | `click_center` clicks exactly when `location and scale` and `cx and cy` hold; the click is on screen and, for an on-screen centre, within the reach |
| Trace.ClickFromCenter | main.py:171-182 | the jittered clamped click is on screen and near an on-screen centre |
| Trace.AttemptOpsAdmitted | app.py:386-418 | the actions of any attempt follow the program's order: check, optional click, character search, wait, drag, confirming click |
| Trace.CharacterOpsAdmitted | app.py:399-415 | after the character search, the wait and, only after a steady wait, the drag and the click are in order |
| Trace.AttemptStepOrdered | app.py:386-418 | an attempt keeps the action log in program order |
| Trace.CheckKeepsOrder | app.py:378 | an icon search may follow any well-ordered log |
| Trace.AttemptChecksOnce | app.py:388 | each attempt starts with exactly one icon check |
| Trace.AttemptNotesQuiet | app.py:394-415 | an attempt whose icon is still there logs no status message |
| Trace.AttemptNotesHeard | app.py:388-392 | an attempt's messages change the status only by resetting it to None, and only when the icon vanished |
| Trace.AttemptStepConsistent | app.py:388-392 | an attempt keeps the status consistent with the log; a vanished icon resets `last_status` to None |
| Trace.FoundStepConsistent | app.py:379-382 | "found" is logged only on a change of status and sets the status to found |
| Trace.SearchStepConsistent | app.py:419-427 | "searching" is logged only on a change; afterwards a report is logged exactly when more than 30 s passed |
| App.FindImageWithScaling | app.py:115-142 | the icon search skips oversized truncated templates; a result is a swept scale that fits, reaches the confidence and is located at its offset plus the region origin |
| App.FindCharacter | app.py:188-216 | the same with templates of at least one pixel and a found location required |
| App.CommandsStop | app.py:331-333 | the worker is stopped exactly when it was stopped or a stop arrived |
| App.CommandsWithoutResume | app.py:325-333 | without a resume a paused worker stays paused unless a stop wakes it |
| App.AttemptLoopBound | app.py:385-418 | the attempt loop checks the icon at most `MAX_ARROW_ATTEMPTS` times |
| App.PassBound | app.py:371-428 | a pass checks the icon at most `1 + MAX_ARROW_ATTEMPTS` times, and not at all while paused |
| App.AttemptLoopSound | app.py:385-418 | the attempt loop keeps actions in order and messages consistent |
| App.TickStepSound | app.py:371-428 | one pass keeps both guarantees |
| App.LoopSound | app.py:370-431 | the whole loop keeps both guarantees |
| App.RunSound | app.py:338-431 | a fresh worker's run ends with both guarantees |
| App.PausedStaysIdle | app.py:373-375 | a paused worker takes no action and logs nothing until a resume |
| App.StopIsFinal | app.py:371 | the pass that sees a stop is the last |
| App.DetectorWorker.constructor | app.py:317-323 | a new worker may run and is not stopped |
| App.DetectorWorker.Pause | app.py:325-326 | pause clears the run flag |
| App.DetectorWorker.Resume | app.py:328-329 | resume sets the run flag |
| App.DetectorWorker.Stop | app.py:331-333 | stop sets the stop flag and also the run flag |
| App.DetectorWorker.Deliver | app.py:325-333 | the flags after a run of commands |
| App.DetectorWorker.Reposition | app.py:405-411 | a steady arrow appends the hit note, the drag, the note before the second click and that click, in this order, and nothing else |
| App.DetectorWorker.FollowCharacter | app.py:399-415 | what follows the character search, as in the attempt step: the arrow wait, then, when the arrow held still, the drag, the note before the second click, and the click |
| App.DetectorWorker.Attempt | app.py:386-418 | one attempt updates status, log and actions as the attempt step does; `gone` says the icon vanished |
| App.DetectorWorker.Pass | app.py:377-428 | one pass updates the worker as the pass step does |
| App.DetectorWorker.Run | app.py:338-431 | the run ends with the flags, log and actions of the loop model |
| Cli.NewIconDetector | main.py:110-121 | the confidence defaults to `ICON_CONFIDENCE` |
| Cli.IconSearchSpec | main.py:141-157 | no scale is skipped; there is no result exactly when no scale reaches the confidence; a result is the first best swept scale at its offset plus the region origin |
| Cli.FindImageWithScaling | main.py:123-157 | missing arguments take `ICON_SCALE_STEPS` and `ICON_SCALE_RANGE`, then the search |
| Cli.NewArrowDetector | main.py:193-204 | the radius defaults to `ARROW_SEARCH_RADIUS` |
| Cli.FindCharacter | main.py:206-249 | missing arguments take the character defaults; a result fits, reaches the confidence and sits at its offset plus the origin |
| Cli.FindArrowByColorAround | main.py:251-333 | `min_area` defaults to `ARROW_MIN_AREA`, then the sighting |
| Cli.WaitForArrowAround | main.py:335-360 | `min_hits` and `min_area` take their defaults, then the wait outcome |
| Cli.OneSightingSuffices | main.py:358-359 | with `ARROW_MIN_HITS` at 1, one sighting is enough for a location |
| Cli.MainController.constructor | main.py:392-408 | a new controller has no status and empty logs |
| Cli.MainController.Reposition | main.py:487-504 | a steady arrow appends the hit note, the drag, the note before the second click and that click, in this order, and nothing else |
| Cli.MainController.FollowCharacter | main.py:476-511 | what follows the character search, as in the attempt step: the arrow wait, then, when the arrow held still, the drag, the note before the second click, and the click |
| Cli.MainController.Attempt | main.py:454-514 | one attempt updates status, log and actions as the attempt step does |
| Cli.MainController.ArrowDetectionLoop | main.py:447-516 | the attempt loop as the attempts model |
| Cli.MainController.RunPass | main.py:417-442 | one pass as the pass model |
| Cli.MainController.Run | main.py:410-445 | the passes before the interrupt as the run model |
| Cli.AttemptsBound | main.py:453 | at most `MAX_ARROW_ATTEMPTS` icon checks in the attempt loop |
| Cli.PassBound | main.py:418-427 | at most `1 + MAX_ARROW_ATTEMPTS` icon checks per pass |
| Cli.GoneResetsStatus | main.py:455-459 | a vanished icon ends the loop with `last_status` None |
| Cli.AttemptsSound | main.py:453-514 | attempts keep actions in order and messages consistent |
| Cli.PassSound | main.py:417-442 | a pass keeps both guarantees |
| Cli.PassesSound | main.py:416-442 | the passes keep both guarantees |
| Cli.RunSound | main.py:410-445 | a fresh controller's run keeps both guarantees |
| DetectArrow.ImageSearchSpec | detectArrow.py:56-102 | a load failure gives (None, None); otherwise a result is a fitting swept scale reaching the confidence, scoring at least every fitting scale and the first such scale, at its offset plus the origin, and there is none exactly when no fitting scale reaches it |
| DetectArrow.FindImageWithScaling | detectArrow.py:56-102 | the loop with the rounded, skipped templates returns the search result |
| DetectArrow.Row | detectArrow.py:166 | the inner loop visits each scale with the current angle |
| DetectArrow.Grid | detectArrow.py:163-166 | the nested loops visit angles times scales poses |
| DetectArrow.GridAt | detectArrow.py:163-166 | pose (angle i, scale j) is visited at position i * scales + j |
| DetectArrow.GridMembers | detectArrow.py:163-166 | every visited pose pairs a swept angle with a swept scale |
| DetectArrow.GridHit | detectArrow.py:163-190 | a grid result is a swept pose that fits, reaches the confidence, scores at least every fitting pose and is the first best; there is none exactly when no fitting pose reaches the confidence |
| DetectArrow.AngleInRange | detectArrow.py:163 | every swept angle of an increasing range lies in [lo, hi) |
| DetectArrow.RotatedSpec | detectArrow.py:123-190 | a result needs a loaded template and a capture, is the first best pose in angle-major order, reaches the confidence, scores at least every fitting pose, is at its offset plus the window corner, and has its angle in [lo, hi) |
| DetectArrow.RotatedNone | detectArrow.py:123-190 | there is no result exactly when the template did not load, the capture failed, or no fitting pose reaches the confidence |
| DetectArrow.FindRotatedAndScaledImage | detectArrow.py:123-190 | the nested loops return the rotated search result |
| DetectArrow.DragFromCenterTowards | detectArrow.py:301-323 | the drag starts at the rounded centre and ends on screen, at the rounded raw target when that is on screen |
| DetectArrow.ScriptFind | detectArrow.py:341-346 | a character found in a round means this round's template read succeeded, at a swept scale reaching the confidence, with the centre inside the scaled template box |
| DetectArrow.ScriptRoundSpec | detectArrow.py:338-365 | a round whose template re-read fails never drags; otherwise the script drags only after a found character with nonzero scale and at least two sightings, from the rounded centre inside the scaled box to a point on screen |
| DetectArrow.OneSightingIsNotEnough | detectArrow.py:349-352 | with `min_hits=2`, a single sighting gives (None, None, 0) |
| DetectIcon.SearchAsWritten | detectIcon.py:21-24 | the written function returns a bare None exactly when the template did not load |
| DetectIcon.Sweeps | detectIcon.py:35-52 | the loop over every scale returns the thresholded first best |
| DetectIcon.FindImageWithScalingAsWritten | detectIcon.py:6-52 | the function as written, bare None included |
| DetectIcon.LoadFailureCannotUnpack | detectIcon.py:21-24 | the caller's two-name unpacking fails on a load failure and succeeds on every loaded template |
| DetectIcon.FindImageWithScaling | detectIcon.py:6-52 | the corrected function returns the corrected search |
| DetectIcon.CorrectedAgrees | detectIcon.py:21-24 | the corrected function always unpacks, agrees on every loaded template and maps a load failure to (None, None) |
| DetectIcon.SearchSpec | detectIcon.py:35-52 | every scale is tried; a result is the first best scale reaching the confidence at its offset plus the region origin; none exactly when no scale reaches it |
| DetectIcon.CentreInsideFind | detectIcon.py:67-70 | a centre is computed exactly when a location came back (it is never used: line 72 prints the top-left location), and it lies inside the template box scaled by a factor in [0.95, 1.05] |
| DetectIcon.Watch | detectIcon.py:62-85 | each pass re-reads the template (line 21); the run stops with an uncaught error exactly at the first pass whose read fails, and every earlier pass reports what line 72 prints, the top-left location of its find, or nothing on a miss |

## Left out

- OpenCV is not modelled. Template matching, colour masks, contours, moments and
  resizing appear as oracle results: `Match` per scale or pose, `Contour`
  records per capture.
- Floating-point trigonometry is not modelled. `atan2`, `sin`/`cos` and the
  circular mean's `atan2` are parameters; π is a rational constant.
- The pyautogui I/O is left out. Screenshots, clicks, mouse moves and `size()`
  are parameters or entries of the action log.
- A screenshot has exactly the size of its region.
- The rounding of float regions at detectArrow.py:67-68 and main.py:215-216 is
  left out: regions are integer.
- Python floats are modelled as exact reals. Rounding errors are not modelled.
- `random.randint` is a draw parameter reduced into range.
- `time.sleep` and `time.time` are left out. Each controller pass receives one
  `now`, while Python reads the clock twice.
- The arrow wait's timeout appears only as the polls that happened.
- Threads and events are left out. Pause, resume and stop arrive as commands
  delivered before each test of the outer loop condition (app.py:371) and before
  each test of the attempt loop condition (app.py:386). A command that Python
  would see in the middle of an attempt takes effect at the next of these tests.
- The `KeyboardInterrupt` of main.py:444 is modelled only between passes.
- `show_menu`, `show_config` and `main()` of `main.py` are left out. The `print`
  calls of `main.py` that report the same events as `app.py`'s `_log` calls are
  modelled by those notes; every other print is left out. These include the
  click announcement of main.py:184, the start-up lines of main.py:412-413 and
  main.py:449, the precautionary-click confirmation of main.py:468, the
  announcements before the character search and the drag (main.py:471, 493),
  the confirmation after the second icon click (main.py:502), the message when
  the attempts run out (main.py:516), and the compass label in the hit message.
- `resizeWindow.py`, `resize_game_window` and the Qt UI (app.py:436-975) are
  left out, as are `save_cfg` and `_ui_to_cfg`.
- Converting the JSON settings to typed values is left out. `App.Settings` takes
  them typed.
- Exceptions that abort a call are not modelled:
  - resizing to a zero size;
  - `matchTemplate` on an oversized template in main.py and detectIcon.py;
  - a capture error outside a `try`;
  - the missing `try/finally` around the drag.
- The start-up template loads are assumed to succeed: the `raise SystemExit(1)`
  of detectArrow.py:325-335 and the failing `.shape` on a missing `target.png` at
  detectIcon.py:59 are not modelled. The models start from the loaded sizes; the
  reads repeated on every search are modelled (`DetectArrow.ScriptRound`'s
  `load`, `DetectIcon.Watch`'s passes).
- `MainController.constructor`: the `ValueError` of a template that fails to
  load is handled by the menu, so the model starts from loaded templates.
- `search_start_time` starts as `None` in main.py:408. It is modelled as 0.0,
  because it is always set before it is read.
- `App.DetectorWorker.Run`: an initialisation failure is the `loaded` flag and
  ends the run at once.
- The `1.0` in the triple `find_arrow_by_color` returns is not modelled.
- `detectIcon.py` line 28 converts an RGB screenshot with `COLOR_BGR2GRAY`. The
  grey image is an oracle, so this channel swap is not modelled.
- The printed messages of the script loops are not modelled, apart from the found
  location that `DetectIcon.Watch` reports for each pass. `detectArrow.py`'s
  loop is modelled one round at a time, as `DetectArrow.ScriptRound`.
- `find_mvp_arrow_by_color`, `wait_for_arrow`, `circular_mean_deg` and
  `clamp_region_to_screen` in detectArrow.py, and their copies in main.py, are
  the same procedures as in app.py. They are modelled once: `Blobs`,
  `Geometry.ClampRegion`, `Blobs.CircularMean`.

## Findings

| source | as written | input that shows it | evidently intended | confidence | as-written member | corrected member |
|---|---|---|---|---|---|---|
| detectIcon.py:21-24 | a template that fails to load returns a bare `None`, which the caller at line 65 unpacks into two names | a template path that does not load | return the pair `(None, None)`, as detectArrow.py:61-64 does, because the caller at line 65 only works with a pair; the docstring at lines 17-18 documents a bare `None`, which cannot be unpacked either | not executed; low, because line 59 reads the same template at load time and fails first unless the file disappears later | DetectIcon.LoadFailureCannotUnpack | DetectIcon.CorrectedAgrees |
