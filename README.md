# v2scan in Dafny

v2scan is a command-line driver for the Minolta VIVID 3D range scanner. It
connects over SCSI and negotiates the camera mode, then runs one of three
commands:

- `status` prints the camera mode;
- `scan` writes one range frame per view as a decimal text file;
- `image` writes one colour picture per view as a TIFF.

When several views are requested, the turntable is turned to each view's angle before its shot, the first one included.

This project models the core of `v2scan.c` and proves properties of it:

- **Option checks.** Module `Options` holds the command-line options and the range check `main` applies to each numeric option.
- **Parameter merge.** Module `CamMode` holds the camera-mode and import-filter records and the merge that `set_cammode` does.
- **Pixel transform.** Module `Pixels` holds the in-place byte transform applied to the picked-up image before the TIFF strip is written. It is an `array` algorithm.
- **Scan file.** Module `ScanFile` holds the text layout of a scan file: a seven-line header, then 640×480 samples printed with `%d`. It also holds its reader. Module `Decimal` supplies `%d` and its inverse.
- **Loop plan.** Module `LoopPlan` computes, for each iteration of the multi-view loop, the loop index, the turntable angle, whether to rotate, and the file name.
- **Device outcomes.** Module `Sdk` describes what the program sees of the VIVID SDK and the file system as a script of call outcomes (`Device`). It also holds the trace of observable events and the texts of `handle_error`.
- **Command flow as functions.** Module `Commands` states, as functions on a `World` value, what each C function does to the program state and the trace. The C functions covered are `get_cammode`, `set_cammode`, `perform_release`, `finish_and_exit`, `handle_error`, the three commands and the final dispatch.
- **Command flow as a class.** Module `Program` holds class `Scanner`, which keeps the source's globals as fields. It runs the same C functions as methods that update those fields in place. Each method is proved to leave exactly the state the matching `Commands` function describes.
- **Trace properties.** Module `Properties` proves properties of the run's trace:
  - the order of the assist calls and the single write-back;
  - that the SCSI session is closed exactly once when the run ends (unless it never opened);
  - which rotations and files each command produces.

`handle_error` only reports: the run goes on after it. `finish_and_exit` closes the SCSI session and ends the run. Both behaviours are kept as the code has them.

Behaviours of the code worth knowing:

- **Pixel transform.** For each 4-byte pixel (A, B, C, D) the loop at `v2scan.c:348-355` produces (D, C, B, D). Byte 3 is copied to byte 0 and byte 3 keeps its value, so byte A is lost. `Pixels.LosesFirstByte` states this. The transform is therefore not an involution, but applying it three times equals applying it once (`Pixels.SwizzleThrice`).
- **Subsampling.** The check at `v2scan.c:596` accepts 1 to 5, although its message says 1-4.
- **Threshold.** The check also accepts 65535, meaning "auto".
- **Multi-view scan names.** For several views, scan files are named `<output><i>.<format>` (`v2scan.c:244`), so even text scans carry the image format's extension.
- **Failed `SCSI Initialize`.** The program exits without `finish_and_exit`, so no session is closed (`v2scan.c:189-193`).
- **Only VVD_FALSE is a failure.** Only VVD_FALSE counts as a failed call. VVD_ILLEGAL is special only for the dual-exposure read (`v2scan.c:166`). Everywhere else it is treated as success, as the code tests `== VVD_FALSE`.

## Model

| member | source | states |
|---|---|---|
| Options.Accepts | v2scan.c:556-605 | an option value is kept exactly when it lies in that option's range (distance 500-2500, laser power 0-255, gain 0-7, rmode 0-7, threshold 0-1023 or 65535, autoread 0-1, colour 0-10, subsampling 1-5, noise 0-3); every accepted value is non-negative, so it is never taken for "unset" |
| Options.SetNumeric | v2scan.c:556-605 | a numeric option is set exactly when its check accepts the value; it then holds that value, every other option is unchanged, and validated options stay validated |
| Options.DefaultsValidated | v2scan.c:20-39 | the built-in defaults (every numeric option -1, format TIFF, count 1) pass the checks |
| CamMode.ApplyOverrides | v2scan.c:405-440 | each of the seven camera-mode fields takes its option's value when the option is >= 0 and keeps the device's value otherwise |
| CamMode.ApplyFilters | v2scan.c:442-462 | fill-hole and dark correction become 1 when their option is given (whatever its value); reduce and filter copy subsampling and noise when given; unset options keep the field |
| CamMode.OverridesIdempotent | v2scan.c:405-440 | applying the overrides a second time changes nothing |
| CamMode.FiltersIdempotent | v2scan.c:442-462 | applying the filters a second time changes nothing |
| CamMode.OverridesWin | v2scan.c:405-440 | with all seven options given, the merged mode is the options' values whatever the device or an autofocus step left |
| CamMode.DefaultsChangeNothing | v2scan.c:20-39 | with the default options, the merge leaves both records unchanged |
| CamMode.ValidatedOptionsTakeEffect | v2scan.c:405-440 | for options that passed the range checks, each field holds the given option or, if unset, the previous value |
| Sdk.UnknownOnlyForUnlisted | v2scan.c:119-150 | `handle_error` prints "unknown error" exactly for codes outside its table |
| Decimal.FormatRoundTrip | v2scan.c:279 | reading back the `%d` text of any integer gives that integer |
| Decimal.FormatInjective | v2scan.c:279 | different integers print differently |
| Decimal.Int32Of | v2scan.c:279 | the printed value is the 32-bit signed reinterpretation of the sample: within range, congruent modulo 2^32, unchanged below 2^31 |
| ScanFile.Text | v2scan.c:263-281 | the scan file is the seven header lines ending in "---end-of-header---", then one line per sample, 7 + 640·480 lines in all |
| ScanFile.RowMajor | v2scan.c:273-281 | the sample at row y, column x is printed on line 7 + 640·y + x |
| ScanFile.DataLinesRoundTrip | v2scan.c:273-281 | parsing the data lines gives back every sample as a 32-bit signed value |
| ScanFile.TextRoundTrip | v2scan.c:263-281 | reading a written scan file (header checked, then samples) returns the frame's samples as printed |
| ScanFile.WriteText | v2scan.c:263-281 | the nested y/x loop over the buffer emits exactly the file `Text` describes |
| Pixels.Swizzle | v2scan.c:346-355 | the transform keeps the length of the buffer |
| Pixels.SwizzleAt | v2scan.c:348-355 | in every 4-byte group, byte 0 takes old byte 3, bytes 1 and 2 are exchanged, byte 3 is kept |
| Pixels.SwizzleAppend | v2scan.c:348-355 | the transform works group by group: transforming a concatenation of whole groups is the concatenation of the transforms |
| Pixels.LosesFirstByte | v2scan.c:350 | (A, B, C, D) becomes (D, C, B, D) whatever A was: the first byte of a pixel is lost |
| Pixels.SwizzleThrice | v2scan.c:348-355 | applying the transform three times equals applying it once |
| Pixels.ShuffleGroup | v2scan.c:350-353 | one loop body rewrites bytes j..j+3 as above and leaves every other byte alone |
| Pixels.SwizzleInPlace | v2scan.c:346-355 | the in-place loop over width·height·4 bytes leaves the buffer equal to `Swizzle` of its old contents |
| LoopPlan.Plan | v2scan.c:239 | the loop runs `count` times, or not at all when count < 1 |
| LoopPlan.StepsTail | v2scan.c:239 | the rest of the loop after index i is the loop from i+1 with the angle advanced by 360/count |
| LoopPlan.PlanAt | v2scan.c:239-248 | iteration i uses angle start + (i-1)·(360/count), rotates exactly when count > 1, and writes `<base><i>.<format>` when count > 1 or the single-shot name otherwise |
| LoopPlan.SingleShot | v2scan.c:231-232 | a single view does not rotate and writes the default-or-given file name |
| LoopPlan.ManyShotsDoNotTurn | v2scan.c:239 | with count > 360 the integer step 360/count is 0, so every view is taken at the start angle |
| LoopPlan.IndexedNameInjective | v2scan.c:244 | different loop indices give different file names |
| LoopPlan.NamesDistinct | v2scan.c:239-248 | in a multi-view run every iteration writes a different file |
| Program.Scanner.constructor | v2scan.c:20-48 | the program starts with zeroed camera mode and filters, empty trace, not exited |
| Program.Scanner.FinishAndExit | v2scan.c:103-110 | closes the SCSI session (one event) and ends the run |
| Program.Scanner.HandleError | v2scan.c:113-152 | records the stage and the SDK's error condition and changes nothing else |
| Program.Scanner.ReportIfFailed | v2scan.c:177-179 | records the call; a VVD_FALSE is reported and the run goes on |
| Program.Scanner.AbortIfFailed | v2scan.c:195-199 | records the call; a VVD_FALSE is reported and then ends the run through `finish_and_exit` |
| Program.Scanner.GetCamMode | v2scan.c:184-200 | opens the session and reads the camera mode into `cammode`; a failed open exits without closing, a failed read closes and exits |
| Program.Scanner.Assist | v2scan.c:375-383 | a requested assist takes over the mode the device leaves; a failure ends the run |
| Program.Scanner.Assists | v2scan.c:375-403 | passive AF, active AF and active AF/AE in this order, each when requested; the first failure ends the run |
| Program.Scanner.Override | v2scan.c:405-440 | updates `cammode` field by field to `ApplyOverrides` of its old value |
| Program.Scanner.SetFilters | v2scan.c:442-462 | updates `imp_para` field by field to `ApplyFilters` of its old value |
| Program.Scanner.SetCamMode | v2scan.c:372-471 | leaves the state `SetCamModeSpec` describes: assists, merge, then the write-back of the merged mode |
| Program.Scanner.PerformRelease | v2scan.c:156-181 | dual-exposure read (VVD_ILLEGAL ends the run, VVD_FALSE is reported) or release, pitch and colour reads, each failure only reported; the range buffer takes new data when its reading call did not fail |
| Program.Scanner.CmdStatus | v2scan.c:203-218 | negotiate, record the status report of the merged mode, close the session |
| Program.Scanner.ScanWrite | v2scan.c:252-283 | an unopenable file ends the run; otherwise the text of the current range buffer is written under the file name |
| Program.Scanner.ScanShot | v2scan.c:242-283 | one `cmd_scan` iteration: rotate when several views, release, write the file |
| Program.Scanner.CmdScan | v2scan.c:221-286 | the prologue, the multi-view loop with its index/angle/file-name updates, then `finish_and_exit`; the final state is `CmdScanSpec` |
| Program.Scanner.Pickup | v2scan.c:323-324 | the picked-up image replaces the current one unless the call fails; a failure is only reported |
| Program.Scanner.SaveImage | v2scan.c:328-364 | for TIFF: an unopenable file ends the run, otherwise the pixel buffer is transformed in place and written; any other format is reported and the run goes on |
| Program.Scanner.ImageShot | v2scan.c:313-364 | one `cmd_image` iteration: rotate, release, pick up, save |
| Program.Scanner.CmdImage | v2scan.c:289-368 | the prologue, the multi-view loop, then `finish_and_exit`; the final state is `CmdImageSpec` |
| Program.Scanner.Perform | v2scan.c:629-636 | runs `status`, `scan` or `image`; any other or missing command prints the usage and exits |
| Properties.AssistOutcome | v2scan.c:375-403 | an assist step ends the run exactly when it was requested and failed (then the trace ends with the session close); otherwise it records its call and takes the device's mode; it never touches the filters or writes back |
| Properties.PassiveAFFails | v2scan.c:375-383 | a failed passive AF is reported and closes the session, and active AF and active AF/AE are not called |
| Properties.ActiveAFFails | v2scan.c:385-393 | a failed active AF is reported and closes the session, and active AF/AE is not called |
| Properties.LastAssist | v2scan.c:395-403 | when the first two assists did not fail, the outcome is decided by the third |
| Properties.AssistsOutcome | v2scan.c:375-403 | the assists end the run exactly when a requested one fails, and then the trace is the requested calls up to the failing one, its report and the session close; otherwise they record the requested calls in order and the mode is the one the last requested assist left |
| Properties.AssistFailureAborts | v2scan.c:375-403 | a failed assist ends `set_cammode` with the trace of the calls up to the failing one, its report and the session close: no later assist, no write-back, the filters unchanged |
| Properties.WriteBackDone | v2scan.c:405-470 | when the assists and the write-back succeed, the trace is the assist calls then one write of the merged mode, and the filters are merged |
| Properties.WriteBackFails | v2scan.c:464-470 | a failed write-back is reported with stage "Write Camera Mode" and closes the session |
| Properties.SetCamModeOutcome | v2scan.c:372-471 | `set_cammode` ends the run exactly when an assist or the write-back fails; on assist success it writes back exactly once the overrides applied over the last assist's mode; on assist failure nothing after the failing call is done |
| Properties.OverridesBeatAssists | v2scan.c:375-440 | every option given on the command line ends up in the written mode whatever the assists measured |
| Properties.CheckedQuiet | v2scan.c:177-179 | a reported failure rotates, writes and closes nothing and never ends the run |
| Properties.FatalQuiet | v2scan.c:195-199 | a fatal-on-failure call ends the run exactly on VVD_FALSE, closing the session once |
| Properties.AssistQuiet | v2scan.c:375-383 | an assist step rotates and writes nothing and closes the session exactly when it ends the run |
| Properties.AssistsQuiet | v2scan.c:375-403 | the assist steps rotate and write nothing and close the session exactly when they end the run |
| Properties.SetCamModeQuiet | v2scan.c:372-471 | `set_cammode` rotates and writes nothing and closes the session exactly when it ends the run |
| Properties.GetCamModeQuiet | v2scan.c:184-200 | `get_cammode` rotates and writes nothing; it ends the run exactly when a call fails, and closes the session only if the session opened |
| Properties.DynRangeIllegal | v2scan.c:166-170 | VVD_ILLEGAL from the dual-exposure read ends the run with the session closed |
| Properties.DynRangeFailed | v2scan.c:171 | VVD_FALSE from the dual-exposure read is only reported |
| Properties.DynRangeRead | v2scan.c:164-165 | a successful dual-exposure read goes on and writes nothing |
| Properties.StandardReleaseQuiet | v2scan.c:175-180 | the standard release never ends the run and writes nothing |
| Properties.ReleaseQuiet | v2scan.c:156-181 | `perform_release` writes and rotates nothing and ends the run exactly for VVD_ILLEGAL in dual-exposure mode |
| Properties.RotateEffects | v2scan.c:242-248 | an iteration rotates the table to its angle exactly when it is one of several views |
| Properties.ScanWriteRefused | v2scan.c:254-259 | a file that cannot be opened ends the run, closing the session, with nothing written |
| Properties.ScanWriteDone | v2scan.c:254-283 | an openable file is written once under its name and the run goes on |
| Properties.ScanWriteEffects | v2scan.c:252-283 | the file part of a scan iteration writes its file, or ends the run having written nothing |
| Properties.PickupQuiet | v2scan.c:323-324 | picking up the image writes, rotates and closes nothing and does not end the run |
| Properties.SaveImageUnknown | v2scan.c:361-364 | a format other than TIFF writes nothing and the run goes on |
| Properties.SaveImageRefused | v2scan.c:332-337 | a TIFF that cannot be opened ends the run, closing the session, with nothing written |
| Properties.SaveImageDone | v2scan.c:329-359 | an openable TIFF is written once under its name and the run goes on |
| Properties.SaveImageEffects | v2scan.c:328-364 | the file part of an image iteration writes its file (TIFF only), or ends the run having written nothing |
| Properties.ImageWriteEffects | v2scan.c:321-364 | pickup and save together write the file (TIFF only), or end the run having written nothing |
| Properties.ScanIterEffects | v2scan.c:240-284 | one scan iteration carries out its rotation and file, or a prefix of them when it ends the run, which it does exactly when the dual-exposure read gives VVD_ILLEGAL or the file cannot be opened |
| Properties.ImageIterEffects | v2scan.c:311-365 | one image iteration carries out its rotation and (TIFF only) file, or a prefix of them when it ends the run, which it does exactly when the dual-exposure read gives VVD_ILLEGAL or the TIFF file cannot be opened |
| Properties.ScanLoopEffects | v2scan.c:239-284 | the scan loop carries out a prefix of its plan, closing the session exactly when it stops early; it stops early exactly when some iteration hits VVD_ILLEGAL in dual-exposure mode or cannot open its file, and otherwise carries out the whole plan |
| Properties.ImageLoopEffects | v2scan.c:310-365 | the image loop carries out a prefix of its plan, closing the session exactly when it stops early; it stops early exactly when some iteration hits VVD_ILLEGAL in dual-exposure mode or cannot open its TIFF file, and otherwise carries out the whole plan |
| Properties.PrepareOutcome | v2scan.c:206-207 | the prologue writes and rotates nothing and ends the run exactly when one of its calls fails; it closes the session unless the session never opened |
| Properties.StatusOutcome | v2scan.c:203-218 | `status` always ends the run, writes and rotates nothing, and closes the session once if the session opened |
| Properties.StatusReported | v2scan.c:208-217 | printing the status and finishing closes the session once and writes nothing |
| Properties.CloseAfterLoop | v2scan.c:285 | after the loop the run has ended, with the session closed once, whether the loop stopped early or finished |
| Properties.PrepareStops | v2scan.c:235-236 | a prologue that ends the run has rotated and written nothing, so its effects are the empty prefix of any plan |
| Properties.ScanOutcome | v2scan.c:221-286 | `scan` always ends the run and closes the session once if it opened; its rotations and files are a prefix of the plan, and the whole plan when every call negotiates and no iteration can fail |
| Properties.ImageOutcome | v2scan.c:289-368 | `image` does the same, with files planned only for TIFF |
| Properties.PlannedWithoutWrites | v2scan.c:361-364 | for a format other than TIFF the image plan only rotates the table |
| Properties.SingleScanPlan | v2scan.c:231-248 | a single scan writes exactly one file, named by `-o` or "image.hdr", and does not rotate |
| Properties.RunOutcome | v2scan.c:629-636 | every run ends; the session is closed once exactly for a known command whose session opened; `status` and an unknown command write and rotate nothing |

## Left out

- The VIVID SDK, libtiff and the file system are not modelled. Each SDK call is an outcome taken from the `Device` script, and the range frame and image are data the script supplies. A refused `fopen`/`TIFFOpen` is a file name in `Device.unwritable`.
- The TIFF tags and the LZW encoding are left out. The written file is modelled as width, height and the transformed strip.
- The turntable command `system("stage.exe -r <angle>")` is modelled as a `Rotate(angle)` event. The external program and its result are not modelled.
- `getopt`, `atoi` and the handling of non-numeric text are left out. The range checks act on the integer values. `-V` and unknown options only print and exit, and `-h` (which has no case of its own) reaches `abort()`; none of them is modelled.
- The `printf` output is left out. This covers verbose messages, the exact status listing (modelled as one `StatusReport` event carrying the mode), the `handle_error` line (modelled as a `Reported(stage, error)` event) and the "Wrote" message.
- The numeric values of the SDK error codes are left out. They come from SDK headers that are not part of this model, so error conditions are an enumeration with `Unlisted` for the rest.
- Process exit codes (`exit(0)`/`exit(1)`) are left out. A run that ends is modelled as `exited`.
- The option-check failures in `main` stop the program before any device call. They are modelled as `SetNumeric` returning `None`, not as a trace.
- `malloc`/`free` and the `VividIIFreeCameraData` call in `finish_and_exit` are left out. The buffers that `malloc` leaves uninitialised are modelled as a zero range frame and an empty image.
- The 256-byte `filename` buffer and its possible overflow are left out, and so is `sprintf(filename, output)` using the output name as a format string. The name is taken literally.
- Program.Scanner.CmdScan, Program.Scanner.CmdImage: `start`, `i` and the angle are unbounded integers; 32-bit `int` overflow for huge counts or angles is not modelled.
- Program.Scanner.PerformRelease: what the SDK leaves in the capture record or the image after a failed `ScanRead910`, `ReadPitch` or `PickupColorImage` cannot be seen in the source; the model assumes the previous buffer stays, so a later write uses it (possibly already transformed). Likewise, whatever `VividIISCSIReadColor` adds to the capture record is not modelled; only the range buffer filled by the pitch or dual-exposure read is.
- Program.Scanner.Perform: a missing command is modelled like an unknown one, as the usage message and an exit. The source reaches this through `print_usage()`, which exits.
