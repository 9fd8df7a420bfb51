/**
 * The command flow of v2scan.c: session set-up (`get_cammode`), the
 * parameter merge (`set_cammode`), the release (`perform_release`) and the
 * three commands `status`, `scan` and `image` with their multi-view loop.
 *
 * `World` is the program state the source keeps in globals (the camera
 * mode, the import parameters, the capture record's range buffer and the
 * picked-up image) plus the trace of what the run has done and whether the
 * process has exited. The functions below say what each C function does
 * to a World; the class `Scanner` at the end runs the same steps
 * imperatively and is proved to agree with them.
 *
 * `handle_error` only reports: a VVD_FALSE from a call it handles is
 * logged and the run goes on. `finish_and_exit` closes the SCSI session and
 * exits: the run stops there.
 */
module Commands {
  import opened Wrappers
  import opened Options
  import opened CamMode
  import opened Sdk
  import ScanFile
  import Pixels
  import LoopPlan

  datatype World = World(
    mode: CameraMode,
    imp: ImportPara,
    data3d: ScanFile.Frame,
    image: Image,
    events: seq<Event>,
    exited: bool)

  /** Zero-initialised globals; the buffers the source allocates uninitialised are taken as zero and empty. */
  const INITIAL: World := World(ZERO_MODE, NO_FILTERS, seq(640 * 480, _ => 0), RawImage(0, 0, []), [], false)

  function Emit(w: World, e: Event): World {
    w.(events := w.events + [e])
  }

  /** `finish_and_exit`: close the SCSI session, then exit. */
  function FinishAndExit(w: World): World {
    Emit(w, ScsiFinish).(exited := true)
  }

  /** `handle_error`: report the stage and the SDK's error condition; nothing else. */
  function HandleError(w: World, stage: string, s: Status): World
    requires s.VvdFalse?
  {
    Emit(w, Reported(stage, s.err))
  }

  /** An SDK call whose VVD_FALSE `handle_error` reports and the run survives. */
  function Checked(w: World, call: Event, stage: string, s: Status): World {
    var w := Emit(w, call);
    if s.VvdFalse? then HandleError(w, stage, s) else w
  }

  /** An SDK call whose VVD_FALSE is reported and then ends the run through `finish_and_exit`. */
  function Fatal(w: World, call: Event, stage: string, s: Status): World {
    var w := Emit(w, call);
    if s.VvdFalse? then FinishAndExit(HandleError(w, stage, s)) else w
  }

  // ---------------------------------------------------------------------
  // Specification of each C function
  // ---------------------------------------------------------------------

  /** `get_cammode`: open the session, then read the camera mode from the device. */
  function GetCamModeSpec(w: World, dev: Device): World {
    var w := Emit(w, ScsiInitialize);
    if dev.initialize.VvdFalse? then
      // the session never opened: exit(1) without finish_and_exit
      HandleError(w, "SCSI Initialize", dev.initialize).(exited := true)
    else
      var w := Fatal(w, ReadParameter, "Read Camera Mode", dev.readParameter);
      if w.exited then w else w.(mode := dev.stored)
  }

  /** One optional assist step of `set_cammode`: the device leaves its own camera mode; a failure ends the run. */
  function AssistSpec(w: World, requested: bool, call: Event, stage: string, a: Assist): World {
    if !requested then w
    else
      var w := Fatal(w, call, stage, a.status);
      if w.exited then w else w.(mode := a.after)
  }

  /** The overrides and filters of `set_cammode`, applied to the records in memory. */
  function MergeSpec(w: World, opt: Options): World {
    w.(mode := ApplyOverrides(w.mode, opt), imp := ApplyFilters(w.imp, opt))
  }

  /** The assist steps of `set_cammode`, in fixed order; the first failure ends the run. */
  function AssistsSpec(w: World, opt: Options, dev: Device): World
    requires !w.exited
  {
    var w := AssistSpec(w, opt.passiveAF, PassiveAF, "Passive AF", dev.passiveAF);
    if w.exited then w else
    var w := AssistSpec(w, opt.activeAF, ActiveAF, "Active AF", dev.activeAF);
    if w.exited then w else
    AssistSpec(w, opt.activeAFAE, ActiveAFAE, "Active AF/AE", dev.activeAFAE)
  }

  /** `set_cammode`: the assists, then the overrides and filters, then one write-back. */
  function SetCamModeSpec(w: World, opt: Options, dev: Device): World
    requires !w.exited
  {
    var w := AssistsSpec(w, opt, dev);
    if w.exited then w else
    var w := MergeSpec(w, opt);
    Fatal(w, WriteParameter(w.mode), "Write Camera Mode", dev.writeParameter)
  }

  /** The dual-exposure read of `perform_release`: VVD_ILLEGAL (not a VIVID 910) ends the run. */
  function DynRangeSpec(w: World, shot: Shot): World {
    var w := Emit(w, ScanRead910(w.mode.distance, w.mode.laserPower, w.mode.gain));
    match shot.scanRead910
    case VvdIllegal => FinishAndExit(Emit(w, NoVivid910))
    case VvdFalse(_) => HandleError(w, "Release", shot.scanRead910)
    case VvdTrue => w.(data3d := shot.data3d)
  }

  /** The standard release of `perform_release`: each failure is only reported. */
  function StandardReleaseSpec(w: World, shot: Shot): World {
    var w := Checked(w, Release, "Release", shot.release);
    var w := Checked(w, ReadPitch, "Read Pitch", shot.readPitch);
    var w := if shot.readPitch.VvdFalse? then w else w.(data3d := shot.data3d);
    Checked(w, ReadColor(w.mode.rMode), "Read Color", shot.readColor)
  }

  /**
   * `perform_release`, chosen once by the dynamic range expansion flag.
   * The range buffer takes the new data when the reading call succeeds.
   */
  function ReleaseSpec(w: World, opt: Options, shot: Shot): World {
    if opt.dynRangeExp then DynRangeSpec(w, shot) else StandardReleaseSpec(w, shot)
  }

  /** The turntable command, issued only when the loop has several shots. */
  function RotateSpec(w: World, step: LoopPlan.Step): World {
    if step.rotate then Emit(w, Rotate(step.angle)) else w
  }

  /** The file part of a `cmd_scan` iteration: open (a failure ends the run), header, samples. */
  function ScanWriteSpec(w: World, dev: Device, filename: string): World {
    if filename in dev.unwritable then FinishAndExit(Emit(w, CannotOpen(filename)))
    else Emit(w, WriteFile(filename, ScanText(ScanFile.Text(w.data3d))))
  }

  /** One iteration of `cmd_scan`: rotate, release, then write the text file. */
  function ScanIterSpec(w: World, opt: Options, dev: Device, step: LoopPlan.Step): World {
    var w := RotateSpec(w, step);
    var w := ReleaseSpec(w, opt, dev.shot(step.index));
    if w.exited then w else ScanWriteSpec(w, dev, step.filename)
  }

  function ScanLoopSpec(w: World, opt: Options, dev: Device, steps: seq<LoopPlan.Step>): World
    decreases |steps|
  {
    if steps == [] || w.exited then w
    else ScanLoopSpec(ScanIterSpec(w, opt, dev, steps[0]), opt, dev, steps[1..])
  }

  /** `VVD_PickupColorImage`: a failure is only reported and the previous image stays. */
  function PickupSpec(w: World, shot: Shot): World {
    var w := Checked(w, PickupColorImage, "Pickup Color Image", shot.pickup);
    if shot.pickup.VvdFalse? then w else w.(image := shot.image)
  }

  /** The image after the byte shuffle of `cmd_image`, done in place before the strip is written. */
  function Shuffled(img: Image): (r: Image)
    ensures r.width == img.width && r.height == img.height
  {
    img.(pixels := Pixels.Swizzle(img.pixels))
  }

  /**
   * The file part of a `cmd_image` iteration: for TIFF, shuffle the pixel
   * bytes in place and write the file (an open failure ends the run); for
   * any other format, report it and go on.
   */
  function SaveImageSpec(w: World, opt: Options, dev: Device, filename: string): World {
    if opt.format == "TIFF" then
      if filename in dev.unwritable then FinishAndExit(Emit(w, CannotOpen(filename)))
      else
        var img := Shuffled(w.image);
        Emit(w.(image := img), WriteFile(filename, Tiff(img.width, img.height, img.pixels)))
    else
      Emit(w, UnknownFormat)
  }

  /** The image part of a `cmd_image` iteration: pick up the colour image, then save it. */
  function ImageWriteSpec(w: World, opt: Options, dev: Device, shot: Shot, filename: string): World {
    SaveImageSpec(PickupSpec(w, shot), opt, dev, filename)
  }

  /** One iteration of `cmd_image`: rotate, release, then pick up and write the image. */
  function ImageIterSpec(w: World, opt: Options, dev: Device, step: LoopPlan.Step): World {
    var w := RotateSpec(w, step);
    var shot := dev.shot(step.index);
    var w := ReleaseSpec(w, opt, shot);
    if w.exited then w else ImageWriteSpec(w, opt, dev, shot, step.filename)
  }

  function ImageLoopSpec(w: World, opt: Options, dev: Device, steps: seq<LoopPlan.Step>): World
    decreases |steps|
  {
    if steps == [] || w.exited then w
    else ImageLoopSpec(ImageIterSpec(w, opt, dev, steps[0]), opt, dev, steps[1..])
  }

  /** One turn of the `cmd_scan` loop. */
  lemma ScanLoopCons(w: World, opt: Options, dev: Device, steps: seq<LoopPlan.Step>)
    requires !w.exited && steps != []
    ensures ScanLoopSpec(w, opt, dev, steps) == ScanLoopSpec(ScanIterSpec(w, opt, dev, steps[0]), opt, dev, steps[1..])
  {
  }

  /** One turn of the `cmd_image` loop. */
  lemma ImageLoopCons(w: World, opt: Options, dev: Device, steps: seq<LoopPlan.Step>)
    requires !w.exited && steps != []
    ensures ImageLoopSpec(w, opt, dev, steps) == ImageLoopSpec(ImageIterSpec(w, opt, dev, steps[0]), opt, dev, steps[1..])
  {
  }

  function ScanSteps(opt: Options): seq<LoopPlan.Step> {
    var name := LoopPlan.ScanName(opt.output);
    LoopPlan.Plan(opt.count, opt.start, name, opt.format, name)
  }

  function ImageSteps(opt: Options): seq<LoopPlan.Step> {
    LoopPlan.Plan(opt.count, opt.start, LoopPlan.ImageBase(opt.output), opt.format,
      LoopPlan.ImageName(opt.output, opt.format))
  }

  /** The prologue every command starts with: `get_cammode`, then `set_cammode`. */
  function PrepareSpec(w: World, opt: Options, dev: Device): World
    requires !w.exited
  {
    var w := GetCamModeSpec(w, dev);
    if w.exited then w else SetCamModeSpec(w, opt, dev)
  }

  /** `cmd_status`: negotiate, print the camera mode, close the session. */
  function CmdStatusSpec(w: World, opt: Options, dev: Device): World
    requires !w.exited
  {
    var w := PrepareSpec(w, opt, dev);
    if w.exited then w else FinishAndExit(Emit(w, StatusReport(w.mode)))
  }

  /** `cmd_scan`: negotiate, then the multi-view loop, then close the session. */
  function CmdScanSpec(w: World, opt: Options, dev: Device): World
    requires !w.exited
  {
    var w := PrepareSpec(w, opt, dev);
    if w.exited then w else
    var w := ScanLoopSpec(w, opt, dev, ScanSteps(opt));
    if w.exited then w else FinishAndExit(w)
  }

  /** `cmd_image`: negotiate, then the multi-view loop, then close the session. */
  function CmdImageSpec(w: World, opt: Options, dev: Device): World
    requires !w.exited
  {
    var w := PrepareSpec(w, opt, dev);
    if w.exited then w else
    var w := ImageLoopSpec(w, opt, dev, ImageSteps(opt));
    if w.exited then w else FinishAndExit(w)
  }

  /** The command dispatch at the end of `main`; a missing or unknown command prints the usage and exits. */
  function RunSpec(w: World, command: Option<string>, opt: Options, dev: Device): World
    requires !w.exited
  {
    match command
    case Some("status") => CmdStatusSpec(w, opt, dev)
    case Some("scan") => CmdScanSpec(w, opt, dev)
    case Some("image") => CmdImageSpec(w, opt, dev)
    case _ => Emit(w, Usage).(exited := true)
  }
}
