/**
 * The program as the source runs it: the globals `cammode`, `imp_para`,
 * the capture record's range buffer and the picked-up image, updated in
 * place by the C functions of v2scan.c, here the methods of `Scanner`.
 * Each method is proved to leave the state that the matching function of
 * module Commands describes; the properties proved about those functions
 * (modules CamMode, Pixels, ScanFile, LoopPlan and Properties)
 * therefore hold of the methods.
 */
module Program {
  import opened Wrappers
  import opened Options
  import opened CamMode
  import opened Sdk
  import opened Commands
  import ScanFile
  import Pixels
  import LoopPlan

  class Scanner {
    var cammode: CameraMode
    var impPara: ImportPara
    var data3d: ScanFile.Frame
    var imgWidth: nat
    var imgHeight: nat
    /** The pixel buffer of the picked-up image, four bytes per pixel, rewritten in place before a TIFF write. */
    var pixels: array<bv8>
    var events: seq<Event>
    var exited: bool

    ghost predicate Valid()
      reads this
    {
      pixels.Length == imgWidth * imgHeight * 4
    }

    /** The program state as a value. */
    ghost function State(): World
      reads this, pixels
      requires Valid()
    {
      World(cammode, impPara, data3d, RawImage(imgWidth, imgHeight, pixels[..]), events, exited)
    }

    constructor ()
      ensures Valid() && State() == INITIAL
    {
      cammode := ZERO_MODE;
      impPara := NO_FILTERS;
      data3d := seq(640 * 480, _ => 0);
      imgWidth := 0;
      imgHeight := 0;
      pixels := new bv8[0];
      events := [];
      exited := false;
    }

    /** `finish_and_exit`. */
    method FinishAndExit()
      requires Valid()
      modifies this`events, this`exited
      ensures Valid() && State() == Commands.FinishAndExit(old(State()))
    {
      events := events + [ScsiFinish];
      exited := true;
    }

    /** `handle_error`: it reports and returns. */
    method HandleError(stage: string, s: Status)
      requires Valid() && s.VvdFalse?
      modifies this`events
      ensures Valid() && State() == Commands.HandleError(old(State()), stage, s)
    {
      events := events + [Reported(stage, s.err)];
    }

    /** `if (call() == VVD_FALSE) handle_error(stage);` */
    method ReportIfFailed(call: Event, stage: string, s: Status)
      requires Valid()
      modifies this`events
      ensures Valid() && State() == Checked(old(State()), call, stage, s)
    {
      events := events + [call];
      if s.VvdFalse? {
        HandleError(stage, s);
      }
    }

    /** `if (call() == VVD_FALSE) { handle_error(stage); finish_and_exit(); }` */
    method AbortIfFailed(call: Event, stage: string, s: Status)
      requires Valid()
      modifies this`events, this`exited
      ensures Valid() && State() == Fatal(old(State()), call, stage, s)
    {
      events := events + [call];
      if s.VvdFalse? {
        HandleError(stage, s);
        FinishAndExit();
      }
    }

    /** `get_cammode`. */
    method GetCamMode(dev: Device)
      requires Valid() && !exited
      modifies this`events, this`exited, this`cammode
      ensures Valid() && State() == GetCamModeSpec(old(State()), dev)
    {
      events := events + [ScsiInitialize];
      if dev.initialize.VvdFalse? {
        HandleError("SCSI Initialize", dev.initialize);
        exited := true;
        return;
      }
      AbortIfFailed(ReadParameter, "Read Camera Mode", dev.readParameter);
      if exited {
        return;
      }
      cammode := dev.stored;
    }

    /** One assist step of `set_cammode`; the device leaves its camera mode in `cammode`. */
    method Assist(requested: bool, call: Event, stage: string, a: Sdk.Assist)
      requires Valid() && !exited
      modifies this`events, this`exited, this`cammode
      ensures Valid() && State() == AssistSpec(old(State()), requested, call, stage, a)
    {
      if requested {
        AbortIfFailed(call, stage, a.status);
        if exited {
          return;
        }
        cammode := a.after;
      }
    }

    /** The assist steps of `set_cammode`. */
    method Assists(opt: Options, dev: Device)
      requires Valid() && !exited
      modifies this`events, this`exited, this`cammode
      ensures Valid() && State() == AssistsSpec(old(State()), opt, dev)
    {
      Assist(opt.passiveAF, PassiveAF, "Passive AF", dev.passiveAF);
      if exited {
        return;
      }
      Assist(opt.activeAF, ActiveAF, "Active AF", dev.activeAF);
      if exited {
        return;
      }
      Assist(opt.activeAFAE, ActiveAFAE, "Active AF/AE", dev.activeAFAE);
    }

    /** The camera-mode overrides of `set_cammode`, field by field in the source's order. */
    method Override(opt: Options)
      modifies this`cammode
      ensures cammode == ApplyOverrides(old(cammode), opt)
    {
      if opt.distance >= 0 {
        cammode := cammode.(distance := opt.distance);
      }
      if opt.gain >= 0 {
        cammode := cammode.(gain := opt.gain);
      }
      if opt.rMode >= 0 {
        cammode := cammode.(rMode := opt.rMode);
      }
      if opt.threshold >= 0 {
        cammode := cammode.(threshold := opt.threshold);
      }
      if opt.autoRead >= 0 {
        cammode := cammode.(autoRead := opt.autoRead);
      }
      if opt.color >= 0 {
        cammode := cammode.(color := opt.color);
      }
      if opt.laserPower >= 0 {
        cammode := cammode.(laserPower := opt.laserPower);
      }
    }

    /** The import filters of `set_cammode`, field by field in the source's order. */
    method SetFilters(opt: Options)
      modifies this`impPara
      ensures impPara == ApplyFilters(old(impPara), opt)
    {
      if opt.fillHole >= 0 {
        impPara := impPara.(eFillHole := 1);
      }
      if opt.dark >= 0 {
        impPara := impPara.(bDark := 1);
      }
      if opt.subsampling >= 0 {
        impPara := impPara.(eReduce := opt.subsampling);
      }
      if opt.noise >= 0 {
        impPara := impPara.(eFilter := opt.noise);
      }
    }


    /** `set_cammode`: assists, then the overrides and filters, then the write-back. */
    method SetCamMode(opt: Options, dev: Device)
      requires Valid() && !exited
      modifies this`events, this`exited, this`cammode, this`impPara
      ensures Valid() && State() == SetCamModeSpec(old(State()), opt, dev)
    {
      Assists(opt, dev);
      if exited {
        return;
      }
      Override(opt);
      SetFilters(opt);
      AbortIfFailed(WriteParameter(cammode), "Write Camera Mode", dev.writeParameter);
    }

    /** `perform_release`; the SDK fills the range buffer when its reading call does not fail. */
    method PerformRelease(opt: Options, shot: Shot)
      requires Valid() && !exited
      modifies this`events, this`exited, this`data3d
      ensures Valid() && State() == ReleaseSpec(old(State()), opt, shot)
    {
      if opt.dynRangeExp {
        events := events + [ScanRead910(cammode.distance, cammode.laserPower, cammode.gain)];
        if shot.scanRead910.VvdIllegal? {
          events := events + [NoVivid910];
          FinishAndExit();
          return;
        }
        if shot.scanRead910.VvdFalse? {
          HandleError("Release", shot.scanRead910);
        } else {
          data3d := shot.data3d;
        }
      } else {
        ReportIfFailed(Release, "Release", shot.release);
        ReportIfFailed(ReadPitch, "Read Pitch", shot.readPitch);
        if !shot.readPitch.VvdFalse? {
          data3d := shot.data3d;
        }
        ReportIfFailed(ReadColor(cammode.rMode), "Read Color", shot.readColor);
      }
    }

    /** `cmd_status`. */
    method CmdStatus(opt: Options, dev: Device)
      requires Valid() && !exited
      modifies this`events, this`exited, this`cammode, this`impPara
      ensures Valid() && State() == CmdStatusSpec(old(State()), opt, dev)
    {
      GetCamMode(dev);
      if exited {
        return;
      }
      SetCamMode(opt, dev);
      if exited {
        return;
      }
      events := events + [StatusReport(cammode)];
      FinishAndExit();
    }

    /** The file part of a `cmd_scan` iteration. */
    method ScanWrite(dev: Device, filename: string)
      requires Valid() && !exited
      modifies this`events, this`exited
      ensures Valid() && State() == ScanWriteSpec(old(State()), dev, filename)
    {
      if filename in dev.unwritable {
        events := events + [CannotOpen(filename)];
        FinishAndExit();
        return;
      }
      var lines := ScanFile.WriteText(data3d);
      events := events + [WriteFile(filename, ScanText(lines))];
    }

    /** The body of the `cmd_scan` loop once the filename is set: rotate, release, write. */
    method ScanShot(opt: Options, dev: Device, i: int, start: int, rotate: bool, filename: string)
      requires Valid() && !exited
      modifies this`events, this`exited, this`data3d
      ensures Valid() && State() == ScanIterSpec(old(State()), opt, dev, LoopPlan.Step(i, start, rotate, filename))
    {
      if rotate {
        events := events + [Rotate(start)];
      }
      PerformRelease(opt, dev.shot(i));
      if exited {
        return;
      }
      ScanWrite(dev, filename);
    }

    /** `cmd_scan`: negotiate, then the multi-view loop, then close the session. */
    method CmdScan(opt: Options, dev: Device)
      requires Valid() && !exited
      modifies this`events, this`exited, this`cammode, this`impPara, this`data3d
      ensures Valid() && State() == CmdScanSpec(old(State()), opt, dev)
    {
      var output := LoopPlan.ScanName(opt.output);
      var filename := output;
      GetCamMode(dev);
      if exited {
        return;
      }
      SetCamMode(opt, dev);
      if exited {
        return;
      }
      ghost var target := ScanLoopSpec(State(), opt, dev, ScanSteps(opt));
      ghost var todo := ScanSteps(opt);
      var count := opt.count;
      var start := opt.start;
      ghost var turn := LoopPlan.Turn(count);
      var i := 1;
      while i <= count
        invariant Valid() && !exited && i >= 1
        invariant count > 1 || filename == output
        invariant todo == LoopPlan.Steps(i, count, start, turn, output, opt.format, output)
        invariant ScanLoopSpec(State(), opt, dev, todo) == target
        decreases count - i
      {
        LoopPlan.StepsHead(i, count, start, turn, output, opt.format, output);
        ScanLoopCons(State(), opt, dev, todo);
        if count > 1 {
          filename := LoopPlan.IndexedName(output, i, opt.format);
        }
        ScanShot(opt, dev, i, start, count > 1, filename);
        if exited {
          return;
        }
        ghost var prev, from := i, start;
        i := i + 1;
        start := start + 360 / count;
        LoopPlan.StepsTail(prev, count, from, turn, output, opt.format, output, i, start);
        todo := todo[1..];
      }
      FinishAndExit();
    }

    /** `VividIIPickupColorImage`: on success the SDK hands over a new image. */
    method Pickup(shot: Shot)
      requires Valid()
      modifies this`events, this`imgWidth, this`imgHeight, this`pixels
      ensures Valid() && State() == PickupSpec(old(State()), shot)
      ensures pixels == old(pixels) || fresh(pixels)
    {
      ReportIfFailed(PickupColorImage, "Pickup Color Image", shot.pickup);
      if !shot.pickup.VvdFalse? {
        var img := shot.image;
        pixels := new bv8[|img.pixels|](k requires 0 <= k < |img.pixels| => img.pixels[k]);
        imgWidth := img.width;
        imgHeight := img.height;
        assert pixels[..] == img.pixels;
      }
    }

    /** The file part of a `cmd_image` iteration: the in-place byte shuffle and the TIFF write. */
    method SaveImage(opt: Options, dev: Device, filename: string)
      requires Valid() && !exited
      modifies this`events, this`exited, pixels
      ensures Valid() && State() == SaveImageSpec(old(State()), opt, dev, filename)
    {
      if opt.format == "TIFF" {
        if filename in dev.unwritable {
          events := events + [CannotOpen(filename)];
          FinishAndExit();
          return;
        }
        Pixels.SwizzleInPlace(pixels, imgWidth, imgHeight);
        events := events + [WriteFile(filename, Tiff(imgWidth, imgHeight, pixels[..]))];
      } else {
        events := events + [UnknownFormat];
      }
    }

    /** The body of the `cmd_image` loop once the filename is set: rotate, release, pick up, write. */
    method ImageShot(opt: Options, dev: Device, i: int, start: int, rotate: bool, filename: string)
      requires Valid() && !exited
      modifies this`events, this`exited, this`data3d, this`imgWidth, this`imgHeight, this`pixels, pixels
      ensures Valid() && State() == ImageIterSpec(old(State()), opt, dev, LoopPlan.Step(i, start, rotate, filename))
      ensures pixels == old(pixels) || fresh(pixels)
    {
      if rotate {
        events := events + [Rotate(start)];
      }
      var shot := dev.shot(i);
      PerformRelease(opt, shot);
      if exited {
        return;
      }
      Pickup(shot);
      SaveImage(opt, dev, filename);
    }

    /** `cmd_image`: negotiate, then the multi-view loop, then close the session. */
    method CmdImage(opt: Options, dev: Device)
      requires Valid() && !exited
      modifies this`events, this`exited, this`cammode, this`impPara, this`data3d
      modifies this`imgWidth, this`imgHeight, this`pixels, pixels
      ensures Valid() && State() == CmdImageSpec(old(State()), opt, dev)
    {
      var output := LoopPlan.ImageBase(opt.output);
      var single := LoopPlan.ImageName(opt.output, opt.format);
      var filename := single;
      GetCamMode(dev);
      if exited {
        return;
      }
      SetCamMode(opt, dev);
      if exited {
        return;
      }
      ghost var target := ImageLoopSpec(State(), opt, dev, ImageSteps(opt));
      ghost var todo := ImageSteps(opt);
      var count := opt.count;
      var start := opt.start;
      ghost var turn := LoopPlan.Turn(count);
      var i := 1;
      while i <= count
        invariant Valid() && !exited && i >= 1
        invariant pixels == old(pixels) || fresh(pixels)
        invariant count > 1 || filename == single
        invariant todo == LoopPlan.Steps(i, count, start, turn, output, opt.format, single)
        invariant ImageLoopSpec(State(), opt, dev, todo) == target
        decreases count - i
      {
        LoopPlan.StepsHead(i, count, start, turn, output, opt.format, single);
        ImageLoopCons(State(), opt, dev, todo);
        if count > 1 {
          filename := LoopPlan.IndexedName(output, i, opt.format);
        }
        ImageShot(opt, dev, i, start, count > 1, filename);
        if exited {
          return;
        }
        ghost var prev, from := i, start;
        i := i + 1;
        start := start + 360 / count;
        LoopPlan.StepsTail(prev, count, from, turn, output, opt.format, single, i, start);
        todo := todo[1..];
      }
      FinishAndExit();
    }

    /** The command dispatch at the end of `main`. */
    method Perform(command: Option<string>, opt: Options, dev: Device)
      requires Valid() && !exited
      modifies this`events, this`exited, this`cammode, this`impPara, this`data3d
      modifies this`imgWidth, this`imgHeight, this`pixels, pixels
      ensures Valid() && State() == RunSpec(old(State()), command, opt, dev)
    {
      if command == Some("status") {
        CmdStatus(opt, dev);
      } else if command == Some("scan") {
        CmdScan(opt, dev);
      } else if command == Some("image") {
        CmdImage(opt, dev);
      } else {
        events := events + [Usage];
        exited := true;
      }
    }
  }
}
