/**
 * Properties of the command flow, stated over the trace of a run: the
 * order of the device calls of `set_cammode`, that the SCSI session is
 * closed exactly when the run ends, and which rotations and files a
 * command produces.
 */
module Properties {
  import opened Wrappers
  import opened Options
  import opened CamMode
  import opened Sdk
  import opened Commands
  import LoopPlan

  /** The externally visible effects: turntable rotations and files written. */
  datatype Effect = Rotated(angle: int) | Wrote(filename: string)

  function EffectOf(e: Event): seq<Effect> {
    if e.Rotate? then [Rotated(e.angle)]
    else if e.WriteFile? then [Wrote(e.filename)]
    else []
  }

  function Effects(es: seq<Event>): seq<Effect>
    decreases |es|
  {
    if es == [] then [] else Effects(es[..|es| - 1]) + EffectOf(es[|es| - 1])
  }

  /** How many times the trace closes the SCSI session. */
  function Finishes(es: seq<Event>): nat
    decreases |es|
  {
    if es == [] then 0 else Finishes(es[..|es| - 1]) + (if es[|es| - 1].ScsiFinish? then 1 else 0)
  }

  lemma EmitEffects(w: World, e: Event)
    ensures Effects(Emit(w, e).events) == Effects(w.events) + EffectOf(e)
    ensures Finishes(Emit(w, e).events) == Finishes(w.events) + (if e.ScsiFinish? then 1 else 0)
  {
    assert (w.events + [e])[..|w.events|] == w.events;
  }

  /**
   * A phase is quiet when it rotates nothing, writes nothing, and closes
   * the session exactly when it ends the run.
   */
  predicate Quiet(w: World, r: World) {
    && Effects(r.events) == Effects(w.events)
    && Finishes(r.events) == Finishes(w.events) + (if r.exited then 1 else 0)
  }

  /**
   * From `w` to `r` the run carries out `planned`: all of it when the run
   * goes on, a prefix of it when the run ends there, and it closes the
   * session exactly when it ends.
   */
  predicate Advances(w: World, r: World, planned: seq<Effect>) {
    && Finishes(r.events) == Finishes(w.events) + (if r.exited then 1 else 0)
    && Effects(r.events) <= Effects(w.events) + planned
    && (!r.exited ==> Effects(r.events) == Effects(w.events) + planned)
  }

  lemma AppendAssoc<T>(a: seq<T>, b: seq<T>, c: seq<T>, d: seq<T>)
    ensures a + b + c + d == a + (b + c + d)
  {
  }

  lemma Assoc<T>(a: seq<T>, b: seq<T>, c: seq<T>)
    ensures a + b + c == a + (b + c)
  {
  }

  lemma PrefixAppend<T>(a: seq<T>, b: seq<T>, c: seq<T>)
    requires a <= b
    ensures a <= b + c
  {
    assert (b + c)[..|b|] == b;
  }

  /** A quiet phase that ends the run has carried out a prefix (the empty one) of any plan. */
  lemma QuietStops(w: World, r: World, planned: seq<Effect>)
    requires Quiet(w, r) && r.exited
    ensures Advances(w, r, planned)
  {
    PrefixAppend(Effects(w.events), Effects(w.events), planned);
  }

  lemma QuietThen(w: World, m: World, r: World, planned: seq<Effect>)
    requires Quiet(w, m) && !m.exited && Advances(m, r, planned)
    ensures Advances(w, r, planned)
  {
  }

  /** Plans compose: the second phase runs only when the first one leaves the run going. */
  lemma AdvancesThen(w: World, m: World, r: World, p: seq<Effect>, q: seq<Effect>)
    requires Advances(w, m, p)
    requires m.exited ==> r == m
    requires !m.exited ==> Advances(m, r, q)
    ensures Advances(w, r, p + q)
  {
    var base := Effects(w.events);
    assert base + (p + q) == base + p + q;
    if m.exited {
      PrefixAppend(Effects(m.events), base + p, q);
    }
  }

  // ---------------------------------------------------------------------
  // set_cammode: the assists in order, then the overrides, then one write-back
  // ---------------------------------------------------------------------

  /** How many times the trace writes a camera mode back to the scanner. */
  function WriteBacks(es: seq<Event>): nat
    decreases |es|
  {
    if es == [] then 0 else WriteBacks(es[..|es| - 1]) + (if es[|es| - 1].WriteParameter? then 1 else 0)
  }

  lemma EmitWriteBacks(w: World, e: Event)
    ensures WriteBacks(Emit(w, e).events) == WriteBacks(w.events) + (if e.WriteParameter? then 1 else 0)
  {
    assert (w.events + [e])[..|w.events|] == w.events;
  }

  /** The assist calls the options ask for: passive AF, active AF, active AF/AE, each only when requested. */
  function AssistCalls(opt: Options): seq<Event> {
    (if opt.passiveAF then [PassiveAF] else [])
    + (if opt.activeAF then [ActiveAF] else [])
    + (if opt.activeAFAE then [ActiveAFAE] else [])
  }

  /** The camera mode the requested assists leave: the last requested one decides. */
  function Assisted(m: CameraMode, opt: Options, dev: Device): CameraMode {
    if opt.activeAFAE then dev.activeAFAE.after
    else if opt.activeAF then dev.activeAF.after
    else if opt.passiveAF then dev.passiveAF.after
    else m
  }

  /** No requested assist reports VVD_FALSE. */
  predicate AssistsSucceed(opt: Options, dev: Device) {
    && (opt.passiveAF ==> !dev.passiveAF.status.VvdFalse?)
    && (opt.activeAF ==> !dev.activeAF.status.VvdFalse?)
    && (opt.activeAFAE ==> !dev.activeAFAE.status.VvdFalse?)
  }

  /** One assist step: skipped, done (the device's mode is taken over), or failed (the run ends, nothing is written back). */
  lemma AssistOutcome(w: World, requested: bool, call: Event, stage: string, a: Assist)
    requires !w.exited && !call.WriteParameter? && !call.ScsiFinish?
    ensures var r := AssistSpec(w, requested, call, stage, a);
      && r.imp == w.imp
      && (r.exited <==> requested && a.status.VvdFalse?)
      && (!r.exited ==> r.events == w.events + (if requested then [call] else []))
      && (!r.exited ==> r.mode == if requested then a.after else w.mode)
      && WriteBacks(r.events) == WriteBacks(w.events)
      && (r.exited ==> r.events != [] && r.events[|r.events| - 1] == ScsiFinish)
      && (requested && a.status.VvdFalse? ==> r.events == w.events + [call, Reported(stage, a.status.err), ScsiFinish])
  {
    if requested {
      var w1 := Emit(w, call);
      EmitWriteBacks(w, call);
      if a.status.VvdFalse? {
        EmitWriteBacks(w1, Reported(stage, a.status.err));
        EmitWriteBacks(HandleError(w1, stage, a.status), ScsiFinish);
        FatalTrace(w, call, stage, a.status);
      }
    }
  }

  /** A failed fatal call leaves three events: the call, its report, the session close. */
  lemma FatalTrace(w: World, call: Event, stage: string, s: Status)
    requires s.VvdFalse?
    ensures Fatal(w, call, stage, s).events == w.events + [call, Reported(stage, s.err), ScsiFinish]
  {
    assert w.events + [call] + [Reported(stage, s.err)] + [ScsiFinish] == w.events + [call, Reported(stage, s.err), ScsiFinish];
  }

  /**
   * The trace of the assists when one of them fails: the requested calls
   * before it, the failing call, its report, and the session close; the
   * later assists are never called.
   */
  function FailedTrace(opt: Options, dev: Device): seq<Event>
    requires !AssistsSucceed(opt, dev)
  {
    var p := if opt.passiveAF then [PassiveAF] else [];
    var q := if opt.activeAF then [ActiveAF] else [];
    if opt.passiveAF && dev.passiveAF.status.VvdFalse? then
      [PassiveAF, Reported("Passive AF", dev.passiveAF.status.err), ScsiFinish]
    else if opt.activeAF && dev.activeAF.status.VvdFalse? then
      p + [ActiveAF, Reported("Active AF", dev.activeAF.status.err), ScsiFinish]
    else
      p + q + [ActiveAFAE, Reported("Active AF/AE", dev.activeAFAE.status.err), ScsiFinish]
  }

  /** What `AssistsSpec` promises, given its result. */
  predicate AssistsDid(w: World, opt: Options, dev: Device, r: World) {
    && r.imp == w.imp
    && (r.exited <==> !AssistsSucceed(opt, dev))
    && (!r.exited ==> r.events == w.events + AssistCalls(opt) && r.mode == Assisted(w.mode, opt, dev))
    && (!AssistsSucceed(opt, dev) ==> r.events == w.events + FailedTrace(opt, dev))
    && WriteBacks(r.events) == WriteBacks(w.events)
    && (r.exited ==> r.events != [] && r.events[|r.events| - 1] == ScsiFinish)
  }

  lemma PassiveAFFails(w: World, opt: Options, dev: Device)
    requires !w.exited && opt.passiveAF && dev.passiveAF.status.VvdFalse?
    ensures AssistsDid(w, opt, dev, AssistsSpec(w, opt, dev))
  {
    AssistOutcome(w, opt.passiveAF, PassiveAF, "Passive AF", dev.passiveAF);
  }

  lemma ActiveAFFails(w: World, opt: Options, dev: Device)
    requires !w.exited && !(opt.passiveAF && dev.passiveAF.status.VvdFalse?)
    requires opt.activeAF && dev.activeAF.status.VvdFalse?
    ensures AssistsDid(w, opt, dev, AssistsSpec(w, opt, dev))
  {
    var w1 := AssistSpec(w, opt.passiveAF, PassiveAF, "Passive AF", dev.passiveAF);
    AssistOutcome(w, opt.passiveAF, PassiveAF, "Passive AF", dev.passiveAF);
    AssistOutcome(w1, opt.activeAF, ActiveAF, "Active AF", dev.activeAF);
    var p := if opt.passiveAF then [PassiveAF] else [];
    var x := [ActiveAF, Reported("Active AF", dev.activeAF.status.err), ScsiFinish];
    FailedAfter(w, w1, AssistsSpec(w, opt, dev), opt, dev, p, x);
  }

  /** An assist that fails after the earlier ones succeeded: the trace is theirs, then the failure's. */
  lemma FailedAfter(w: World, w1: World, r: World, opt: Options, dev: Device, p: seq<Event>, x: seq<Event>)
    requires !AssistsSucceed(opt, dev) && FailedTrace(opt, dev) == p + x
    requires w1.imp == w.imp && w1.events == w.events + p && WriteBacks(w1.events) == WriteBacks(w.events)
    requires r.imp == w1.imp && r.exited && r.events == w1.events + x && WriteBacks(r.events) == WriteBacks(w1.events)
    requires r.events != [] && r.events[|r.events| - 1] == ScsiFinish
    ensures AssistsDid(w, opt, dev, r)
  {
    Assoc(w.events, p, x);
  }

  lemma LastAssist(w: World, opt: Options, dev: Device)
    requires !w.exited && !(opt.passiveAF && dev.passiveAF.status.VvdFalse?)
    requires !(opt.activeAF && dev.activeAF.status.VvdFalse?)
    ensures AssistsDid(w, opt, dev, AssistsSpec(w, opt, dev))
  {
    var w1 := AssistSpec(w, opt.passiveAF, PassiveAF, "Passive AF", dev.passiveAF);
    AssistOutcome(w, opt.passiveAF, PassiveAF, "Passive AF", dev.passiveAF);
    var w2 := AssistSpec(w1, opt.activeAF, ActiveAF, "Active AF", dev.activeAF);
    AssistOutcome(w1, opt.activeAF, ActiveAF, "Active AF", dev.activeAF);
    AssistOutcome(w2, opt.activeAFAE, ActiveAFAE, "Active AF/AE", dev.activeAFAE);
    var p := if opt.passiveAF then [PassiveAF] else [];
    var q := if opt.activeAF then [ActiveAF] else [];
    var t := if opt.activeAFAE then [ActiveAFAE] else [];
    AppendAssoc(w.events, p, q, t);
    if opt.activeAFAE && dev.activeAFAE.status.VvdFalse? {
      AppendAssoc(w.events, p, q, [ActiveAFAE, Reported("Active AF/AE", dev.activeAFAE.status.err), ScsiFinish]);
    }
  }

  /**
   * The assists run in the order passive AF, active AF, active AF/AE,
   * each only when requested; the first failure ends the run before the
   * later ones, and the import parameters are not touched.
   */
  lemma AssistsOutcome(w: World, opt: Options, dev: Device)
    requires !w.exited
    ensures AssistsDid(w, opt, dev, AssistsSpec(w, opt, dev))
  {
    if opt.passiveAF && dev.passiveAF.status.VvdFalse? {
      PassiveAFFails(w, opt, dev);
    } else if opt.activeAF && dev.activeAF.status.VvdFalse? {
      ActiveAFFails(w, opt, dev);
    } else {
      LastAssist(w, opt, dev);
    }
  }

  /** What `SetCamModeSpec` promises, given its result. */
  predicate SetCamModeDid(w: World, opt: Options, dev: Device, r: World) {
    var m := ApplyOverrides(Assisted(w.mode, opt, dev), opt);
    && (r.exited <==> !AssistsSucceed(opt, dev) || dev.writeParameter.VvdFalse?)
    && (AssistsSucceed(opt, dev) ==>
      && r.mode == m
      && r.imp == ApplyFilters(w.imp, opt)
      && r.events == w.events + AssistCalls(opt) + [WriteParameter(m)]
           + (if dev.writeParameter.VvdFalse? then [Reported("Write Camera Mode", dev.writeParameter.err), ScsiFinish] else []))
    && (!AssistsSucceed(opt, dev) ==>
      && r.events == w.events + FailedTrace(opt, dev)
      && r.imp == w.imp
      && WriteBacks(r.events) == WriteBacks(w.events)
      && r.events != [] && r.events[|r.events| - 1] == ScsiFinish)
  }

  lemma AssistFailureAborts(w: World, opt: Options, dev: Device)
    requires !w.exited && !AssistsSucceed(opt, dev)
    ensures SetCamModeDid(w, opt, dev, SetCamModeSpec(w, opt, dev))
  {
    AssistsOutcome(w, opt, dev);
  }

  lemma WriteBackDone(w: World, opt: Options, dev: Device)
    requires !w.exited && AssistsSucceed(opt, dev) && !dev.writeParameter.VvdFalse?
    ensures SetCamModeDid(w, opt, dev, SetCamModeSpec(w, opt, dev))
  {
    AssistsOutcome(w, opt, dev);
    assert w.events + AssistCalls(opt) + [WriteParameter(ApplyOverrides(Assisted(w.mode, opt, dev), opt))] + []
      == w.events + AssistCalls(opt) + [WriteParameter(ApplyOverrides(Assisted(w.mode, opt, dev), opt))];
  }

  lemma WriteBackFails(w: World, opt: Options, dev: Device)
    requires !w.exited && AssistsSucceed(opt, dev) && dev.writeParameter.VvdFalse?
    ensures SetCamModeDid(w, opt, dev, SetCamModeSpec(w, opt, dev))
  {
    AssistsOutcome(w, opt, dev);
    var base := w.events + AssistCalls(opt) + [WriteParameter(ApplyOverrides(Assisted(w.mode, opt, dev), opt))];
    var e1, e2 := Reported("Write Camera Mode", dev.writeParameter.err), ScsiFinish;
    assert base + [e1] + [e2] == base + [e1, e2];
  }

  /**
   * `set_cammode` as a whole. When the assists succeed, the mode written
   * back is the assisted mode with the overrides applied on top, the
   * filters are applied, and the trace is the assist calls followed by
   * exactly one write-back, which is the last call; a failed write-back
   * is reported and ends the run. When an assist fails, the run ends
   * without any write-back and with the import parameters untouched.
   */
  lemma SetCamModeOutcome(w: World, opt: Options, dev: Device)
    requires !w.exited
    ensures SetCamModeDid(w, opt, dev, SetCamModeSpec(w, opt, dev))
  {
    if !AssistsSucceed(opt, dev) {
      AssistFailureAborts(w, opt, dev);
    } else if dev.writeParameter.VvdFalse? {
      WriteBackFails(w, opt, dev);
    } else {
      WriteBackDone(w, opt, dev);
    }
  }

  /**
   * The overrides win over the assists: an option that is set ends up in
   * the mode written back whatever the assists measured.
   */
  lemma OverridesBeatAssists(w: World, opt: Options, dev: Device)
    requires !w.exited && AssistsSucceed(opt, dev)
    ensures var r := SetCamModeSpec(w, opt, dev);
      && (opt.distance >= 0 ==> r.mode.distance == opt.distance)
      && (opt.gain >= 0 ==> r.mode.gain == opt.gain)
      && (opt.rMode >= 0 ==> r.mode.rMode == opt.rMode)
      && (opt.threshold >= 0 ==> r.mode.threshold == opt.threshold)
      && (opt.autoRead >= 0 ==> r.mode.autoRead == opt.autoRead)
      && (opt.color >= 0 ==> r.mode.color == opt.color)
      && (opt.laserPower >= 0 ==> r.mode.laserPower == opt.laserPower)
  {
    SetCamModeOutcome(w, opt, dev);
  }

  // ---------------------------------------------------------------------
  // The session phases write and rotate nothing
  // ---------------------------------------------------------------------

  lemma CheckedQuiet(w: World, call: Event, stage: string, s: Status)
    requires EffectOf(call) == [] && !call.ScsiFinish?
    ensures var r := Checked(w, call, stage, s);
      Effects(r.events) == Effects(w.events) && Finishes(r.events) == Finishes(w.events)
      && r.exited == w.exited && r.mode == w.mode && r.imp == w.imp
  {
    EmitEffects(w, call);
    if s.VvdFalse? {
      EmitEffects(Emit(w, call), Reported(stage, s.err));
    }
  }

  lemma FatalQuiet(w: World, call: Event, stage: string, s: Status)
    requires !w.exited && EffectOf(call) == [] && !call.ScsiFinish?
    ensures Quiet(w, Fatal(w, call, stage, s))
    ensures Fatal(w, call, stage, s).exited <==> s.VvdFalse?
  {
    var w1 := Emit(w, call);
    EmitEffects(w, call);
    if s.VvdFalse? {
      EmitEffects(w1, Reported(stage, s.err));
      EmitEffects(HandleError(w1, stage, s), ScsiFinish);
    }
  }

  lemma AssistQuiet(w: World, requested: bool, call: Event, stage: string, a: Assist)
    requires !w.exited && EffectOf(call) == [] && !call.ScsiFinish?
    ensures Quiet(w, AssistSpec(w, requested, call, stage, a))
  {
    if requested {
      FatalQuiet(w, call, stage, a.status);
    }
  }

  lemma AssistsQuiet(w: World, opt: Options, dev: Device)
    requires !w.exited
    ensures Quiet(w, AssistsSpec(w, opt, dev))
  {
    var w1 := AssistSpec(w, opt.passiveAF, PassiveAF, "Passive AF", dev.passiveAF);
    AssistQuiet(w, opt.passiveAF, PassiveAF, "Passive AF", dev.passiveAF);
    if !w1.exited {
      var w2 := AssistSpec(w1, opt.activeAF, ActiveAF, "Active AF", dev.activeAF);
      AssistQuiet(w1, opt.activeAF, ActiveAF, "Active AF", dev.activeAF);
      if !w2.exited {
        AssistQuiet(w2, opt.activeAFAE, ActiveAFAE, "Active AF/AE", dev.activeAFAE);
      }
    }
  }

  lemma SetCamModeQuiet(w: World, opt: Options, dev: Device)
    requires !w.exited
    ensures Quiet(w, SetCamModeSpec(w, opt, dev))
  {
    var w3 := AssistsSpec(w, opt, dev);
    AssistsQuiet(w, opt, dev);
    if !w3.exited {
      var w4 := MergeSpec(w3, opt);
      FatalQuiet(w4, WriteParameter(w4.mode), "Write Camera Mode", dev.writeParameter);
    }
  }

  /** `get_cammode` writes and rotates nothing; it closes the session only when reading the mode fails. */
  lemma GetCamModeQuiet(w: World, dev: Device)
    requires !w.exited
    ensures var r := GetCamModeSpec(w, dev);
      && Effects(r.events) == Effects(w.events)
      && Finishes(r.events) == Finishes(w.events) + (if r.exited && !dev.initialize.VvdFalse? then 1 else 0)
      && (r.exited <==> dev.initialize.VvdFalse? || dev.readParameter.VvdFalse?)
  {
    var w1 := Emit(w, ScsiInitialize);
    EmitQuiet(w, ScsiInitialize);
    if dev.initialize.VvdFalse? {
      var w2 := Emit(w1, Reported("SCSI Initialize", dev.initialize.err));
      EmitQuiet(w1, Reported("SCSI Initialize", dev.initialize.err));
      assert GetCamModeSpec(w, dev) == w2.(exited := true);
    } else {
      var f := Fatal(w1, ReadParameter, "Read Camera Mode", dev.readParameter);
      FatalQuiet(w1, ReadParameter, "Read Camera Mode", dev.readParameter);
      assert GetCamModeSpec(w, dev) == if f.exited then f else f.(mode := dev.stored);
    }
  }

  lemma DynRangeIllegal(w: World, shot: Shot)
    requires !w.exited && shot.scanRead910.VvdIllegal?
    ensures Quiet(w, DynRangeSpec(w, shot)) && DynRangeSpec(w, shot).exited
  {
    var w1 := Emit(w, ScanRead910(w.mode.distance, w.mode.laserPower, w.mode.gain));
    var w2 := Emit(w1, NoVivid910);
    EmitQuiet(w, ScanRead910(w.mode.distance, w.mode.laserPower, w.mode.gain));
    EmitQuiet(w1, NoVivid910);
    EmitQuiet(w2, ScsiFinish);
    assert DynRangeSpec(w, shot) == FinishAndExit(w2);
  }

  /** An event that neither rotates nor writes leaves the effects alone. */
  lemma EmitQuiet(w: World, e: Event)
    requires !e.Rotate? && !e.WriteFile?
    ensures Effects(Emit(w, e).events) == Effects(w.events)
    ensures Finishes(Emit(w, e).events) == Finishes(w.events) + (if e.ScsiFinish? then 1 else 0)
  {
    EmitEffects(w, e);
    assert Effects(w.events) + [] == Effects(w.events);
  }

  lemma DynRangeFailed(w: World, shot: Shot)
    requires !w.exited && shot.scanRead910.VvdFalse?
    ensures Quiet(w, DynRangeSpec(w, shot)) && !DynRangeSpec(w, shot).exited
  {
    var w1 := Emit(w, ScanRead910(w.mode.distance, w.mode.laserPower, w.mode.gain));
    EmitEffects(w, ScanRead910(w.mode.distance, w.mode.laserPower, w.mode.gain));
    EmitEffects(w1, Reported("Release", shot.scanRead910.err));
  }

  lemma DynRangeRead(w: World, shot: Shot)
    requires !w.exited && shot.scanRead910.VvdTrue?
    ensures Quiet(w, DynRangeSpec(w, shot)) && !DynRangeSpec(w, shot).exited
  {
    EmitEffects(w, ScanRead910(w.mode.distance, w.mode.laserPower, w.mode.gain));
  }

  lemma StandardReleaseQuiet(w: World, shot: Shot)
    requires !w.exited
    ensures Quiet(w, StandardReleaseSpec(w, shot)) && !StandardReleaseSpec(w, shot).exited
  {
    var w3 := ReleaseAndPitch(w, shot);
    StandardReleaseSteps(w, shot, w3);
    CheckedQuiet(w3, ReadColor(w3.mode.rMode), "Read Color", shot.readColor);
  }

  /** The release and the pitch read: quiet, and the range buffer is filled unless the pitch read fails. */
  lemma ReleaseAndPitch(w: World, shot: Shot) returns (r: World)
    requires !w.exited
    ensures r == (var p := Checked(Checked(w, Release, "Release", shot.release), ReadPitch, "Read Pitch", shot.readPitch);
      if shot.readPitch.VvdFalse? then p else p.(data3d := shot.data3d))
    ensures Effects(r.events) == Effects(w.events) && Finishes(r.events) == Finishes(w.events) && !r.exited
  {
    var w1 := Checked(w, Release, "Release", shot.release);
    CheckedQuiet(w, Release, "Release", shot.release);
    CheckedQuiet(w1, ReadPitch, "Read Pitch", shot.readPitch);
    var p := Checked(w1, ReadPitch, "Read Pitch", shot.readPitch);
    r := if shot.readPitch.VvdFalse? then p else p.(data3d := shot.data3d);
  }

  /** The standard release as its last step, the colour read, after the release and the pitch read. */
  lemma StandardReleaseSteps(w: World, shot: Shot, w3: World)
    requires w3 == (var p := Checked(Checked(w, Release, "Release", shot.release), ReadPitch, "Read Pitch", shot.readPitch);
      if shot.readPitch.VvdFalse? then p else p.(data3d := shot.data3d))
    ensures StandardReleaseSpec(w, shot) == Checked(w3, ReadColor(w3.mode.rMode), "Read Color", shot.readColor)
  {
  }

  /**
   * `perform_release` writes and rotates nothing, and ends the run only
   * when the dual-exposure read finds a scanner that is not a VIVID 910.
   */
  lemma ReleaseQuiet(w: World, opt: Options, shot: Shot)
    requires !w.exited
    ensures Quiet(w, ReleaseSpec(w, opt, shot))
    ensures ReleaseSpec(w, opt, shot).exited <==> opt.dynRangeExp && shot.scanRead910.VvdIllegal?
  {
    if !opt.dynRangeExp {
      StandardReleaseQuiet(w, shot);
    } else if shot.scanRead910.VvdIllegal? {
      DynRangeIllegal(w, shot);
    } else if shot.scanRead910.VvdFalse? {
      DynRangeFailed(w, shot);
    } else {
      DynRangeRead(w, shot);
    }
  }

  // ---------------------------------------------------------------------
  // What one iteration and a whole loop rotate and write
  // ---------------------------------------------------------------------

  /** The rotation of one iteration, if it issues one. */
  function RotationOf(step: LoopPlan.Step): seq<Effect> {
    if step.rotate then [Rotated(step.angle)] else []
  }

  /** What one iteration should do: its rotation if any, then its file if the command writes one. */
  function StepEffects(step: LoopPlan.Step, writes: bool): seq<Effect> {
    RotationOf(step) + (if writes then [Wrote(step.filename)] else [])
  }

  /** What a loop over `steps` should do when nothing ends the run. */
  function Planned(steps: seq<LoopPlan.Step>, writes: bool): seq<Effect>
    decreases |steps|
  {
    if steps == [] then [] else StepEffects(steps[0], writes) + Planned(steps[1..], writes)
  }

  /** An iteration nothing can stop: no unsupported dual-exposure read, and the file can be opened. */
  predicate StepSafe(opt: Options, dev: Device, step: LoopPlan.Step, writes: bool) {
    && !(opt.dynRangeExp && dev.shot(step.index).scanRead910.VvdIllegal?)
    && (writes ==> step.filename !in dev.unwritable)
  }

  predicate LoopSafe(opt: Options, dev: Device, steps: seq<LoopPlan.Step>, writes: bool) {
    forall k :: 0 <= k < |steps| ==> StepSafe(opt, dev, steps[k], writes)
  }

  lemma RotateEffects(w: World, step: LoopPlan.Step)
    requires !w.exited
    ensures Advances(w, RotateSpec(w, step), RotationOf(step)) && !RotateSpec(w, step).exited
  {
    if step.rotate {
      EmitEffects(w, Rotate(step.angle));
    } else {
      assert Effects(w.events) + [] == Effects(w.events);
    }
  }

  lemma ScanWriteRefused(w: World, dev: Device, filename: string)
    requires !w.exited && filename in dev.unwritable
    ensures Quiet(w, ScanWriteSpec(w, dev, filename)) && ScanWriteSpec(w, dev, filename).exited
  {
    EmitEffects(w, CannotOpen(filename));
    EmitEffects(Emit(w, CannotOpen(filename)), ScsiFinish);
  }

  lemma ScanWriteDone(w: World, dev: Device, filename: string)
    requires !w.exited && filename !in dev.unwritable
    ensures var r := ScanWriteSpec(w, dev, filename);
      !r.exited && Advances(w, r, [Wrote(filename)])
  {
    EmitEffects(w, WriteFile(filename, ScanText(ScanFile.Text(w.data3d))));
  }

  /** The file part of `cmd_scan` writes its file, or ends the run when the file cannot be opened. */
  lemma ScanWriteEffects(w: World, dev: Device, filename: string)
    requires !w.exited
    ensures var r := ScanWriteSpec(w, dev, filename);
      Advances(w, r, [Wrote(filename)]) && (r.exited <==> filename in dev.unwritable)
  {
    if filename in dev.unwritable {
      ScanWriteRefused(w, dev, filename);
      QuietStops(w, ScanWriteSpec(w, dev, filename), [Wrote(filename)]);
    } else {
      ScanWriteDone(w, dev, filename);
    }
  }

  lemma PickupQuiet(w: World, shot: Shot)
    ensures var r := PickupSpec(w, shot);
      Effects(r.events) == Effects(w.events) && Finishes(r.events) == Finishes(w.events) && r.exited == w.exited
  {
    CheckedQuiet(w, PickupColorImage, "Pickup Color Image", shot.pickup);
  }

  lemma SaveImageUnknown(w: World, opt: Options, dev: Device, filename: string)
    requires !w.exited && opt.format != "TIFF"
    ensures Quiet(w, SaveImageSpec(w, opt, dev, filename)) && !SaveImageSpec(w, opt, dev, filename).exited
  {
    EmitEffects(w, UnknownFormat);
  }

  lemma SaveImageRefused(w: World, opt: Options, dev: Device, filename: string)
    requires !w.exited && opt.format == "TIFF" && filename in dev.unwritable
    ensures Quiet(w, SaveImageSpec(w, opt, dev, filename)) && SaveImageSpec(w, opt, dev, filename).exited
  {
    EmitEffects(w, CannotOpen(filename));
    EmitEffects(Emit(w, CannotOpen(filename)), ScsiFinish);
  }

  lemma SaveImageDone(w: World, opt: Options, dev: Device, filename: string)
    requires !w.exited && opt.format == "TIFF" && filename !in dev.unwritable
    ensures var r := SaveImageSpec(w, opt, dev, filename);
      !r.exited && Advances(w, r, [Wrote(filename)])
  {
    var img := Shuffled(w.image);
    EmitEffects(w.(image := img), WriteFile(filename, Tiff(img.width, img.height, img.pixels)));
  }

  /** The image writes: a TIFF file, or nothing for another format; only an unopenable TIFF file ends the run. */
  lemma SaveImageEffects(w: World, opt: Options, dev: Device, filename: string)
    requires !w.exited
    ensures var r := SaveImageSpec(w, opt, dev, filename);
      && Advances(w, r, if opt.format == "TIFF" then [Wrote(filename)] else [])
      && (r.exited <==> opt.format == "TIFF" && filename in dev.unwritable)
  {
    var r := SaveImageSpec(w, opt, dev, filename);
    if opt.format != "TIFF" {
      SaveImageUnknown(w, opt, dev, filename);
      assert Effects(w.events) + [] == Effects(w.events);
    } else if filename in dev.unwritable {
      SaveImageRefused(w, opt, dev, filename);
      QuietStops(w, r, [Wrote(filename)]);
    } else {
      SaveImageDone(w, opt, dev, filename);
    }
  }

  lemma ImageWriteEffects(w: World, opt: Options, dev: Device, shot: Shot, filename: string)
    requires !w.exited
    ensures var r := ImageWriteSpec(w, opt, dev, shot, filename);
      && Advances(w, r, if opt.format == "TIFF" then [Wrote(filename)] else [])
      && (r.exited <==> opt.format == "TIFF" && filename in dev.unwritable)
  {
    var w1 := PickupSpec(w, shot);
    PickupQuiet(w, shot);
    SaveImageEffects(w1, opt, dev, filename);
    QuietThen(w, w1, ImageWriteSpec(w, opt, dev, shot, filename), if opt.format == "TIFF" then [Wrote(filename)] else []);
  }

  /** One `cmd_scan` iteration rotates (when asked to) and writes its file, unless something ends the run. */
  lemma ScanIterEffects(w: World, opt: Options, dev: Device, step: LoopPlan.Step)
    requires !w.exited
    ensures var r := ScanIterSpec(w, opt, dev, step);
      Advances(w, r, StepEffects(step, true)) && (r.exited <==> !StepSafe(opt, dev, step, true))
  {
    var r := ScanIterSpec(w, opt, dev, step);
    var w1 := RotateSpec(w, step);
    RotateEffects(w, step);
    var w2 := ReleaseSpec(w1, opt, dev.shot(step.index));
    ReleaseQuiet(w1, opt, dev.shot(step.index));
    var fx := [Wrote(step.filename)];
    if w2.exited {
      QuietStops(w1, w2, fx);
    } else {
      ScanWriteEffects(w2, dev, step.filename);
      QuietThen(w1, w2, r, fx);
    }
    AdvancesThen(w, w1, r, RotationOf(step), fx);
  }

  /** One `cmd_image` iteration rotates (when asked to) and writes its TIFF file, unless something ends the run. */
  lemma ImageIterEffects(w: World, opt: Options, dev: Device, step: LoopPlan.Step)
    requires !w.exited
    ensures var r := ImageIterSpec(w, opt, dev, step);
      var writes := opt.format == "TIFF";
      Advances(w, r, StepEffects(step, writes)) && (r.exited <==> !StepSafe(opt, dev, step, writes))
  {
    var r := ImageIterSpec(w, opt, dev, step);
    var shot := dev.shot(step.index);
    var w1 := RotateSpec(w, step);
    RotateEffects(w, step);
    var w2 := ReleaseSpec(w1, opt, shot);
    ReleaseQuiet(w1, opt, shot);
    var fx := if opt.format == "TIFF" then [Wrote(step.filename)] else [];
    if w2.exited {
      QuietStops(w1, w2, fx);
    } else {
      ImageWriteEffects(w2, opt, dev, shot, step.filename);
      QuietThen(w1, w2, r, fx);
    }
    AdvancesThen(w, w1, r, RotationOf(step), fx);
  }

  /** A plan is safe exactly when its first step and the rest of it are. */
  lemma LoopSafeTail(opt: Options, dev: Device, steps: seq<LoopPlan.Step>, writes: bool)
    requires steps != []
    ensures LoopSafe(opt, dev, steps, writes) <==> StepSafe(opt, dev, steps[0], writes) && LoopSafe(opt, dev, steps[1..], writes)
  {
    if LoopSafe(opt, dev, steps, writes) {
      forall k | 0 <= k < |steps[1..]| ensures StepSafe(opt, dev, steps[1..][k], writes) {
        assert steps[1..][k] == steps[k + 1];
      }
    }
    if StepSafe(opt, dev, steps[0], writes) && LoopSafe(opt, dev, steps[1..], writes) {
      forall k | 0 < k < |steps| ensures StepSafe(opt, dev, steps[k], writes) {
        assert steps[k] == steps[1..][k - 1];
      }
    }
  }

  /**
   * The scan loop closes the session exactly when it ends the run; what it
   * has rotated and written is always a prefix of the plan, and all of the
   * plan when it completes, which it does exactly when no iteration fails.
   */
  lemma {:induction false} ScanLoopEffects(w: World, opt: Options, dev: Device, steps: seq<LoopPlan.Step>)
    requires !w.exited
    ensures var r := ScanLoopSpec(w, opt, dev, steps);
      Advances(w, r, Planned(steps, true)) && (r.exited <==> !LoopSafe(opt, dev, steps, true))
    decreases |steps|
  {
    var r := ScanLoopSpec(w, opt, dev, steps);
    if steps == [] {
      assert Effects(w.events) + [] == Effects(w.events);
    } else {
      var w1 := ScanIterSpec(w, opt, dev, steps[0]);
      ScanIterEffects(w, opt, dev, steps[0]);
      assert r == ScanLoopSpec(w1, opt, dev, steps[1..]);
      if !w1.exited {
        ScanLoopEffects(w1, opt, dev, steps[1..]);
      }
      AdvancesThen(w, w1, r, StepEffects(steps[0], true), Planned(steps[1..], true));
      LoopSafeTail(opt, dev, steps, true);
    }
  }

  lemma {:induction false} ImageLoopEffects(w: World, opt: Options, dev: Device, steps: seq<LoopPlan.Step>)
    requires !w.exited
    ensures var r := ImageLoopSpec(w, opt, dev, steps);
      var writes := opt.format == "TIFF";
      Advances(w, r, Planned(steps, writes)) && (r.exited <==> !LoopSafe(opt, dev, steps, writes))
    decreases |steps|
  {
    var writes := opt.format == "TIFF";
    var r := ImageLoopSpec(w, opt, dev, steps);
    if steps == [] {
      assert Effects(w.events) + [] == Effects(w.events);
    } else {
      var w1 := ImageIterSpec(w, opt, dev, steps[0]);
      ImageIterEffects(w, opt, dev, steps[0]);
      assert r == ImageLoopSpec(w1, opt, dev, steps[1..]);
      if !w1.exited {
        ImageLoopEffects(w1, opt, dev, steps[1..]);
      }
      AdvancesThen(w, w1, r, StepEffects(steps[0], writes), Planned(steps[1..], writes));
      LoopSafeTail(opt, dev, steps, writes);
    }
  }

  // ---------------------------------------------------------------------
  // Whole commands
  // ---------------------------------------------------------------------

  /** Every call of the prologue succeeds (VVD_ILLEGAL included: only VVD_FALSE is a failure). */
  predicate Negotiates(opt: Options, dev: Device) {
    && !dev.initialize.VvdFalse?
    && !dev.readParameter.VvdFalse?
    && AssistsSucceed(opt, dev)
    && !dev.writeParameter.VvdFalse?
  }

  /**
   * The prologue writes and rotates nothing; it ends the run exactly when
   * one of its calls fails, and then closes the session unless the
   * session never opened.
   */
  lemma PrepareOutcome(w: World, opt: Options, dev: Device)
    requires !w.exited
    ensures var r := PrepareSpec(w, opt, dev);
      && Effects(r.events) == Effects(w.events)
      && Finishes(r.events) == Finishes(w.events) + (if r.exited && !dev.initialize.VvdFalse? then 1 else 0)
      && (r.exited <==> !Negotiates(opt, dev))
  {
    var w1 := GetCamModeSpec(w, dev);
    GetCamModeQuiet(w, dev);
    if !w1.exited {
      SetCamModeQuiet(w1, opt, dev);
      SetCamModeOutcome(w1, opt, dev);
    }
  }

  /** `status` always ends the run, writes and rotates nothing, and closes the session once if it was opened. */
  lemma StatusOutcome(w: World, opt: Options, dev: Device)
    requires !w.exited
    ensures var r := CmdStatusSpec(w, opt, dev);
      && r.exited
      && Effects(r.events) == Effects(w.events)
      && Finishes(r.events) == Finishes(w.events) + (if dev.initialize.VvdFalse? then 0 else 1)
  {
    var p := PrepareSpec(w, opt, dev);
    PrepareOutcome(w, opt, dev);
    if !p.exited {
      StatusReported(p);
    }
  }

  /** The end of `status`: print the mode, then `finish_and_exit`. */
  lemma StatusReported(p: World)
    ensures var r := FinishAndExit(Emit(p, StatusReport(p.mode)));
      Effects(r.events) == Effects(p.events) && Finishes(r.events) == Finishes(p.events) + 1
  {
    EmitEffects(p, StatusReport(p.mode));
    EmitEffects(Emit(p, StatusReport(p.mode)), ScsiFinish);
  }

  /** What ends a command that ran its loop: the loop's own exit, or the final `finish_and_exit`. */
  lemma CloseAfterLoop(p: World, l: World, planned: seq<Effect>)
    requires !p.exited && Advances(p, l, planned)
    ensures var r := if l.exited then l else FinishAndExit(l);
      && r.exited
      && Finishes(r.events) == Finishes(p.events) + 1
      && Effects(r.events) <= Effects(p.events) + planned
      && (!l.exited ==> Effects(r.events) == Effects(p.events) + planned)
  {
    if !l.exited {
      EmitEffects(l, ScsiFinish);
    }
  }

  /** A prologue that ends the run has rotated and written nothing, the empty prefix of any plan. */
  lemma PrepareStops(w: World, opt: Options, dev: Device, planned: seq<Effect>)
    requires !w.exited && PrepareSpec(w, opt, dev).exited
    ensures Effects(PrepareSpec(w, opt, dev).events) == Effects(w.events)
    ensures Effects(PrepareSpec(w, opt, dev).events) <= Effects(w.events) + planned
  {
    PrepareOutcome(w, opt, dev);
    PrefixAppend(Effects(w.events), Effects(w.events), planned);
  }

  /**
   * `scan` always ends the run and closes the session once if it was
   * opened. Its rotations and files are a prefix of the plan, and the
   * whole plan when the prologue succeeds and no iteration can fail.
   */
  lemma ScanOutcome(w: World, opt: Options, dev: Device)
    requires !w.exited
    ensures var r := CmdScanSpec(w, opt, dev);
      var planned := Planned(ScanSteps(opt), true);
      && r.exited
      && Finishes(r.events) == Finishes(w.events) + (if dev.initialize.VvdFalse? then 0 else 1)
      && Effects(r.events) <= Effects(w.events) + planned
      && (Negotiates(opt, dev) && LoopSafe(opt, dev, ScanSteps(opt), true) ==> Effects(r.events) == Effects(w.events) + planned)
  {
    var planned := Planned(ScanSteps(opt), true);
    var p := PrepareSpec(w, opt, dev);
    PrepareOutcome(w, opt, dev);
    if p.exited {
      PrepareStops(w, opt, dev, planned);
    } else {
      ScanLoopEffects(p, opt, dev, ScanSteps(opt));
      CloseAfterLoop(p, ScanLoopSpec(p, opt, dev, ScanSteps(opt)), planned);
    }
  }

  /**
   * `image` always ends the run and closes the session once if it was
   * opened. Its rotations and files are a prefix of the plan, which has
   * files only for the format "TIFF", and the whole plan when the prologue
   * succeeds and no iteration can fail.
   */
  lemma ImageOutcome(w: World, opt: Options, dev: Device)
    requires !w.exited
    ensures var r := CmdImageSpec(w, opt, dev);
      var writes := opt.format == "TIFF";
      var planned := Planned(ImageSteps(opt), writes);
      && r.exited
      && Finishes(r.events) == Finishes(w.events) + (if dev.initialize.VvdFalse? then 0 else 1)
      && Effects(r.events) <= Effects(w.events) + planned
      && (Negotiates(opt, dev) && LoopSafe(opt, dev, ImageSteps(opt), writes) ==> Effects(r.events) == Effects(w.events) + planned)
  {
    var writes := opt.format == "TIFF";
    var planned := Planned(ImageSteps(opt), writes);
    var p := PrepareSpec(w, opt, dev);
    PrepareOutcome(w, opt, dev);
    if p.exited {
      PrepareStops(w, opt, dev, planned);
    } else {
      ImageLoopEffects(p, opt, dev, ImageSteps(opt));
      CloseAfterLoop(p, ImageLoopSpec(p, opt, dev, ImageSteps(opt)), planned);
    }
  }

  /** Without file writes a plan only rotates the table. */
  lemma {:induction false} PlannedWithoutWrites(steps: seq<LoopPlan.Step>)
    ensures forall k :: 0 <= k < |Planned(steps, false)| ==> Planned(steps, false)[k].Rotated?
    decreases |steps|
  {
    if steps != [] {
      PlannedWithoutWrites(steps[1..]);
      var head := StepEffects(steps[0], false);
      assert head == RotationOf(steps[0]);
      assert Planned(steps, false) == head + Planned(steps[1..], false);
    }
  }

  /** A single scan writes its one file and does not rotate the table. */
  lemma SingleScanPlan(opt: Options)
    requires opt.count == 1
    ensures Planned(ScanSteps(opt), true) == [Wrote(LoopPlan.ScanName(opt.output))]
  {
    var name := LoopPlan.ScanName(opt.output);
    LoopPlan.SingleShot(opt.start, name, opt.format, name);
    assert ScanSteps(opt)[1..] == [];
  }

  /**
   * Every run ends: through `finish_and_exit` (the session closed once),
   * through the failed `SCSI Initialize` (no session to close), or through
   * the usage message for a missing or unknown command.
   */
  lemma RunOutcome(w: World, command: Option<string>, opt: Options, dev: Device)
    requires !w.exited
    ensures var r := RunSpec(w, command, opt, dev);
      var known := command == Some("status") || command == Some("scan") || command == Some("image");
      && r.exited
      && Finishes(r.events) == Finishes(w.events) + (if known && !dev.initialize.VvdFalse? then 1 else 0)
      && (!(command == Some("scan") || command == Some("image")) ==> Effects(r.events) == Effects(w.events))
  {
    if command == Some("status") {
      StatusOutcome(w, opt, dev);
    } else if command == Some("scan") {
      ScanOutcome(w, opt, dev);
    } else if command == Some("image") {
      ImageOutcome(w, opt, dev);
    } else {
      EmitEffects(w, Usage);
    }
  }
}
