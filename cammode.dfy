/**
 * The device configuration (`VVDII_CameraMode`) and the import filter
 * parameters (`VVDII_ImportPara`), and the part of `set_cammode` that
 * merges the operator's options into them: an option that is >= 0
 * replaces its field, an unset option (-1) leaves the field alone.
 */
module CamMode {
  import opened Options

  datatype CameraMode = CameraMode(
    distance: int,
    laserPower: int,
    gain: int,
    rMode: int,
    threshold: int,
    autoRead: int,
    color: int)

  /** Filter settings; the zero record (every filter off) is the start state. */
  datatype ImportPara = ImportPara(
    eFillHole: int,
    bDark: int,
    eReduce: int,
    eFilter: int)

  /** Both records are zero-initialised globals in the source. */
  const ZERO_MODE: CameraMode := CameraMode(0, 0, 0, 0, 0, 0, 0)
  const NO_FILTERS: ImportPara := ImportPara(0, 0, 0, 0)

  /** The value a field holds after an option that may be unset. */
  function Pick(option: int, field: int): int {
    if option >= 0 then option else field
  }

  /** The seven camera-mode overrides, in the order set_cammode applies them. */
  function ApplyOverrides(m: CameraMode, opt: Options): (r: CameraMode)
    ensures opt.distance >= 0 ==> r.distance == opt.distance
    ensures opt.distance < 0 ==> r.distance == m.distance
    ensures opt.gain >= 0 ==> r.gain == opt.gain
    ensures opt.gain < 0 ==> r.gain == m.gain
    ensures opt.rMode >= 0 ==> r.rMode == opt.rMode
    ensures opt.rMode < 0 ==> r.rMode == m.rMode
    ensures opt.threshold >= 0 ==> r.threshold == opt.threshold
    ensures opt.threshold < 0 ==> r.threshold == m.threshold
    ensures opt.autoRead >= 0 ==> r.autoRead == opt.autoRead
    ensures opt.autoRead < 0 ==> r.autoRead == m.autoRead
    ensures opt.color >= 0 ==> r.color == opt.color
    ensures opt.color < 0 ==> r.color == m.color
    ensures opt.laserPower >= 0 ==> r.laserPower == opt.laserPower
    ensures opt.laserPower < 0 ==> r.laserPower == m.laserPower
  {
    var m := m.(distance := Pick(opt.distance, m.distance));
    var m := m.(gain := Pick(opt.gain, m.gain));
    var m := m.(rMode := Pick(opt.rMode, m.rMode));
    var m := m.(threshold := Pick(opt.threshold, m.threshold));
    var m := m.(autoRead := Pick(opt.autoRead, m.autoRead));
    var m := m.(color := Pick(opt.color, m.color));
    m.(laserPower := Pick(opt.laserPower, m.laserPower))
  }

  /**
   * The four filter options: fill-hole and dark correction are switched
   * on (set to 1) whatever the option's value, subsampling and noise copy
   * the option's value.
   */
  function ApplyFilters(p: ImportPara, opt: Options): (r: ImportPara)
    ensures r.eFillHole == (if opt.fillHole >= 0 then 1 else p.eFillHole)
    ensures r.bDark == (if opt.dark >= 0 then 1 else p.bDark)
    ensures opt.subsampling >= 0 ==> r.eReduce == opt.subsampling
    ensures opt.subsampling < 0 ==> r.eReduce == p.eReduce
    ensures opt.noise >= 0 ==> r.eFilter == opt.noise
    ensures opt.noise < 0 ==> r.eFilter == p.eFilter
  {
    var p := if opt.fillHole >= 0 then p.(eFillHole := 1) else p;
    var p := if opt.dark >= 0 then p.(bDark := 1) else p;
    var p := if opt.subsampling >= 0 then p.(eReduce := opt.subsampling) else p;
    if opt.noise >= 0 then p.(eFilter := opt.noise) else p
  }

  /** Applying the same overrides a second time changes nothing. */
  lemma OverridesIdempotent(m: CameraMode, opt: Options)
    ensures ApplyOverrides(ApplyOverrides(m, opt), opt) == ApplyOverrides(m, opt)
  {
  }

  lemma FiltersIdempotent(p: ImportPara, opt: Options)
    ensures ApplyFilters(ApplyFilters(p, opt), opt) == ApplyFilters(p, opt)
  {
  }

  /**
   * Overrides win over whatever the device or an autofocus step left in a
   * field: two starting records that differ only in overridden fields
   * merge to the same record, and with all seven options given the result
   * does not depend on the starting record at all.
   */
  lemma OverridesWin(m1: CameraMode, m2: CameraMode, opt: Options)
    requires opt.distance >= 0 && opt.gain >= 0 && opt.rMode >= 0 && opt.threshold >= 0
    requires opt.autoRead >= 0 && opt.color >= 0 && opt.laserPower >= 0
    ensures ApplyOverrides(m1, opt) == ApplyOverrides(m2, opt)
      == CameraMode(opt.distance, opt.laserPower, opt.gain, opt.rMode, opt.threshold, opt.autoRead, opt.color)
  {
  }

  /** With no option given the merge leaves both records as they are. */
  lemma DefaultsChangeNothing(m: CameraMode, p: ImportPara)
    ensures ApplyOverrides(m, DEFAULTS) == m
    ensures ApplyFilters(p, DEFAULTS) == p
  {
  }

  /**
   * Every value that passed `main`'s range check takes effect: after the
   * merge, a given option's field holds the option, an unset one is kept.
   */
  lemma ValidatedOptionsTakeEffect(m: CameraMode, opt: Options)
    requires Validated(opt)
    ensures var r := ApplyOverrides(m, opt);
      && r.distance == (if opt.distance == UNSET then m.distance else opt.distance)
      && r.laserPower == (if opt.laserPower == UNSET then m.laserPower else opt.laserPower)
      && r.gain == (if opt.gain == UNSET then m.gain else opt.gain)
      && r.rMode == (if opt.rMode == UNSET then m.rMode else opt.rMode)
      && r.threshold == (if opt.threshold == UNSET then m.threshold else opt.threshold)
      && r.autoRead == (if opt.autoRead == UNSET then m.autoRead else opt.autoRead)
      && r.color == (if opt.color == UNSET then m.color else opt.color)
  {
  }
}
