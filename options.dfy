/**
 * The command-line options of v2scan (the globals at the top of v2scan.c)
 * and the range checks `main` applies to each numeric option before any
 * device call. A numeric option left at -1 means "not given".
 */
module Options {
  import opened Wrappers

  /** Marks a numeric option that was not given on the command line. */
  const UNSET: int := -1
  /** The threshold value the device reads as "automatic". */
  const AUTO_THRESHOLD: int := 65535

  datatype Options = Options(
    passiveAF: bool,
    activeAF: bool,
    activeAFAE: bool,
    dynRangeExp: bool,
    output: Option<string>,
    format: string,
    distance: int,
    laserPower: int,
    gain: int,
    rMode: int,
    threshold: int,
    autoRead: int,
    color: int,
    start: int,
    count: int,
    subsampling: int,
    noise: int,
    fillHole: int,
    dark: int)

  /** The values the program starts from when no option is given. */
  const DEFAULTS: Options := Options(
    passiveAF := false, activeAF := false, activeAFAE := false, dynRangeExp := false,
    output := None, format := "TIFF",
    distance := UNSET, laserPower := UNSET, gain := UNSET, rMode := UNSET,
    threshold := UNSET, autoRead := UNSET, color := UNSET,
    start := -1, count := 1,
    subsampling := UNSET, noise := UNSET, fillHole := UNSET, dark := UNSET)

  /** The options that take an integer argument and are range-checked. */
  datatype Numeric = Distance | LaserPower | Gain | RMode | Threshold | AutoRead | Color | Subsampling | Noise

  /** Smallest value of the contiguous range each option accepts. */
  function Low(o: Numeric): int {
    match o
    case Distance => 500
    case Subsampling => 1
    case _ => 0
  }

  /** Largest value of the contiguous range each option accepts. */
  function High(o: Numeric): int {
    match o
    case Distance => 2500
    case LaserPower => 255
    case Gain => 7
    case RMode => 7
    case Threshold => 1023
    case AutoRead => 1
    case Color => 10
    case Subsampling => 5
    case Noise => 3
  }

  /**
   * Whether `main` keeps the value or stops with an error message; the
   * tests are the rejection conditions of the source, negated. The
   * threshold also accepts the "automatic" value, and subsampling accepts
   * 5 although its message advertises 1-4.
   */
  function Accepts(o: Numeric, v: int): (ok: bool)
    ensures ok <==> Low(o) <= v <= High(o) || (o == Threshold && v == AUTO_THRESHOLD)
    ensures ok ==> v != UNSET && v >= 0
  {
    match o
    case Distance => !(v < 500 || v > 2500)
    case LaserPower => !(v < 0 || v > 255)
    case Gain => !(v < 0 || v > 7)
    case RMode => !(v < 0 || v > 7)
    case Threshold => !((v < 0 || v > 1023) && v != 65535)
    case AutoRead => !(v < 0 || v > 1)
    case Color => !(v < 0 || v > 10)
    case Subsampling => !(v < 1 || v > 5)
    case Noise => !(v < 0 || v > 3)
  }

  /** A numeric option either was not given or passed its range check. */
  predicate GivenOrUnset(o: Numeric, v: int) {
    v == UNSET || Accepts(o, v)
  }

  /**
   * The options as `main` hands them to a command: every numeric option
   * unset or accepted, and the two filter flags unset or set to 1.
   */
  predicate Validated(opt: Options) {
    && GivenOrUnset(Distance, opt.distance)
    && GivenOrUnset(LaserPower, opt.laserPower)
    && GivenOrUnset(Gain, opt.gain)
    && GivenOrUnset(RMode, opt.rMode)
    && GivenOrUnset(Threshold, opt.threshold)
    && GivenOrUnset(AutoRead, opt.autoRead)
    && GivenOrUnset(Color, opt.color)
    && GivenOrUnset(Subsampling, opt.subsampling)
    && GivenOrUnset(Noise, opt.noise)
    && (opt.fillHole == UNSET || opt.fillHole == 1)
    && (opt.dark == UNSET || opt.dark == 1)
  }

  /** The current value of a numeric option. */
  function Get(opt: Options, o: Numeric): int {
    match o
    case Distance => opt.distance
    case LaserPower => opt.laserPower
    case Gain => opt.gain
    case RMode => opt.rMode
    case Threshold => opt.threshold
    case AutoRead => opt.autoRead
    case Color => opt.color
    case Subsampling => opt.subsampling
    case Noise => opt.noise
  }

  /**
   * Applies one numeric option as `main` does: the value replaces the
   * option when accepted; otherwise the program stops (None).
   */
  function SetNumeric(opt: Options, o: Numeric, v: int): (r: Option<Options>)
    ensures r.Some? <==> Accepts(o, v)
    ensures r.Some? ==> Get(r.value, o) == v
    ensures r.Some? ==> forall p :: p != o ==> Get(r.value, p) == Get(opt, p)
    ensures r.Some? ==> r.value.format == opt.format && r.value.count == opt.count && r.value.start == opt.start
    ensures r.Some? ==> r.value.output == opt.output && r.value.passiveAF == opt.passiveAF && r.value.activeAF == opt.activeAF
    ensures r.Some? ==> r.value.activeAFAE == opt.activeAFAE && r.value.dynRangeExp == opt.dynRangeExp
    ensures r.Some? ==> r.value.fillHole == opt.fillHole && r.value.dark == opt.dark
    ensures Validated(opt) && r.Some? ==> Validated(r.value)
  {
    if !Accepts(o, v) then None
    else Some(match o
      case Distance => opt.(distance := v)
      case LaserPower => opt.(laserPower := v)
      case Gain => opt.(gain := v)
      case RMode => opt.(rMode := v)
      case Threshold => opt.(threshold := v)
      case AutoRead => opt.(autoRead := v)
      case Color => opt.(color := v)
      case Subsampling => opt.(subsampling := v)
      case Noise => opt.(noise := v))
  }

  lemma DefaultsValidated()
    ensures Validated(DEFAULTS)
  {
  }
}
