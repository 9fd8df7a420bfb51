/**
 * What the program sees of the VIVID camera SDK, the file system and the
 * turntable: the status each SDK call returns, the error condition
 * `VividGetErrorStatus` reports after a failure, and the observable
 * actions of a run (SDK calls, messages, files written), recorded as a
 * trace of events. The SDK's behaviour is a `Device`: a script of the
 * outcome of every call the program makes.
 */
module Sdk {
  import opened CamMode
  import ScanFile

  /** The error conditions `handle_error` names; any other code is `Unlisted`. */
  datatype ErrorCode =
    | SerrBusy | SerrWrite | SerrRead | SerrBlock | SerrPowerOn | SerrHard
    | SerrPcFormat | SerrNonAta | SerrNoPcCard | SerrParity | SerrReady
    | SerrOutOfDist | SerrHddReset | SerrNotFound | SerrAny | SerrMemory | SerrArgument
    | VerrorMemAlloc | VerrorOpenFile | VerrorReadFile | VerrorNotProduct
    | VerrorInvalidMagic | VerrorUnknownType | VerrorInvalidArgs | VerrorWriteFile
    | VerrorNoImage | VerrorMultData | VerrorSingleData
    | Unlisted(code: int)

  /** The text `handle_error` prints in parentheses after the code. */
  function ErrorText(e: ErrorCode): string {
    match e
    case SerrBusy => "timeout error"
    case SerrWrite => "scsi write error"
    case SerrRead => "scsi read error"
    case SerrBlock => "block error"
    case SerrPowerOn => "power on reset error"
    case SerrHard => "hardware error"
    case SerrPcFormat => "pccard format error"
    case SerrNonAta => "non supported pccard"
    case SerrNoPcCard => "no pccard present"
    case SerrParity => "scsi parity error"
    case SerrReady => "ready command error"
    case SerrOutOfDist => "out of distance"
    case SerrHddReset => "unit reset or hdd changed"
    case SerrNotFound => "vivid not found"
    case SerrAny => "any error"
    case SerrMemory => "scsi memory error"
    case SerrArgument => "scsi argument error"
    case VerrorMemAlloc => "memory allocation error"
    case VerrorOpenFile => "file open error"
    case VerrorReadFile => "file read error"
    case VerrorNotProduct => "not a vivid file"
    case VerrorInvalidMagic => "invalid magic number"
    case VerrorUnknownType => "unknown type"
    case VerrorInvalidArgs => "invalid argument"
    case VerrorWriteFile => "file write error"
    case VerrorNoImage => "has no image"
    case VerrorMultData => "not a single data file"
    case VerrorSingleData => "not a multi data file"
    case Unlisted(_) => "unknown error"
  }

  /** Only codes outside the table fall back to "unknown error". */
  lemma UnknownOnlyForUnlisted(e: ErrorCode)
    ensures ErrorText(e) == "unknown error" <==> e.Unlisted?
  {
  }

  /**
   * The status of an SDK call: VVD_TRUE, VVD_FALSE (with the error
   * condition the SDK then reports) or VVD_ILLEGAL (a feature the
   * connected model lacks).
   */
  datatype Status = VvdTrue | VvdFalse(err: ErrorCode) | VvdIllegal

  /** An autofocus / autoexposure step: its status and the camera mode it leaves. */
  datatype Assist = Assist(status: Status, after: CameraMode)

  /** A picked-up colour image: four bytes per pixel. */
  datatype RawImage = RawImage(width: nat, height: nat, pixels: seq<bv8>)
  type Image = i: RawImage | |i.pixels| == i.width * i.height * 4 witness RawImage(0, 0, [])

  /** The outcomes of the SDK calls of one loop iteration. */
  datatype Shot = Shot(
    scanRead910: Status,
    release: Status,
    readPitch: Status,
    readColor: Status,
    data3d: ScanFile.Frame,
    pickup: Status,
    image: Image)

  /**
   * The script of a whole run: the outcome of session set-up, of reading
   * and writing the camera mode and of each assist step, the outcomes of
   * iteration i as `shot(i)`, and the file names the file system refuses
   * to open for writing.
   */
  datatype Device = Device(
    initialize: Status,
    readParameter: Status,
    stored: CameraMode,
    passiveAF: Assist,
    activeAF: Assist,
    activeAFAE: Assist,
    writeParameter: Status,
    shot: int -> Shot,
    unwritable: set<string>)

  /** The content of a file the program writes. */
  datatype OutFile =
    | ScanText(lines: seq<string>)
    | Tiff(width: nat, height: nat, strip: seq<bv8>)

  /** The observable actions of a run, in order. */
  datatype Event =
    | ScsiInitialize
    | ReadParameter
    | PassiveAF
    | ActiveAF
    | ActiveAFAE
    | WriteParameter(mode: CameraMode)
    | ScanRead910(distance: int, laserPower: int, gain: int)
    | Release
    | ReadPitch
    | ReadColor(rMode: int)
    | PickupColorImage
    | Rotate(angle: int)
    | Reported(stage: string, err: ErrorCode)
    | NoVivid910
    | CannotOpen(filename: string)
    | UnknownFormat
    | StatusReport(mode: CameraMode)
    | WriteFile(filename: string, content: OutFile)
    | Usage
    | ScsiFinish
}
