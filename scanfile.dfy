/**
 * The text file `cmd_scan` writes for each shot: a fixed seven-line
 * header, then every sample of the 640 x 480 range buffer as one decimal
 * integer per line, row by row (y outer, x inner). A file is modelled as
 * its sequence of lines, each without its terminating newline.
 */
module ScanFile {
  import opened Wrappers
  import Decimal

  const WIDTH: nat := 640
  const HEIGHT: nat := 480
  const FRAME_SAMPLES: nat := 640 * 480

  /** The range buffer of one capture record: exactly 640 x 480 samples. */
  type Frame = s: seq<int> | |s| == 640 * 480 witness seq(640 * 480, _ => 0)

  const HEADER: seq<string> := [
    "IBRraw.xdr",
    "@@ImageDim = 3",
    "@@ImageSize = 640 480",
    "@@buffer-channels-0 = 3",
    "@@buffer-primtype-0 = byte",
    "@@buffer-type-0 = color",
    "---end-of-header---"
  ]

  /** One sample as `%d` prints it: the 32-bit sample read as a signed int. */
  function Line(v: int): string {
    Decimal.Format(Decimal.Int32Of(v))
  }

  /** The data lines of a sequence of samples, in order. */
  function DataLines(s: seq<int>): (r: seq<string>)
    ensures |r| == |s|
    ensures forall k :: 0 <= k < |s| ==> r[k] == Line(s[k])
    decreases |s|
  {
    if s == [] then [] else [Line(s[0])] + DataLines(s[1..])
  }

  /** The whole file for one frame. */
  function Text(data: Frame): (lines: seq<string>)
    ensures |lines| == 7 + FRAME_SAMPLES
    ensures lines[..7] == HEADER && lines[6] == "---end-of-header---"
    ensures forall k :: 0 <= k < FRAME_SAMPLES ==> lines[7 + k] == Line(data[k])
  {
    HEADER + DataLines(data)
  }

  /** Line 7 + y * 640 + x of the file holds the sample at column x of row y. */
  lemma RowMajor(data: Frame, y: nat, x: nat)
    requires y < HEIGHT && x < WIDTH
    ensures y * WIDTH + x < FRAME_SAMPLES
    ensures Text(data)[7 + y * WIDTH + x] == Line(data[y * WIDTH + x])
  {
  }

  /** What a reader of the file recovers: each sample reduced to its signed 32-bit value. */
  function Int32s(s: seq<int>): (r: seq<int>)
    ensures |r| == |s|
    ensures forall k :: 0 <= k < |s| ==> r[k] == Decimal.Int32Of(s[k])
    decreases |s|
  {
    if s == [] then [] else [Decimal.Int32Of(s[0])] + Int32s(s[1..])
  }

  /** Parses data lines, one integer per line. */
  function ParseLines(lines: seq<string>): Option<seq<int>>
    decreases |lines|
  {
    if lines == [] then Some([])
    else match (Decimal.Parse(lines[0]), ParseLines(lines[1..]))
      case (Some(v), Some(rest)) => Some([v] + rest)
      case _ => None
  }

  /** Reads a scan file back: checks the header, then parses the data lines. */
  function Read(lines: seq<string>): Option<seq<int>> {
    if |lines| < 7 || lines[..7] != HEADER then None else ParseLines(lines[7..])
  }

  lemma {:induction false} DataLinesRoundTrip(s: seq<int>)
    ensures ParseLines(DataLines(s)) == Some(Int32s(s))
    decreases |s|
  {
    if s != [] {
      DataLinesRoundTrip(s[1..]);
      Decimal.FormatRoundTrip(Decimal.Int32Of(s[0]));
      var d := DataLines(s);
      assert d[0] == Line(s[0]);
      assert d[1..] == DataLines(s[1..]);
    }
  }

  /** Reading a written scan file gives back every sample, in row-major order. */
  lemma TextRoundTrip(data: Frame)
    ensures Read(Text(data)) == Some(Int32s(data))
  {
    var t := Text(data);
    assert t[7..] == DataLines(data);
    DataLinesRoundTrip(data);
  }

  /**
   * The header and data writing of `cmd_scan`: two nested loops over y and
   * x, advancing one buffer pointer and appending one line per sample.
   */
  method WriteText(data: Frame) returns (lines: seq<string>)
    ensures lines == Text(data)
  {
    lines := HEADER;
    var p := 0;
    var y := 0;
    while y < 480
      invariant 0 <= y <= 480 && p == y * 640
      invariant |lines| == 7 + p && lines[..7] == HEADER
      invariant forall k :: 0 <= k < p ==> lines[7 + k] == Line(data[k])
    {
      var x := 0;
      while x < 640
        invariant 0 <= x <= 640 && p == y * 640 + x
        invariant |lines| == 7 + p && lines[..7] == HEADER
        invariant forall k :: 0 <= k < p ==> lines[7 + k] == Line(data[k])
      {
        lines := lines + [Line(data[p])];
        p := p + 1;
        x := x + 1;
      }
      y := y + 1;
    }
    var expected := Text(data);
    assert |lines| == |expected|;
    forall k | 0 <= k < |lines|
      ensures lines[k] == expected[k]
    {
      if k >= 7 {
        assert expected[k] == DataLines(data)[k - 7];
      }
    }
  }
}
