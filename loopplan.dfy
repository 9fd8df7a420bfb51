/**
 * The multi-view loop shared by `cmd_scan` and `cmd_image`:
 * `for (i = 1; i <= count; i++, start += 360 / count)`. Each iteration
 * is described by a `Step`: its index, the turntable angle passed to the
 * rotation command, whether the rotation command is issued at all
 * (only when count > 1), and the output filename.
 */
module LoopPlan {
  import opened Wrappers
  import Decimal

  datatype Step = Step(index: int, angle: int, rotate: bool, filename: string)

  /** `sprintf(filename, "%s%d.%s", output, i, format)`. */
  function IndexedName(output: string, i: int, format: string): string {
    output + Decimal.Format(i) + "." + format
  }

  /** The single-shot name of `cmd_scan`: the output itself, by default "image.hdr". */
  function ScanName(output: Option<string>): string {
    match output
    case Some(o) => o
    case None => "image.hdr"
  }

  /** The base of `cmd_image`'s names: the output, by default "image". */
  function ImageBase(output: Option<string>): string {
    match output
    case Some(o) => o
    case None => "image"
  }

  /** The single-shot name of `cmd_image`: `"%s.%s"` of base and format. */
  function ImageName(output: Option<string>, format: string): string {
    ImageBase(output) + "." + format
  }

  /** The iteration's filename: indexed when count > 1, the single-shot name otherwise. */
  function NameOf(count: int, i: int, base: string, format: string, single: string): string {
    if count > 1 then IndexedName(base, i, format) else single
  }

  /**
   * The iterations i, i + 1, ..., count, iteration i at angle `start`:
   * the k-th of them turns the table by k increments of `turn`.
   */
  function Steps(i: int, count: int, start: int, turn: int, base: string, format: string, single: string): (r: seq<Step>)
    requires i >= 1
  {
    if i > count then []
    else
      seq(count - i + 1, k requires 0 <= k <= count - i =>
        Step(i + k, start + k * turn, count > 1, NameOf(count, i + k, base, format, single)))
  }

  /**
   * The angle increment `360 / count` of the loop header; it is only
   * evaluated after an iteration, so count >= 1 whenever it matters.
   */
  function Turn(count: int): int {
    if count >= 1 then 360 / count else 0
  }

  /** All iterations of one command: the angle advances by the integer quotient 360 / count. */
  function Plan(count: int, start: int, base: string, format: string, single: string): (r: seq<Step>)
    ensures |r| == if count >= 1 then count else 0
  {
    Steps(1, count, start, Turn(count), base, format, single)
  }

  /** The next iteration of the loop is iteration i at angle `start`. */
  lemma StepsHead(i: int, count: int, start: int, turn: int, base: string, format: string, single: string)
    requires 1 <= i <= count
    ensures Steps(i, count, start, turn, base, format, single) != []
    ensures Steps(i, count, start, turn, base, format, single)[0] == Step(i, start, count > 1, NameOf(count, i, base, format, single))
  {
  }

  /** After iteration i the loop goes on with iteration i + 1 at the advanced angle. */
  lemma StepsTail(i: int, count: int, start: int, turn: int, base: string, format: string, single: string, next: int, angle: int)
    requires 1 <= i <= count && next == i + 1 && angle == start + turn
    ensures Steps(i, count, start, turn, base, format, single)[1..] == Steps(next, count, angle, turn, base, format, single)
  {
    var r := Steps(i, count, start, turn, base, format, single)[1..];
    var rest := Steps(next, count, angle, turn, base, format, single);
    forall k | 0 <= k < |rest|
      ensures r[k] == rest[k]
    {
      AdvanceAngle(start, turn, k + 1);
    }
  }

  lemma AdvanceAngle(start: int, q: int, k: int)
    ensures start + q + (k - 1) * q == start + k * q
  {
  }

  /**
   * The closed form of the loop: count iterations when count >= 1 and
   * none otherwise; iteration i (counting from 1) turns the table to
   * start + (i - 1) * (360 / count), rotates only when count > 1, and
   * writes the indexed name when count > 1.
   */
  lemma PlanAt(count: int, start: int, base: string, format: string, single: string, i: int)
    ensures 1 <= i <= count ==>
      Plan(count, start, base, format, single)[i - 1]
      == Step(i, start + (i - 1) * (360 / count), count > 1, NameOf(count, i, base, format, single))
  {
  }

  /** With a single shot the loop runs once, at the start angle, without rotating, writing the single-shot name. */
  lemma SingleShot(start: int, base: string, format: string, single: string)
    ensures Plan(1, start, base, format, single) == [Step(1, start, false, single)]
  {
    assert Steps(2, 1, start + 360, 360, base, format, single) == [];
  }

  /** More than 360 shots: the quotient 360 / count is 0 and every shot is taken at the start angle. */
  lemma ManyShotsDoNotTurn(count: int, start: int, base: string, format: string, single: string, i: int)
    requires count > 360 && 1 <= i <= count
    ensures Plan(count, start, base, format, single)[i - 1].angle == start
  {
    PlanAt(count, start, base, format, single, i);
    assert 360 / count == 0;
    assert (i - 1) * (360 / count) == 0;
  }

  lemma IndexedNameInjective(base: string, i: int, j: int, format: string)
    requires IndexedName(base, i, format) == IndexedName(base, j, format)
    ensures i == j
  {
    var a, b := Decimal.Format(i), Decimal.Format(j);
    var ta, tb := a + "." + format, b + "." + format;
    assert IndexedName(base, i, format) == base + ta;
    assert IndexedName(base, j, format) == base + tb;
    assert ta == (base + ta)[|base|..] == (base + tb)[|base|..] == tb;
    assert |a| == |b|;
    assert a == ta[..|a|] == tb[..|b|] == b;
    Decimal.FormatInjective(i, j);
  }

  /** With several shots no two iterations write the same file. */
  lemma NamesDistinct(count: int, start: int, base: string, format: string, single: string, i: int, j: int)
    requires count > 1 && 1 <= i <= count && 1 <= j <= count && i != j
    ensures Plan(count, start, base, format, single)[i - 1].filename
      != Plan(count, start, base, format, single)[j - 1].filename
  {
    PlanAt(count, start, base, format, single, i);
    PlanAt(count, start, base, format, single, j);
    if IndexedName(base, i, format) == IndexedName(base, j, format) {
      IndexedNameInjective(base, i, j, format);
    }
  }
}
