/**
 * The byte shuffle `cmd_image` runs over the picked-up colour image just
 * before it hands the buffer to the TIFF strip writer. The buffer holds
 * four bytes per pixel; within each group, byte 0 receives a copy of
 * byte 3 (the source copies, it does not swap), bytes 1 and 2 are
 * exchanged, and byte 3 is left as it was: (A, B, C, D) becomes (D, C, B, D).
 */
module Pixels {
  /** The transform of one 4-byte group. */
  function Group(a: bv8, b: bv8, c: bv8, d: bv8): seq<bv8> {
    [d, c, b, d]
  }

  /** The reference definition: the buffer, group by group. */
  function Swizzle(s: seq<bv8>): (r: seq<bv8>)
    requires |s| % 4 == 0
    ensures |r| == |s|
    decreases |s|
  {
    if |s| == 0 then [] else Group(s[0], s[1], s[2], s[3]) + Swizzle(s[4..])
  }

  /** Every byte of the result, by its position within its group. */
  lemma {:induction false} SwizzleAt(s: seq<bv8>, g: nat)
    requires |s| % 4 == 0 && 4 * g + 3 < |s|
    ensures Swizzle(s)[4 * g] == s[4 * g + 3]
    ensures Swizzle(s)[4 * g + 1] == s[4 * g + 2]
    ensures Swizzle(s)[4 * g + 2] == s[4 * g + 1]
    ensures Swizzle(s)[4 * g + 3] == s[4 * g + 3]
    decreases g
  {
    if g > 0 {
      SwizzleAt(s[4..], g - 1);
      assert Swizzle(s) == Group(s[0], s[1], s[2], s[3]) + Swizzle(s[4..]);
    }
  }

  /** Groups are transformed independently: the transform distributes over concatenation. */
  lemma {:induction false} SwizzleAppend(a: seq<bv8>, b: seq<bv8>)
    requires |a| % 4 == 0 && |b| % 4 == 0
    ensures Swizzle(a + b) == Swizzle(a) + Swizzle(b)
    decreases |a|
  {
    if |a| == 0 {
      assert a + b == b;
    } else {
      var ab := a + b;
      var g := Group(a[0], a[1], a[2], a[3]);
      assert ab[4..] == a[4..] + b;
      assert ab[0] == a[0] && ab[1] == a[1] && ab[2] == a[2] && ab[3] == a[3];
      assert Swizzle(ab) == g + Swizzle(a[4..] + b);
      SwizzleAppend(a[4..], b);
      assert Swizzle(a) == g + Swizzle(a[4..]);
      Associative(g, Swizzle(a[4..]), Swizzle(b));
    }
  }

  lemma Associative(x: seq<bv8>, y: seq<bv8>, z: seq<bv8>)
    ensures x + (y + z) == (x + y) + z
  {
  }

  /**
   * The transform is not a permutation: byte 0 of every group is lost, so
   * two buffers that differ only there give the same result.
   */
  lemma LosesFirstByte(a: bv8, a': bv8, b: bv8, c: bv8, d: bv8)
    ensures Swizzle([a, b, c, d]) == Swizzle([a', b, c, d]) == [d, c, b, d]
  {
    assert Swizzle([a, b, c, d]) == Group(a, b, c, d) + Swizzle([]);
    assert Swizzle([a', b, c, d]) == Group(a', b, c, d) + Swizzle([]);
  }

  /** Applied three times the transform is the same as applied once (bytes 1 and 2 swap back and forth). */
  lemma {:induction false} SwizzleThrice(s: seq<bv8>)
    requires |s| % 4 == 0
    ensures Swizzle(Swizzle(Swizzle(s))) == Swizzle(s)
    decreases |s|
  {
    if |s| > 0 {
      var t := Swizzle(s);
      var u := Swizzle(t);
      SwizzleThrice(s[4..]);
      assert t == Group(s[0], s[1], s[2], s[3]) + Swizzle(s[4..]);
      assert t[4..] == Swizzle(s[4..]);
      assert u == Group(t[0], t[1], t[2], t[3]) + Swizzle(Swizzle(s[4..]));
      assert u[4..] == Swizzle(Swizzle(s[4..]));
    }
  }

  /** The body of the loop of `cmd_image`: one group, through the pointer `bufptr` at offset `j`. */
  method ShuffleGroup(pixels: array<bv8>, j: nat)
    requires j + 4 <= pixels.Length
    modifies pixels
    ensures pixels[j] == old(pixels[j + 3]) && pixels[j + 1] == old(pixels[j + 2])
    ensures pixels[j + 2] == old(pixels[j + 1]) && pixels[j + 3] == old(pixels[j + 3])
    ensures forall k :: 0 <= k < pixels.Length && !(j <= k < j + 4) ==> pixels[k] == old(pixels[k])
  {
    pixels[j] := pixels[j + 3];
    var tmp := pixels[j + 1];
    pixels[j + 1] := pixels[j + 2];
    pixels[j + 2] := tmp;
  }

  /** Group h of the buffer `a` holds the transform of group h of `s`. */
  predicate GroupDone(a: array<bv8>, s: seq<bv8>, h: nat)
    reads a
    requires 4 * h + 3 < a.Length && 4 * h + 3 < |s|
  {
    a[4 * h] == s[4 * h + 3] && a[4 * h + 1] == s[4 * h + 2] && a[4 * h + 2] == s[4 * h + 1] && a[4 * h + 3] == s[4 * h + 3]
  }

  /** A buffer whose every group holds the transform of the same group of `s` holds `Swizzle(s)`. */
  lemma AllGroupsDone(a: array<bv8>, s: seq<bv8>)
    requires a.Length == |s| && |s| % 4 == 0
    requires forall h :: 0 <= h < |s| / 4 ==> GroupDone(a, s, h)
    ensures a[..] == Swizzle(s)
  {
    forall k | 0 <= k < |s|
      ensures a[k] == Swizzle(s)[k]
    {
      var h := k / 4;
      assert 4 * h <= k < 4 * h + 4 && h < |s| / 4;
      ByteDone(a, s, h, k);
    }
  }

  lemma ByteDone(a: array<bv8>, s: seq<bv8>, h: nat, k: int)
    requires a.Length == |s| && |s| % 4 == 0 && 4 * h <= k < 4 * h + 4 && 4 * h + 3 < |s|
    requires GroupDone(a, s, h)
    ensures a[k] == Swizzle(s)[k]
  {
    SwizzleAt(s, h);
    var g := 4 * h;
    if k == g {
    } else if k == g + 1 {
    } else if k == g + 2 {
    } else {
      assert k == g + 3;
    }
  }

  /**
   * The loop of `cmd_image`, in place over the pixel buffer of
   * `width * height` four-byte pixels.
   */
  method SwizzleInPlace(pixels: array<bv8>, width: nat, height: nat)
    requires pixels.Length == width * height * 4
    modifies pixels
    ensures pixels.Length % 4 == 0
    ensures pixels[..] == Swizzle(old(pixels[..]))
  {
    var buflen := width * height * 4;
    ghost var orig := pixels[..];
    var j := 0;
    ghost var g := 0;
    while j < buflen
      invariant 0 <= j <= buflen && j == 4 * g
      invariant forall h :: 0 <= h < g ==> GroupDone(pixels, orig, h)
      invariant forall k :: j <= k < buflen ==> pixels[k] == orig[k]
    {
      label before:
      ShuffleGroup(pixels, j);
      forall h | 0 <= h <= g
        ensures GroupDone(pixels, orig, h)
      {
        if h < g {
          assert old@before(GroupDone(pixels, orig, h));
          assert 4 * h + 3 < j;
        }
      }
      j := j + 4;
      g := g + 1;
    }
    AllGroupsDone(pixels, orig);
  }
}
