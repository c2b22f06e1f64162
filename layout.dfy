/** The region sizes of the three-row frame and what its middle region shows.

    The window is W columns by H lines. The top row is split into two
    regions and the bottom row into three; whichever region is sized with
    FixSize absorbs the columns lost to integer division, so each row spans
    the whole window. The middle region is W by H - 4: each of the two outer
    rows takes one text line plus one border line. The program's own
    arithmetic clamps nothing, so H - 4 is negative below four lines.
 */
module Layout {
  import GoInt

  /** Go's `fixSize(total, parts)`: the share `total / parts`, plus the
      remainder when the remainder is positive. */
  function FixSize(total: int, parts: int): (r: int)
    requires parts != 0
    ensures GoInt.Quo(total, parts) <= r
    ensures r == GoInt.Quo(total, parts) <==> GoInt.Rem(total, parts) <= 0
    ensures 0 <= total && 0 < parts ==> (parts - 1) * (total / parts) + r == total
  {
    var remainder := GoInt.Rem(total, parts);
    if remainder > 0 then GoInt.Quo(total, parts) + remainder else GoInt.Quo(total, parts)
  }

  /** The two cases of FixSize for a non-negative total: the exact share when
      the split is even, the share plus the remainder otherwise. */
  lemma FixSizeCases(total: int, parts: int)
    requires 0 <= total && 0 < parts
    ensures total % parts == 0 ==> FixSize(total, parts) == total / parts
    ensures total % parts != 0 ==> FixSize(total, parts) == total / parts + total % parts
    ensures FixSize(total, parts) > total / parts <==> total % parts != 0
  {
  }

  /** The sizes behind the middle region's report once the work is done:
      the window's height and width, and the height of the middle region and
      the widths of the top-left, middle and bottom-left regions as they are
      handed to the renderer. The program prints what the renderer's getters
      give back for the last four, which this model does not cover. */
  datatype SizeReport = SizeReport(
    windowHeight: int,
    windowWidth: int,
    middleHeight: int,
    topWidth: int,
    middleWidth: int,
    bottomWidth: int)

  /** The middle region's content: the spinner's glyph around the status
      phrase while busy, the instruction phrase with the size report after. */
  datatype Content<S> = Working(glyph: S) | Instructions(report: SizeReport)

  /** One rendered frame reduced to its region sizes and its middle content;
      the labels, borders and alignment are the renderer's. */
  datatype Frame<S> = Frame(
    topLeft: int,
    topRight: int,
    bottomLeft: int,
    bottomCenter: int,
    bottomRight: int,
    middleWidth: int,
    middleHeight: int,
    content: Content<S>)

  /** The program's `View` for a window of `height` by `width`, with
      `glyph` the spinner's current state. */
  function Render<S>(busy: bool, glyph: S, height: int, width: int): (f: Frame<S>)
    ensures 0 <= width ==> f.topLeft + f.topRight == width
    ensures 0 <= width ==> 0 <= f.topLeft - f.topRight <= 1
    ensures 0 <= width ==> f.bottomLeft + f.bottomCenter + f.bottomRight == width
    ensures 0 <= width ==> f.bottomLeft == f.bottomCenter && 0 <= f.bottomRight - f.bottomCenter <= 2
    ensures f.middleWidth == width && f.middleHeight == height - 4
    ensures f.content.Working? <==> busy
    ensures busy ==> f.content.glyph == glyph
    ensures !busy ==>
              f.content.report == SizeReport(height, width, f.middleHeight, f.topLeft, f.middleWidth, f.bottomLeft)
  {
    var topLeft := FixSize(width, 2);
    var bottomLeft := GoInt.Quo(width, 3);
    var middleHeight := height - 4;
    Frame(
      topLeft,
      GoInt.Quo(width, 2),
      bottomLeft,
      GoInt.Quo(width, 3),
      FixSize(width, 3),
      width,
      middleHeight,
      if busy then Working(glyph)
      else Instructions(SizeReport(height, width, middleHeight, topLeft, width, bottomLeft)))
  }

  /** A window shorter than four lines gives the middle region a negative
      height, and a window of exactly four lines an empty one. */
  lemma SmallWindow<S>(busy: bool, glyph: S, height: int, width: int)
    requires height <= 4
    ensures Render(busy, glyph, height, width).middleHeight <= 0
    ensures Render(busy, glyph, height, width).middleHeight < 0 <==> height < 4
  {
  }
}
