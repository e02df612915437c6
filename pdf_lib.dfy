/**
 * The part of pdf-lib the court-form generator uses: a page of fixed size to
 * which text, rectangles and lines are appended. Fonts, colours and the PDF
 * byte encoding are not modelled; a draw keeps its position, size and whether
 * the bold font was used.
 */
module PdfLib {

  datatype Draw =
    | Text(text: string, x: int, y: int, size: int, bold: bool)
    | Rect(x: int, y: int, w: int, h: int, filled: bool)   // filled: colour fill; otherwise a border only
    | Line(x1: int, y1: int, x2: int, y2: int)

  /** The vertical position of a draw (a line's start). */
  function YOf(d: Draw): int {
    match d
    case Text(_, _, y, _, _) => y
    case Rect(_, y, _, _, _) => y
    case Line(_, y1, _, _) => y1
  }

  /** Each draw is placed no higher on the page than the one drawn before it. */
  predicate Descending(ds: seq<Draw>) {
    |ds| <= 1 || (YOf(ds[1]) <= YOf(ds[0]) && Descending(ds[1..]))
  }

  /** Descending, with every draw between `hi` and `lo` (inclusive). */
  predicate Span(ds: seq<Draw>, hi: int, lo: int) {
    ds == [] || (lo <= YOf(ds[0]) <= hi && Span(ds[1..], YOf(ds[0]), lo))
  }

  /** A draw on top of a span that starts no higher than it. */
  lemma SpanCons(d: Draw, ds: seq<Draw>, hi: int, lo: int)
    requires lo <= YOf(d) <= hi && Span(ds, YOf(d), lo)
    ensures Span([d] + ds, hi, lo)
  {
    assert ([d] + ds)[1..] == ds;
  }

  /** A single draw between the bounds. */
  lemma SpanSingle(d: Draw, hi: int, lo: int)
    requires lo <= YOf(d) <= hi
    ensures Span([d], hi, lo)
  {
  }

  /** In a descending list, no later draw is above an earlier one. */
  lemma {:induction false} DescendingPairs(ds: seq<Draw>)
    requires Descending(ds)
    ensures forall i, j :: 0 <= i < j < |ds| ==> YOf(ds[j]) <= YOf(ds[i])
  {
    if |ds| > 1 {
      DescendingPairs(ds[1..]);
      forall i, j | 0 <= i < j < |ds| ensures YOf(ds[j]) <= YOf(ds[i]) {
        if i > 0 {
          assert ds[i] == ds[1..][i - 1] && ds[j] == ds[1..][j - 1];
        } else if j > 1 {
          assert ds[j] == ds[1..][j - 1] && ds[1] == ds[1..][0];
        }
      }
    }
  }

  /** A span descends and lies within its bounds. */
  lemma {:induction false} SpanMeaning(ds: seq<Draw>, hi: int, lo: int)
    requires Span(ds, hi, lo)
    ensures Descending(ds)
    ensures forall i :: 0 <= i < |ds| ==> lo <= YOf(ds[i]) <= hi
  {
    if ds != [] {
      SpanMeaning(ds[1..], YOf(ds[0]), lo);
      forall i | 0 < i < |ds| ensures lo <= YOf(ds[i]) <= hi {
        assert ds[i] == ds[1..][i - 1];
      }
    }
  }

  /** A span stays a span inside wider bounds. */
  lemma {:induction false} SpanWiden(ds: seq<Draw>, hi: int, lo: int, hi': int, lo': int)
    requires Span(ds, hi, lo) && hi <= hi' && lo' <= lo
    ensures Span(ds, hi', lo')
  {
    if ds != [] {
      SpanWiden(ds[1..], YOf(ds[0]), lo, YOf(ds[0]), lo');
    }
  }

  /** Two spans, one above the other, form one span. */
  lemma {:induction false} SpanConcat(a: seq<Draw>, b: seq<Draw>, hi: int, mid: int, lo: int)
    requires Span(a, hi, mid) && Span(b, mid, lo) && lo <= mid <= hi
    ensures Span(a + b, hi, lo)
  {
    if a == [] {
      assert a + b == b;
      SpanWiden(b, mid, lo, hi, lo);
    } else {
      SpanConcat(a[1..], b, YOf(a[0]), mid, lo);
      assert (a + b)[1..] == a[1..] + b;
    }
  }

  /** Four spans, each above the next, form one span. */
  lemma SpanConcat4(a: seq<Draw>, b: seq<Draw>, c: seq<Draw>, d: seq<Draw>, hi: int, m1: int, m2: int, m3: int, lo: int)
    requires Span(a, hi, m1) && Span(b, m1, m2) && Span(c, m2, m3) && Span(d, m3, lo)
    requires lo <= m3 <= m2 <= m1 <= hi
    ensures Span(a + b + c + d, hi, lo)
  {
    SpanConcat(a, b, hi, m1, m2);
    SpanConcat(a + b, c, hi, m2, m3);
    SpanConcat(a + b + c, d, hi, m3, lo);
  }

  /** `PDFPage`: its size and everything drawn on it so far, in order. */
  class Page {
    const width: int
    const height: int
    var draws: seq<Draw>

    /** `pdfDoc.addPage([width, height])`: an empty page. */
    constructor(width: int, height: int)
      ensures this.width == width && this.height == height
      ensures draws == []
    {
      this.width := width;
      this.height := height;
      draws := [];
    }

    method DrawText(text: string, x: int, y: int, size: int, bold: bool)
      modifies this`draws
      ensures draws == old(draws) + [Text(text, x, y, size, bold)]
    {
      draws := draws + [Text(text, x, y, size, bold)];
    }

    method DrawRectangle(x: int, y: int, w: int, h: int, filled: bool)
      modifies this`draws
      ensures draws == old(draws) + [Rect(x, y, w, h, filled)]
    {
      draws := draws + [Rect(x, y, w, h, filled)];
    }

    method DrawLine(x1: int, y1: int, x2: int, y2: int)
      modifies this`draws
      ensures draws == old(draws) + [Line(x1, y1, x2, y2)]
    {
      draws := draws + [Line(x1, y1, x2, y2)];
    }
  }
}
