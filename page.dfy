/**
 * The page geometry of the bulletin PDF, the drawing log that stands for the
 * jsPDF document, and the cursor primitives every block of an act is built
 * from: a page break that redraws the header, `ensureSpace`, drawing one text
 * at the cursor, moving the cursor down, and the line-by-line text flow.
 *
 * Lengths are integers in tenths of a millimetre, so the source's 27.8 mm
 * header is 278 and `fontSize * 0.5` mm is `5 * fontSize`.
 */
module Page {

  /** The paper format of the request: "legal" selects Legal, anything else A4. */
  datatype Format = A4 | Legal

  function FormatOf(formato: string): Format {
    if formato == "legal" then Legal else A4
  }

  const MARGIN: int := 200
  const HEADER_HEIGHT: int := 278
  const FOOTER_HEIGHT: int := 250

  /** Where the cursor stands on a fresh content page: below the margin and the header band. */
  const TOP: int := MARGIN + HEADER_HEIGHT

  /** A4 is 210 x 297 mm; Legal is 215.9 x 355.6 mm. */
  function PageHeight(f: Format): int {
    if f == Legal then 3556 else 2970
  }

  function PageWidth(f: Format): int {
    if f == Legal then 2159 else 2100
  }

  /** `pageHeight - margin - footerHeight`: the lowest cursor position the page-break tests allow. */
  function Limit(f: Format): (r: int)
    ensures r - TOP >= 2000
  {
    PageHeight(f) - MARGIN - FOOTER_HEIGHT
  }

  /** `pageWidth - 2 * margin`: the wrapping width of full-width text. */
  function ContentWidth(f: Format): (r: int)
    ensures r > 0
  {
    PageWidth(f) - 2 * MARGIN
  }

  /** A Helvetica font setting. */
  datatype Font = Font(size: nat, bold: bool)

  /**
   * jsPDF's font metrics, left uninterpreted: `splitTextToSize(text, width)`
   * under a font, and `getTextWidth(text)` under a font (in tenths of a mm).
   */
  datatype Metrics = Metrics(wrap: (string, Font, int) -> seq<string>, width: (string, Font) -> int)

  /** Where a text is anchored horizontally. */
  datatype Anchor =
    | At(x: int)        // left edge at x
    | RightAligned      // right edge at `pageWidth - margin`
    | Centered          // centred on the page

  /** What the document records, in drawing order. Colours, rules under texts and images are not recorded. */
  datatype Item =
    | Header(page: nat)                                   // the blue header band of a content page
    | Text(page: nat, y: int, anchor: Anchor, s: string)   // one text at baseline y
    | Rule(page: nat, y: int)                              // the separator between two acts
    | Footer(page: nat, number: nat)                       // the footer band with its page number

  /** The document under construction: the page count (the current page is the last one), the cursor and the log. */
  datatype State = State(pages: nat, y: int, log: seq<Item>)

  /** `pdf.addPage(); currentY = margin + headerHeight; drawHeader()`. */
  function NewPage(st: State): State {
    State(st.pages + 1, TOP, st.log + [Header(st.pages + 1)])
  }

  /**
   * `ensureSpace(h)`: a new page when `currentY + h` passes the limit. Afterwards
   * there is room for `h` below the cursor whenever `h` fits on a fresh page,
   * and at most one page has been added.
   */
  function EnsureSpace(f: Format, st: State, h: int): (r: State)
    ensures h <= Limit(f) - TOP ==> r.y + h <= Limit(f)
    ensures r.pages == st.pages || (r.pages == st.pages + 1 && r.y == TOP)
    ensures r.log == st.log || r.log == st.log + [Header(st.pages + 1)]
  {
    if st.y + h > Limit(f) then NewPage(st) else st
  }

  /** `pdf.text(s, x, currentY)` on the current page. */
  function Put(st: State, a: Anchor, s: string): State {
    st.(log := st.log + [Text(st.pages, st.y, a, s)])
  }

  /** `currentY += d`. */
  function Down(st: State, d: int): State {
    st.(y := st.y + d)
  }

  // ---------------------------------------------------------------- what the log shows

  /** The strings of the texts of a log, in drawing order. */
  function Texts(log: seq<Item>): seq<string>
  {
    if log == [] then []
    else Texts(log[..|log| - 1]) + (if log[|log| - 1].Text? then [log[|log| - 1].s] else [])
  }

  lemma {:induction false} TextsAppend(a: seq<Item>, b: seq<Item>)
    ensures Texts(a + b) == Texts(a) + Texts(b)
    decreases |b|
  {
    if b == [] {
      assert a + b == a;
    } else {
      var n := |b| - 1;
      assert (a + b)[..|a + b| - 1] == a + b[..n];
      TextsAppend(a, b[..n]);
    }
  }

  /** Every text drawn from position `from` of the log on stands at or above baseline `bottom`. */
  predicate TextsAbove(log: seq<Item>, from: nat, bottom: int) {
    forall k :: from <= k < |log| ==> (log[k].Text? ==> log[k].y <= bottom)
  }

  // ---------------------------------------------------------------- text flow

  /**
   * The page-break test of a wrapped-line loop: none (the same-line loops of
   * VISTO, the bullets and the first article line), or a break before a line
   * when `currentY + reserve` passes the limit (`addText` and the CONSIDERANDO
   * paragraph with reserve 0, the title with reserve 10 mm).
   */
  datatype LineCheck = Unchecked | BreakBefore(reserve: int)

  /** The first wrapped line starts at `firstX`, the others at the margin. */
  function LineAnchor(i: nat, firstX: int): Anchor {
    if i == 0 then At(firstX) else At(MARGIN)
  }

  /** One wrapped line: the break test, the text, then the cursor moves down by `adv`. */
  function Line(f: Format, st: State, s: string, a: Anchor, adv: int, check: LineCheck): State {
    var s0 := match check
      case Unchecked => st
      case BreakBefore(reserve) => EnsureSpace(f, st, reserve);
    Down(Put(s0, a, s), adv)
  }

  /** `lines.forEach((line, index) => …)`: the lines drawn one after another. */
  function Flow(f: Format, st: State, lines: seq<string>, firstX: int, adv: int, check: LineCheck): State
    decreases |lines|
  {
    if lines == [] then st
    else
      var n := |lines| - 1;
      Line(f, Flow(f, st, lines[..n], firstX, adv, check), lines[n], LineAnchor(n, firstX), adv, check)
  }

  /** A log that grows by one item shows one more text exactly when that item is a text. */
  lemma TextsSnoc(log: seq<Item>, x: Item)
    ensures Texts(log + [x]) == Texts(log) + (if x.Text? then [x.s] else [])
  {
    assert (log + [x])[..|log|] == log;
  }

  /** One line appends its text to the log, after at most one page break and its header. */
  lemma LineTexts(f: Format, st: State, s: string, a: Anchor, adv: int, check: LineCheck)
    ensures var r := Line(f, st, s, a, adv, check);
      st.log < r.log && Texts(r.log) == Texts(st.log) + [s] && st.pages <= r.pages <= st.pages + 1
  {
    var s0 := match check
      case Unchecked => st
      case BreakBefore(reserve) => EnsureSpace(f, st, reserve);
    var t := Text(s0.pages, s0.y, a, s);
    TextsSnoc(s0.log, t);
    if s0.log != st.log {
      TextsSnoc(st.log, Header(st.pages + 1));
    }
  }

  /** A flow of one more line is the shorter flow followed by that line. */
  lemma FlowStep(f: Format, st: State, lines: seq<string>, firstX: int, adv: int, check: LineCheck)
    requires lines != []
    ensures var n := |lines| - 1;
      Flow(f, st, lines, firstX, adv, check)
        == Line(f, Flow(f, st, lines[..n], firstX, adv, check), lines[n], LineAnchor(n, firstX), adv, check)
  {
  }

  /** Appending the last line to the texts of the others gives all the lines. */
  lemma AppendLast(t0: seq<string>, t1: seq<string>, t2: seq<string>, lines: seq<string>)
    requires lines != []
    requires t1 == t0 + lines[..|lines| - 1] && t2 == t1 + [lines[|lines| - 1]]
    ensures t2 == t0 + lines
  {
    assert lines[..|lines| - 1] + [lines[|lines| - 1]] == lines;
  }

  /** One line only appends to the log. */
  lemma LineGrows(f: Format, st: State, s: string, a: Anchor, adv: int, check: LineCheck)
    ensures st.log <= Line(f, st, s, a, adv, check).log
  {
  }

  /** The log of the flow of the first `k` lines is a prefix of the log of the whole flow. */
  lemma {:induction false} FlowPrefix(f: Format, st: State, lines: seq<string>, k: nat, firstX: int, adv: int, check: LineCheck)
    requires k <= |lines|
    ensures Flow(f, st, lines[..k], firstX, adv, check).log <= Flow(f, st, lines, firstX, adv, check).log
    decreases |lines| - k
  {
    if k < |lines| {
      var n := |lines| - 1;
      var p := Flow(f, st, lines[..n], firstX, adv, check);
      FlowStep(f, st, lines, firstX, adv, check);
      LineGrows(f, p, lines[n], LineAnchor(n, firstX), adv, check);
      FlowPrefix(f, st, lines[..n], k, firstX, adv, check);
      assert lines[..n][..k] == lines[..k];
    } else {
      assert lines[..k] == lines;
    }
  }

  /** A flow only appends to the log, and the texts it appends are the lines, all of them, in order. */
  lemma {:induction false} FlowTexts(f: Format, st: State, lines: seq<string>, firstX: int, adv: int, check: LineCheck)
    ensures var r := Flow(f, st, lines, firstX, adv, check);
      st.log <= r.log && Texts(r.log) == Texts(st.log) + lines && st.pages <= r.pages
    decreases |lines|
  {
    if lines != [] {
      var n := |lines| - 1;
      var p := Flow(f, st, lines[..n], firstX, adv, check);
      var r := Flow(f, st, lines, firstX, adv, check);
      FlowTexts(f, st, lines[..n], firstX, adv, check);
      FlowStep(f, st, lines, firstX, adv, check);
      LineTexts(f, p, lines[n], LineAnchor(n, firstX), adv, check);
      AppendLast(Texts(st.log), Texts(p.log), Texts(r.log), lines);
    }
  }

  /**
   * Where a flow without a page-break test puts its lines: all on the current
   * page, line i at `y + i * adv`, whatever the limit. The cursor ends
   * `|lines| * adv` lower.
   */
  function Placed(page: nat, y: int, lines: seq<string>, firstX: int, adv: int): (r: seq<Item>)
    ensures |r| == |lines|
    decreases |lines|
  {
    if lines == [] then []
    else
      var n := |lines| - 1;
      Placed(page, y, lines[..n], firstX, adv) + [Text(page, y + n * adv, LineAnchor(n, firstX), lines[n])]
  }

  /** The same-line loops never break a page: they are `Placed` on the current page. */
  lemma {:induction false} FlowUnchecked(f: Format, st: State, lines: seq<string>, firstX: int, adv: int)
    ensures Flow(f, st, lines, firstX, adv, Unchecked)
      == State(st.pages, st.y + |lines| * adv, st.log + Placed(st.pages, st.y, lines, firstX, adv))
    decreases |lines|
  {
    if lines != [] {
      var n := |lines| - 1;
      FlowUnchecked(f, st, lines[..n], firstX, adv);
    }
  }

  /**
   * With a page-break test that reserves `reserve`, every line the flow draws
   * stands at least `reserve` above the limit, and each line adds at most one page.
   */
  lemma {:induction false} FlowChecked(f: Format, st: State, lines: seq<string>, firstX: int, adv: int, reserve: int)
    requires 0 <= reserve <= Limit(f) - TOP
    ensures var r := Flow(f, st, lines, firstX, adv, BreakBefore(reserve));
      |st.log| <= |r.log| && TextsAbove(r.log, |st.log|, Limit(f) - reserve)
      && st.pages <= r.pages <= st.pages + |lines|
    decreases |lines|
  {
    if lines != [] {
      var n := |lines| - 1;
      var p := Flow(f, st, lines[..n], firstX, adv, BreakBefore(reserve));
      FlowChecked(f, st, lines[..n], firstX, adv, reserve);
      var s0 := EnsureSpace(f, p, reserve);
      var r := Flow(f, st, lines, firstX, adv, BreakBefore(reserve));
      assert r.log == s0.log + [Text(s0.pages, s0.y, LineAnchor(n, firstX), lines[n])];
      assert forall k :: |st.log| <= k < |p.log| ==> r.log[k] == p.log[k];
    }
  }
}
