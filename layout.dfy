/**
 * The blocks of one act, as the PDF route draws them: dateline, heading,
 * title, VISTO, CONSIDERANDO, the "POR ELLO" transition, the articles and the
 * closing formula. Each block is a function from the document state before it
 * to the state after it; `Render` draws the same blocks step by step.
 */
module Layout {
  import opened Strings
  import opened Acts
  import opened Classify
  import opened Page

  /** `addText(text, size, bold)`: wrapped to the content width, a page break before any line below the limit. */
  function AddText(f: Format, m: Metrics, st: State, text: string, size: nat, bold: bool): State {
    Flow(f, st, m.wrap(text, Font(size, bold), ContentWidth(f)), MARGIN, 5 * size, BreakBefore(0))
  }

  /** The dateline, right-aligned, drawn before `ensureSpace(12)`; then 12 mm down. */
  function DatelineBlock(f: Format, st: State, dateline: string): State {
    Down(EnsureSpace(f, Put(st, RightAligned, dateline), 120), 120)
  }

  /** The act heading at the margin, then 12 mm down; no page-break test. */
  function HeadingBlock(st: State, heading: string): State {
    Down(Put(st, At(MARGIN), heading), 120)
  }

  /**
   * The title, upper-cased and trimmed, wrapped while the heading's 14 pt bold
   * font is still set; each line after `ensureSpace(10)`, 6 mm apart; then 8 mm down.
   */
  function TitleLines(f: Format, m: Metrics, a: Resolucion): seq<string> {
    m.wrap(Trim(ToUpper(a.titulo)), Font(14, true), ContentWidth(f))
  }

  function TitleBlock(f: Format, st: State, lines: seq<string>): State {
    Down(Flow(f, st, lines, MARGIN, 60, BreakBefore(100)), 80)
  }

  // ---------------------------------------------------------------- VISTO

  const VISTO_LABEL: string := "VISTO:"

  /** Where a text continuing on a label's line starts: 2 mm after the label. */
  function AfterLabel(m: Metrics, caption: string, font: Font): int {
    MARGIN + m.width(caption, font) + 20
  }

  /** The lines of an inline VISTO text: wrapped to what is left of the label's line. */
  function VistoInlineLines(f: Format, m: Metrics, texto: string): seq<string> {
    var startX := AfterLabel(m, VISTO_LABEL, Font(11, true));
    m.wrap(texto, Font(11, false), PageWidth(f) - MARGIN - startX)
  }

  /** The VISTO paragraph after its label: on the label's line, or 6 mm lower through `addText` at 10 pt. */
  function VistoText(f: Format, m: Metrics, st: State, texto: string): State {
    if VistoInline(texto) then
      Flow(f, st, VistoInlineLines(f, m, texto), AfterLabel(m, VISTO_LABEL, Font(11, true)), 50, Unchecked)
    else
      AddText(f, m, Down(st, 60), texto, 10, false)
  }

  /** The VISTO block, when the act has one: `ensureSpace(14)`, the label, the text, 6 mm down. */
  function VistoBlock(f: Format, m: Metrics, st: State, visto: string): State {
    if visto == [] then st
    else
      var s1 := Put(EnsureSpace(f, st, 140), At(MARGIN), VISTO_LABEL);
      Down(VistoText(f, m, s1, Trim(visto)), 60)
  }

  // ---------------------------------------------------------------- CONSIDERANDO

  const CONSIDERANDO_LABEL: string := "CONSIDERANDO:"
  const BULLET_MARK: string := "• "

  /** Where an item's lines start: 1 mm after the bullet mark. */
  function BulletX(m: Metrics): int {
    MARGIN + m.width(BULLET_MARK, Font(10, false)) + 10
  }

  /** The wrapped lines of one bullet item, to the right of the mark. */
  function BulletLines(f: Format, m: Metrics, item: string): seq<string> {
    m.wrap(item, Font(10, false), PageWidth(f) - MARGIN - BulletX(m))
  }

  /** One bullet: `ensureSpace(12)`, the mark, the item's lines beside it without a break test, 3 mm down. */
  function BulletBlock(f: Format, m: Metrics, st: State, item: string): State {
    var s1 := Put(EnsureSpace(f, st, 120), At(MARGIN), BULLET_MARK);
    Down(Flow(f, s1, BulletLines(f, m, item), BulletX(m), 50, Unchecked), 30)
  }

  /** `items.forEach(…)`: the bullets one after another. */
  function Bullets(f: Format, m: Metrics, st: State, items: seq<string>): State
    decreases |items|
  {
    if items == [] then st
    else BulletBlock(f, m, Bullets(f, m, st, items[..|items| - 1]), items[|items| - 1])
  }

  /** The lines of a CONSIDERANDO paragraph without bullets, continuing the label's line. */
  function ConsiderandoLines(f: Format, m: Metrics, texto: string): seq<string> {
    var startX := AfterLabel(m, CONSIDERANDO_LABEL, Font(11, true));
    m.wrap(texto, Font(11, false), PageWidth(f) - MARGIN - startX)
  }

  /** The CONSIDERANDO text after its label: a paragraph with a break test per line, or the bullet list 6 mm lower. */
  function ConsiderandoText(f: Format, m: Metrics, st: State, texto: string): State {
    if !HasBullets(texto) then
      Flow(f, st, ConsiderandoLines(f, m, texto), AfterLabel(m, CONSIDERANDO_LABEL, Font(11, true)), 50, BreakBefore(0))
    else
      Bullets(f, m, Down(st, 60), BulletItems(texto))
  }

  /** The CONSIDERANDO block, when the act has one: `ensureSpace(16)`, the label, the text, 4 mm down. */
  function ConsiderandoBlock(f: Format, m: Metrics, st: State, considerando: string): State {
    if considerando == [] then st
    else
      var s1 := Put(EnsureSpace(f, st, 160), At(MARGIN), CONSIDERANDO_LABEL);
      Down(ConsiderandoText(f, m, s1, Trim(considerando)), 40)
  }

  // ---------------------------------------------------------------- transition

  const POR_ELLO: string := "POR ELLO,"
  const INTENDENTE: string := "EL INTENDENTE MUNICIPAL DE SAN ISIDRO"

  /** A new page unless 40 mm remain, then "POR ELLO,", the mayor's line and the verb, centred. */
  function TransitionBlock(f: Format, st: State, verb: string): State {
    var s0 := EnsureSpace(f, st, 400);
    var s1 := Down(Put(Down(s0, 100), At(MARGIN), POR_ELLO), 120);
    var s2 := Down(Put(s1, Centered, INTENDENTE), 100);
    Down(Put(s2, Centered, verb), 140)
  }

  // ---------------------------------------------------------------- articles

  /** One body line after the first: a sub-item gets 2 mm before and 4 mm after, any other line 3 mm after. */
  function BodyLine(f: Format, m: Metrics, st: State, linea: string): State {
    if IsSubItem(linea) then Down(AddText(f, m, Down(st, 20), linea, 10, false), 40)
    else Down(AddText(f, m, st, linea, 10, false), 30)
  }

  function BodyLines(f: Format, m: Metrics, st: State, lineas: seq<string>): State
    decreases |lineas|
  {
    if lineas == [] then st
    else BodyLine(f, m, BodyLines(f, m, st, lineas[..|lineas| - 1]), lineas[|lineas| - 1])
  }

  /** Where the first body line starts: after the heading as measured in the normal font, plus 2 mm. */
  function FirstLineX(m: Metrics, heading: string): int {
    AfterLabel(m, heading, Font(10, false))
  }

  /** The wrapped pieces of the first body line, beside the heading, without a break test. */
  function FirstLines(f: Format, m: Metrics, heading: string, first: string): seq<string> {
    m.wrap(first, Font(10, false), PageWidth(f) - MARGIN - FirstLineX(m, heading))
  }

  /** A heading followed by the body's lines: the first beside it, the rest below. */
  function ArticleBody(f: Format, m: Metrics, st: State, heading: string, lineas: seq<string>): State {
    var s1 := Put(st, At(MARGIN), heading);
    if lineas == [] then s1
    else BodyLines(f, m, Flow(f, s1, FirstLines(f, m, heading, lineas[0]), FirstLineX(m, heading), 50, Unchecked), lineas[1..])
  }

  /** One classified article: `ensureSpace(6)`, then a plain paragraph or a heading with its body; 4 mm down. */
  function ArticleBlock(f: Format, m: Metrics, st: State, c: ArticleText): State {
    var s0 := EnsureSpace(f, st, 60);
    match c
    case Unstructured(t) => Down(AddText(f, m, s0, t, 10, false), 40)
    case Structured(heading, body) => Down(ArticleBody(f, m, s0, heading, ArticleLines(body)), 40)
  }

  /** `articulos.forEach(…)`: each entry classified by the heading regular expression, then drawn. */
  function Articles(f: Format, m: Metrics, st: State, articulos: seq<string>): State
    decreases |articulos|
  {
    if articulos == [] then st
    else ArticleBlock(f, m, Articles(f, m, st, articulos[..|articulos| - 1]), ClassifyArticle(articulos[|articulos| - 1]))
  }

  /** The closing formula, when the act has one: 4 mm down, then upper-cased in bold through `addText`. */
  function CierreBlock(f: Format, m: Metrics, st: State, cierre: string): State {
    if cierre == [] then st else AddText(f, m, Down(st, 40), ToUpper(cierre), 10, true)
  }

  /** The dateline, the heading and the title. */
  function ActOpening(f: Format, m: Metrics, st: State, a: Resolucion): State {
    TitleBlock(f, HeadingBlock(DatelineBlock(f, st, Dateline(a)), ActHeading(a.numero, a.anio)), TitleLines(f, m, a))
  }

  /** VISTO and CONSIDERANDO. */
  function ActGrounds(f: Format, m: Metrics, st: State, a: Resolucion): State {
    ConsiderandoBlock(f, m, VistoBlock(f, m, st, a.visto), a.considerando)
  }

  /** The transition, the articles and the closing formula. */
  function ActDecision(f: Format, m: Metrics, st: State, a: Resolucion): State {
    CierreBlock(f, m, Articles(f, m, TransitionBlock(f, st, TransitionVerb(a.tipo)), a.articulos), a.cierre)
  }

  /** Everything of one act after its section banner and separator. */
  function ActBody(f: Format, m: Metrics, st: State, a: Resolucion): State {
    ActDecision(f, m, ActGrounds(f, m, ActOpening(f, m, st, a), a), a)
  }

  // ---------------------------------------------------------------- what an act shows

  /** The lines `addText` draws for a text: its wrap to the content width. */
  function Wrapped(f: Format, m: Metrics, text: string, size: nat, bold: bool): seq<string> {
    m.wrap(text, Font(size, bold), ContentWidth(f))
  }

  /** The texts of the bullet list, in order: each mark followed by its item's lines. */
  function BulletTexts(f: Format, m: Metrics, items: seq<string>): seq<string>
    decreases |items|
  {
    if items == [] then []
    else BulletTexts(f, m, items[..|items| - 1]) + [BULLET_MARK] + BulletLines(f, m, items[|items| - 1])
  }

  /** The texts of the VISTO block: nothing without a VISTO, else the label and the text's lines. */
  function VistoTexts(f: Format, m: Metrics, visto: string): seq<string> {
    if visto == [] then []
    else
      var texto := Trim(visto);
      [VISTO_LABEL] + (if VistoInline(texto) then VistoInlineLines(f, m, texto) else Wrapped(f, m, texto, 10, false))
  }

  /** The texts of the CONSIDERANDO block: the label, then the paragraph's lines or the bullet list. */
  function ConsiderandoTexts(f: Format, m: Metrics, considerando: string): seq<string> {
    if considerando == [] then []
    else
      var texto := Trim(considerando);
      [CONSIDERANDO_LABEL] + (if !HasBullets(texto) then ConsiderandoLines(f, m, texto) else BulletTexts(f, m, BulletItems(texto)))
  }

  /** The texts of the body lines after the first: each line's wrap, in order. */
  function BodyTexts(f: Format, m: Metrics, lineas: seq<string>): seq<string>
    decreases |lineas|
  {
    if lineas == [] then []
    else BodyTexts(f, m, lineas[..|lineas| - 1]) + Wrapped(f, m, lineas[|lineas| - 1], 10, false)
  }

  /** The texts of one article: a plain paragraph, or the heading, the first line's pieces and the other lines. */
  function ArticleTexts(f: Format, m: Metrics, c: ArticleText): seq<string> {
    match c
    case Unstructured(t) => Wrapped(f, m, t, 10, false)
    case Structured(heading, body) =>
      var lineas := ArticleLines(body);
      [heading] + (if lineas == [] then [] else FirstLines(f, m, heading, lineas[0]) + BodyTexts(f, m, lineas[1..]))
  }

  function ArticlesTexts(f: Format, m: Metrics, articulos: seq<string>): seq<string>
    decreases |articulos|
  {
    if articulos == [] then []
    else ArticlesTexts(f, m, articulos[..|articulos| - 1]) + ArticleTexts(f, m, ClassifyArticle(articulos[|articulos| - 1]))
  }

  function OpeningTexts(f: Format, m: Metrics, a: Resolucion): seq<string> {
    [Dateline(a), ActHeading(a.numero, a.anio)] + TitleLines(f, m, a)
  }

  function GroundsTexts(f: Format, m: Metrics, a: Resolucion): seq<string> {
    VistoTexts(f, m, a.visto) + ConsiderandoTexts(f, m, a.considerando)
  }

  function CierreTexts(f: Format, m: Metrics, cierre: string): seq<string> {
    if cierre == [] then [] else Wrapped(f, m, ToUpper(cierre), 10, true)
  }

  function DecisionTexts(f: Format, m: Metrics, a: Resolucion): seq<string> {
    [POR_ELLO, INTENDENTE, TransitionVerb(a.tipo)] + ArticlesTexts(f, m, a.articulos) + CierreTexts(f, m, a.cierre)
  }

  /** Everything an act shows below its banner, in reading order. */
  function ActTexts(f: Format, m: Metrics, a: Resolucion): seq<string> {
    OpeningTexts(f, m, a) + GroundsTexts(f, m, a) + DecisionTexts(f, m, a)
  }

  /** Going from `before` to `after`, the document shows the texts `t` more, in that order, and has lost no page. */
  predicate Shows(before: State, after: State, t: seq<string>) {
    Texts(after.log) == Texts(before.log) + t && before.pages <= after.pages
  }

  lemma ShowsTrans(s0: State, s1: State, s2: State, t1: seq<string>, t2: seq<string>)
    requires Shows(s0, s1, t1) && Shows(s1, s2, t2)
    ensures Shows(s0, s2, t1 + t2)
  {
  }

  /** A page break adds a header and no text. */
  lemma EnsureSpaceShows(f: Format, st: State, h: int)
    ensures Shows(st, EnsureSpace(f, st, h), [])
  {
    TextsSnoc(st.log, Header(st.pages + 1));
  }

  /** A forced page break adds a header and no text. */
  lemma NewPageShows(st: State)
    ensures Shows(st, NewPage(st), [])
  {
    TextsSnoc(st.log, Header(st.pages + 1));
  }

  lemma PutShows(st: State, a: Anchor, s: string)
    ensures Shows(st, Put(st, a, s), [s])
  {
    TextsSnoc(st.log, Text(st.pages, st.y, a, s));
  }

  lemma FlowShows(f: Format, st: State, lines: seq<string>, firstX: int, adv: int, check: LineCheck)
    ensures Shows(st, Flow(f, st, lines, firstX, adv, check), lines)
  {
    FlowTexts(f, st, lines, firstX, adv, check);
  }

  /** A labelled block starts with its label, after the page-break test. */
  lemma LabelShows(f: Format, st: State, h: int, caption: string)
    ensures Shows(st, Put(EnsureSpace(f, st, h), At(MARGIN), caption), [caption])
  {
    EnsureSpaceShows(f, st, h);
    PutShows(EnsureSpace(f, st, h), At(MARGIN), caption);
  }

  /** The VISTO block shows its label and then its text's lines, on the label's line or below it. */
  lemma VistoShows(f: Format, m: Metrics, st: State, visto: string)
    ensures Shows(st, VistoBlock(f, m, st, visto), VistoTexts(f, m, visto))
  {
    if visto != [] {
      var texto := Trim(visto);
      var s1 := Put(EnsureSpace(f, st, 140), At(MARGIN), VISTO_LABEL);
      LabelShows(f, st, 140, VISTO_LABEL);
      if VistoInline(texto) {
        var lines := VistoInlineLines(f, m, texto);
        var x := AfterLabel(m, VISTO_LABEL, Font(11, true));
        FlowShows(f, s1, lines, x, 50, Unchecked);
        ShowsTrans(st, s1, Flow(f, s1, lines, x, 50, Unchecked), [VISTO_LABEL], lines);
      } else {
        var lines := Wrapped(f, m, texto, 10, false);
        FlowShows(f, Down(s1, 60), lines, MARGIN, 50, BreakBefore(0));
        ShowsTrans(st, Down(s1, 60), Flow(f, Down(s1, 60), lines, MARGIN, 50, BreakBefore(0)), [VISTO_LABEL], lines);
      }
    }
  }

  /**
   * A VISTO text that goes on the label's line stays on the label's page, its
   * first line on the label's baseline just right of the label.
   */
  lemma {:induction false} VistoSameLine(f: Format, m: Metrics, st: State, visto: string)
    requires visto != [] && VistoInline(Trim(visto)) && VistoInlineLines(f, m, Trim(visto)) != []
    ensures var s0 := EnsureSpace(f, st, 140);
      var r := VistoBlock(f, m, st, visto);
      r.pages == s0.pages && |r.log| >= |s0.log| + 2
      && r.log[|s0.log|] == Text(s0.pages, s0.y, At(MARGIN), VISTO_LABEL)
      && r.log[|s0.log| + 1] == Text(s0.pages, s0.y, At(AfterLabel(m, VISTO_LABEL, Font(11, true))), VistoInlineLines(f, m, Trim(visto))[0])
  {
    var lines := VistoInlineLines(f, m, Trim(visto));
    var s0 := EnsureSpace(f, st, 140);
    var s1 := Put(s0, At(MARGIN), VISTO_LABEL);
    var x := AfterLabel(m, VISTO_LABEL, Font(11, true));
    FlowUnchecked(f, s1, lines, x, 50);
    PlacedFirst(s1.pages, s1.y, lines, x, 50);
  }

  /**
   * A VISTO text with a line break or of 180 UTF-16 units or more does not
   * continue the label's line: its first line is 6 mm below the label, at the
   * margin. The 14 mm reserved before the label always leaves room for it, so
   * the page-break test of `addText` never fires on that line.
   */
  lemma {:induction false} VistoBelow(f: Format, m: Metrics, st: State, visto: string)
    requires visto != [] && !VistoInline(Trim(visto))
    requires m.wrap(Trim(visto), Font(10, false), ContentWidth(f)) != []
    ensures var s0 := EnsureSpace(f, st, 140);
      var r := VistoBlock(f, m, st, visto);
      var l0 := m.wrap(Trim(visto), Font(10, false), ContentWidth(f))[0];
      && s0.y + 60 <= Limit(f)
      && |r.log| > |s0.log| + 1
      && r.log[|s0.log|] == Text(s0.pages, s0.y, At(MARGIN), VISTO_LABEL)
      && r.log[|s0.log| + 1] == Text(s0.pages, s0.y + 60, At(MARGIN), l0)
  {
    var lines := m.wrap(Trim(visto), Font(10, false), ContentWidth(f));
    var s0 := EnsureSpace(f, st, 140);
    var s2 := Down(Put(s0, At(MARGIN), VISTO_LABEL), 60);
    var whole := Flow(f, s2, lines, MARGIN, 50, BreakBefore(0));
    assert VistoBlock(f, m, st, visto) == Down(whole, 60);
    FlowPrefix(f, s2, lines, 1, MARGIN, 50, BreakBefore(0));
    FlowStep(f, s2, lines[..1], MARGIN, 50, BreakBefore(0));
    assert lines[..1][..0] == [] && lines[..1][0] == lines[0];
    var one := Flow(f, s2, lines[..1], MARGIN, 50, BreakBefore(0));
    assert one == Line(f, s2, lines[0], At(MARGIN), 50, BreakBefore(0));
    assert one.log[..|s0.log| + 1] == s2.log;
  }

  /** The first placed line stands at the starting baseline and anchor. */
  lemma {:induction false} PlacedFirst(page: nat, y: int, lines: seq<string>, firstX: int, adv: int)
    requires lines != []
    ensures Placed(page, y, lines, firstX, adv)[0] == Text(page, y, At(firstX), lines[0])
    decreases |lines|
  {
    if |lines| > 1 {
      var n := |lines| - 1;
      PlacedFirst(page, y, lines[..n], firstX, adv);
    }
  }

  /** The bullet list shows, for each item in order, the mark and then the item's lines. */
  lemma {:induction false} BulletsShows(f: Format, m: Metrics, st: State, items: seq<string>)
    ensures Shows(st, Bullets(f, m, st, items), BulletTexts(f, m, items))
    decreases |items|
  {
    if items != [] {
      var n := |items| - 1;
      var p := Bullets(f, m, st, items[..n]);
      BulletsShows(f, m, st, items[..n]);
      var s1 := Put(EnsureSpace(f, p, 120), At(MARGIN), BULLET_MARK);
      LabelShows(f, p, 120, BULLET_MARK);
      FlowShows(f, s1, BulletLines(f, m, items[n]), BulletX(m), 50, Unchecked);
      ShowsTrans(st, p, s1, BulletTexts(f, m, items[..n]), [BULLET_MARK]);
      ShowsTrans(st, s1, Bullets(f, m, st, items), BulletTexts(f, m, items[..n]) + [BULLET_MARK], BulletLines(f, m, items[n]));
    }
  }

  /** The CONSIDERANDO block shows its label and then its paragraph or its bullet list. */
  lemma ConsiderandoShows(f: Format, m: Metrics, st: State, considerando: string)
    ensures Shows(st, ConsiderandoBlock(f, m, st, considerando), ConsiderandoTexts(f, m, considerando))
  {
    if considerando != [] {
      var texto := Trim(considerando);
      var s1 := Put(EnsureSpace(f, st, 160), At(MARGIN), CONSIDERANDO_LABEL);
      LabelShows(f, st, 160, CONSIDERANDO_LABEL);
      if !HasBullets(texto) {
        var lines := ConsiderandoLines(f, m, texto);
        var x := AfterLabel(m, CONSIDERANDO_LABEL, Font(11, true));
        FlowShows(f, s1, lines, x, 50, BreakBefore(0));
        ShowsTrans(st, s1, Flow(f, s1, lines, x, 50, BreakBefore(0)), [CONSIDERANDO_LABEL], lines);
      } else {
        var items := BulletItems(texto);
        BulletsShows(f, m, Down(s1, 60), items);
        ShowsTrans(st, Down(s1, 60), Bullets(f, m, Down(s1, 60), items), [CONSIDERANDO_LABEL], BulletTexts(f, m, items));
      }
    }
  }

  lemma {:induction false} BodyLinesShows(f: Format, m: Metrics, st: State, lineas: seq<string>)
    ensures Shows(st, BodyLines(f, m, st, lineas), BodyTexts(f, m, lineas))
    decreases |lineas|
  {
    if lineas != [] {
      var n := |lineas| - 1;
      var p := BodyLines(f, m, st, lineas[..n]);
      BodyLinesShows(f, m, st, lineas[..n]);
      var l := lineas[n];
      var p0 := if IsSubItem(l) then Down(p, 20) else p;
      var lines := Wrapped(f, m, l, 10, false);
      FlowShows(f, p0, lines, MARGIN, 50, BreakBefore(0));
      ShowsTrans(st, p0, Flow(f, p0, lines, MARGIN, 50, BreakBefore(0)), BodyTexts(f, m, lineas[..n]), lines);
    }
  }

  /** A heading shows itself, then the pieces of the first body line, then the other lines. */
  lemma ArticleBodyShows(f: Format, m: Metrics, st: State, heading: string, lineas: seq<string>)
    ensures Shows(st, ArticleBody(f, m, st, heading, lineas),
      [heading] + (if lineas == [] then [] else FirstLines(f, m, heading, lineas[0]) + BodyTexts(f, m, lineas[1..])))
  {
    var s1 := Put(st, At(MARGIN), heading);
    PutShows(st, At(MARGIN), heading);
    if lineas != [] {
      var first := FirstLines(f, m, heading, lineas[0]);
      var s2 := Flow(f, s1, first, FirstLineX(m, heading), 50, Unchecked);
      FlowShows(f, s1, first, FirstLineX(m, heading), 50, Unchecked);
      BodyLinesShows(f, m, s2, lineas[1..]);
      ShowsTrans(s1, s2, BodyLines(f, m, s2, lineas[1..]), first, BodyTexts(f, m, lineas[1..]));
      ShowsTrans(st, s1, BodyLines(f, m, s2, lineas[1..]), [heading], first + BodyTexts(f, m, lineas[1..]));
    }
  }

  /** An article without a recognised heading shows its paragraph's lines. */
  lemma UnstructuredShows(f: Format, m: Metrics, st: State, t: string)
    ensures Shows(st, ArticleBlock(f, m, st, Unstructured(t)), Wrapped(f, m, t, 10, false))
  {
    var s0 := EnsureSpace(f, st, 60);
    var lines := Wrapped(f, m, t, 10, false);
    EnsureSpaceShows(f, st, 60);
    FlowShows(f, s0, lines, MARGIN, 50, BreakBefore(0));
    ShowsTrans(st, s0, Flow(f, s0, lines, MARGIN, 50, BreakBefore(0)), [], lines);
  }

  /** An article with a heading shows the heading and then its body's lines. */
  lemma StructuredShows(f: Format, m: Metrics, st: State, heading: string, lineas: seq<string>)
    ensures Shows(st, Down(ArticleBody(f, m, EnsureSpace(f, st, 60), heading, lineas), 40),
      [heading] + (if lineas == [] then [] else FirstLines(f, m, heading, lineas[0]) + BodyTexts(f, m, lineas[1..])))
  {
    var s0 := EnsureSpace(f, st, 60);
    EnsureSpaceShows(f, st, 60);
    ArticleBodyShows(f, m, s0, heading, lineas);
    ShowsTrans(st, s0, ArticleBody(f, m, s0, heading, lineas), [],
      [heading] + (if lineas == [] then [] else FirstLines(f, m, heading, lineas[0]) + BodyTexts(f, m, lineas[1..])));
  }

  /** An article shows its paragraph, or its heading followed by its body's lines in order. */
  lemma ArticleShows(f: Format, m: Metrics, st: State, c: ArticleText)
    ensures Shows(st, ArticleBlock(f, m, st, c), ArticleTexts(f, m, c))
  {
    match c
    case Unstructured(t) => UnstructuredShows(f, m, st, t);
    case Structured(heading, body) => StructuredShows(f, m, st, heading, ArticleLines(body));
  }

  lemma {:induction false} ArticlesShows(f: Format, m: Metrics, st: State, articulos: seq<string>)
    ensures Shows(st, Articles(f, m, st, articulos), ArticlesTexts(f, m, articulos))
    decreases |articulos|
  {
    if articulos != [] {
      var n := |articulos| - 1;
      var p := Articles(f, m, st, articulos[..n]);
      var c := ClassifyArticle(articulos[n]);
      ArticlesShows(f, m, st, articulos[..n]);
      ArticleShows(f, m, p, c);
      ShowsTrans(st, p, ArticleBlock(f, m, p, c), ArticlesTexts(f, m, articulos[..n]), ArticleTexts(f, m, c));
    }
  }

  /** The transition block keeps its three lines together on one page, below any page break it needs. */
  lemma TransitionTogether(f: Format, st: State, verb: string)
    ensures var s0 := EnsureSpace(f, st, 400);
      var r := TransitionBlock(f, st, verb);
      r.pages == s0.pages && r.y == s0.y + 460 && s0.y + 320 <= Limit(f)
      && r.log == s0.log + [Text(s0.pages, s0.y + 100, At(MARGIN), POR_ELLO),
                            Text(s0.pages, s0.y + 220, Centered, INTENDENTE),
                            Text(s0.pages, s0.y + 320, Centered, verb)]
  {
  }

  lemma TransitionShows(f: Format, st: State, verb: string)
    ensures Shows(st, TransitionBlock(f, st, verb), [POR_ELLO, INTENDENTE, verb])
  {
    var s0 := EnsureSpace(f, st, 400);
    EnsureSpaceShows(f, st, 400);
    TransitionTogether(f, st, verb);
    var t1 := Text(s0.pages, s0.y + 100, At(MARGIN), POR_ELLO);
    var t2 := Text(s0.pages, s0.y + 220, Centered, INTENDENTE);
    var t3 := Text(s0.pages, s0.y + 320, Centered, verb);
    TextsSnoc(s0.log, t1);
    TextsSnoc(s0.log + [t1], t2);
    TextsSnoc(s0.log + [t1] + [t2], t3);
    assert s0.log + [t1, t2, t3] == s0.log + [t1] + [t2] + [t3];
  }

  /** The dateline, then a possible page break. */
  lemma DatelineShows(f: Format, st: State, dateline: string)
    ensures Shows(st, DatelineBlock(f, st, dateline), [dateline])
  {
    var d0 := Put(st, RightAligned, dateline);
    PutShows(st, RightAligned, dateline);
    EnsureSpaceShows(f, d0, 120);
    ShowsTrans(st, d0, EnsureSpace(f, d0, 120), [dateline], []);
  }

  lemma HeadingShows(st: State, heading: string)
    ensures Shows(st, HeadingBlock(st, heading), [heading])
  {
    PutShows(st, At(MARGIN), heading);
  }

  lemma TitleShows(f: Format, st: State, lines: seq<string>)
    ensures Shows(st, TitleBlock(f, st, lines), lines)
  {
    FlowShows(f, st, lines, MARGIN, 60, BreakBefore(100));
  }

  /** The dateline, the heading and the title lines, in that order. */
  lemma OpeningShowsOf(f: Format, st: State, dateline: string, heading: string, lines: seq<string>)
    ensures Shows(st, TitleBlock(f, HeadingBlock(DatelineBlock(f, st, dateline), heading), lines), [dateline, heading] + lines)
  {
    var d := DatelineBlock(f, st, dateline);
    var h := HeadingBlock(d, heading);
    DatelineShows(f, st, dateline);
    HeadingShows(d, heading);
    TitleShows(f, h, lines);
    ShowsTrans(st, d, h, [dateline], [heading]);
    ShowsTrans(st, h, TitleBlock(f, h, lines), [dateline] + [heading], lines);
  }

  lemma OpeningShows(f: Format, m: Metrics, st: State, a: Resolucion)
    ensures Shows(st, ActOpening(f, m, st, a), OpeningTexts(f, m, a))
  {
    OpeningShowsOf(f, st, Dateline(a), ActHeading(a.numero, a.anio), TitleLines(f, m, a));
  }

  lemma GroundsShows(f: Format, m: Metrics, st: State, a: Resolucion)
    ensures Shows(st, ActGrounds(f, m, st, a), GroundsTexts(f, m, a))
  {
    var vb := VistoBlock(f, m, st, a.visto);
    VistoShows(f, m, st, a.visto);
    ConsiderandoShows(f, m, vb, a.considerando);
    ShowsTrans(st, vb, ConsiderandoBlock(f, m, vb, a.considerando), VistoTexts(f, m, a.visto), ConsiderandoTexts(f, m, a.considerando));
  }

  lemma CierreShows(f: Format, m: Metrics, st: State, cierre: string)
    ensures Shows(st, CierreBlock(f, m, st, cierre), CierreTexts(f, m, cierre))
  {
    if cierre != [] {
      var lines := Wrapped(f, m, ToUpper(cierre), 10, true);
      FlowShows(f, Down(st, 40), lines, MARGIN, 50, BreakBefore(0));
      ShowsTrans(st, Down(st, 40), Flow(f, Down(st, 40), lines, MARGIN, 50, BreakBefore(0)), [], lines);
    }
  }

  lemma DecisionShows(f: Format, m: Metrics, st: State, a: Resolucion)
    ensures Shows(st, ActDecision(f, m, st, a), DecisionTexts(f, m, a))
  {
    var verb := TransitionVerb(a.tipo);
    var tr := TransitionBlock(f, st, verb);
    TransitionShows(f, st, verb);
    var ar := Articles(f, m, tr, a.articulos);
    ArticlesShows(f, m, tr, a.articulos);
    CierreShows(f, m, ar, a.cierre);
    ShowsTrans(st, tr, ar, [POR_ELLO, INTENDENTE, verb], ArticlesTexts(f, m, a.articulos));
    ShowsTrans(st, ar, CierreBlock(f, m, ar, a.cierre), [POR_ELLO, INTENDENTE, verb] + ArticlesTexts(f, m, a.articulos), CierreTexts(f, m, a.cierre));
  }

  /**
   * Every text of an act is drawn, once, in reading order: the dateline, the
   * heading, the title lines, VISTO, CONSIDERANDO, the transition, the
   * articles and the closing formula. Page breaks only add headers.
   */
  lemma ActShows(f: Format, m: Metrics, st: State, a: Resolucion)
    ensures Shows(st, ActBody(f, m, st, a), ActTexts(f, m, a))
  {
    var s1 := ActOpening(f, m, st, a);
    var s2 := ActGrounds(f, m, s1, a);
    OpeningShows(f, m, st, a);
    GroundsShows(f, m, s1, a);
    DecisionShows(f, m, s2, a);
    ShowsTrans(st, s1, s2, OpeningTexts(f, m, a), GroundsTexts(f, m, a));
    ShowsTrans(st, s2, ActDecision(f, m, s2, a), OpeningTexts(f, m, a) + GroundsTexts(f, m, a), DecisionTexts(f, m, a));
  }
}
