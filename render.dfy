/**
 * The PDF route as it runs: a jsPDF document whose page count, cursor
 * (`currentY`) and drawing log are updated in place by the route's helpers
 * and loops. Every method is proved to leave the document in the state the
 * corresponding function of `Page`, `Layout` or `Sections` describes, so the
 * properties proved about those functions hold of what the route draws.
 */
module Render {
  import opened Wrappers
  import opened Strings
  import opened Acts
  import opened Classify
  import opened Page
  import opened Layout
  import opened Sections

  class Pdf {
    const format: Format
    const metrics: Metrics
    var pages: nat
    var currentY: int
    var log: seq<Item>

    /** The document as a value. */
    function St(): State
      reads this
    {
      State(pages, currentY, log)
    }

    /** `new jsPDF(…)`: one empty page; `currentY = margin + headerHeight`. */
    constructor (f: Format, m: Metrics)
      ensures format == f && metrics == m
      ensures St() == State(1, TOP, [])
    {
      format := f;
      metrics := m;
      pages := 1;
      currentY := TOP;
      log := [];
    }

    /** `pdf.addPage(); currentY = margin + headerHeight; drawHeader()`. */
    method AddPage()
      modifies this
      ensures St() == NewPage(old(St()))
    {
      pages := pages + 1;
      currentY := TOP;
      log := log + [Header(pages)];
    }

    /** `ensureSpace(minHeight)`. */
    method EnsureSpace(h: int)
      modifies this
      ensures St() == Page.EnsureSpace(format, old(St()), h)
    {
      if currentY + h > Limit(format) {
        AddPage();
      }
    }

    /** `pdf.text(s, x, y)` at an explicit baseline. */
    method TextAt(y: int, a: Anchor, s: string)
      modifies this
      ensures St() == old(St()).(log := old(log) + [Text(pages, y, a, s)])
    {
      log := log + [Text(pages, y, a, s)];
    }

    /** `pdf.text(s, x, currentY)`. */
    method DrawText(a: Anchor, s: string)
      modifies this
      ensures St() == Put(old(St()), a, s)
    {
      TextAt(currentY, a, s);
    }

    /** `currentY += d`. */
    method MoveDown(d: int)
      modifies this
      ensures St() == Down(old(St()), d)
    {
      currentY := currentY + d;
    }

    /** `lines.forEach((line, index) => …)`: an optional page-break test, the line, then `adv` down. */
    method WriteLines(lines: seq<string>, firstX: int, adv: int, check: LineCheck)
      modifies this
      ensures St() == Flow(format, old(St()), lines, firstX, adv, check)
    {
      ghost var s0 := St();
      var i := 0;
      while i < |lines|
        invariant 0 <= i <= |lines|
        invariant St() == Flow(format, s0, lines[..i], firstX, adv, check)
      {
        if check.BreakBefore? {
          EnsureSpace(check.reserve);
        }
        DrawText(LineAnchor(i, firstX), lines[i]);
        MoveDown(adv);
        assert lines[..i + 1][..i] == lines[..i];
        i := i + 1;
      }
      assert lines[..|lines|] == lines;
    }

    /** `addText(text, fontSize, isBold)`. */
    method AddText(text: string, size: nat, bold: bool)
      modifies this
      ensures St() == Layout.AddText(format, metrics, old(St()), text, size, bold)
    {
      WriteLines(metrics.wrap(text, Font(size, bold), ContentWidth(format)), MARGIN, 5 * size, BreakBefore(0));
    }

    // ------------------------------------------------------------ cover, banners, separators, footers

    /** `drawCover`. */
    method DrawCover(i: Issue)
      modifies this
      ensures St() == old(St()).(log := old(log) + Cover(pages, i))
    {
      var t := CoverTexts(i);
      TextAt(1200, Centered, t[0]);
      TextAt(1300, Centered, t[1]);
      TextAt(1400, Centered, t[2]);
      TextAt(1750, Centered, t[3]);
      TextAt(1870, Centered, t[4]);
      assert log == old(log) + Cover(pages, i);
    }

    /** `drawTituloSeccion(tipoSeccion)`. */
    method DrawTituloSeccion(caption: string)
      modifies this
      ensures St() == Banner(old(St()), caption)
    {
      DrawText(Centered, DEPARTAMENTO);
      MoveDown(95);
      DrawText(Centered, caption);
      MoveDown(145);
    }

    /** `drawSeparatorLine()`. */
    method DrawSeparatorLine()
      modifies this
      ensures St() == Separator(format, old(St()))
    {
      var lineY := currentY + 60;
      if lineY + 180 > Limit(format) {
        AddPage();
        return;
      }
      log := log + [Rule(pages, lineY)];
      currentY := currentY + 180;
    }

    /** The footer loop: every page but the cover, numbered from 1. */
    method StampFooters()
      modifies this
      ensures St() == old(St()).(log := old(log) + Footers(pages))
    {
      var total := pages;
      var pageNumber := 1;
      for i := 1 to total + 1
        invariant log == old(log) + Footers(i - 1)
        invariant pageNumber == if i <= 2 then 1 else i - 1
        invariant pages == old(pages) && currentY == old(currentY)
      {
        if i == 1 {
          continue;
        }
        log := log + [Footer(i, pageNumber)];
        pageNumber := pageNumber + 1;
      }
    }

    // ------------------------------------------------------------ the blocks of one act

    method RenderOpening(a: Resolucion)
      modifies this
      ensures St() == ActOpening(format, metrics, old(St()), a)
    {
      DrawText(RightAligned, Dateline(a));
      EnsureSpace(120);
      MoveDown(120);
      DrawText(At(MARGIN), ActHeading(a.numero, a.anio));
      MoveDown(120);
      WriteLines(TitleLines(format, metrics, a), MARGIN, 60, BreakBefore(100));
      MoveDown(80);
    }

    method RenderVisto(visto: string)
      modifies this
      ensures St() == VistoBlock(format, metrics, old(St()), visto)
    {
      if visto != [] {
        EnsureSpace(140);
        DrawText(At(MARGIN), VISTO_LABEL);
        var texto := Trim(visto);
        if VistoInline(texto) {
          WriteLines(VistoInlineLines(format, metrics, texto), AfterLabel(metrics, VISTO_LABEL, Font(11, true)), 50, Unchecked);
        } else {
          MoveDown(60);
          AddText(texto, 10, false);
        }
        MoveDown(60);
      }
    }

    /** `items.forEach(…)`: each bullet item. */
    method RenderBullets(items: seq<string>)
      modifies this
      ensures St() == Bullets(format, metrics, old(St()), items)
    {
      ghost var s0 := St();
      var i := 0;
      while i < |items|
        invariant 0 <= i <= |items|
        invariant St() == Bullets(format, metrics, s0, items[..i])
      {
        EnsureSpace(120);
        DrawText(At(MARGIN), BULLET_MARK);
        WriteLines(BulletLines(format, metrics, items[i]), BulletX(metrics), 50, Unchecked);
        MoveDown(30);
        assert items[..i + 1][..i] == items[..i];
        i := i + 1;
      }
      assert items[..|items|] == items;
    }

    method RenderConsiderando(considerando: string)
      modifies this
      ensures St() == ConsiderandoBlock(format, metrics, old(St()), considerando)
    {
      if considerando != [] {
        EnsureSpace(160);
        DrawText(At(MARGIN), CONSIDERANDO_LABEL);
        var texto := Trim(considerando);
        if !HasBullets(texto) {
          WriteLines(ConsiderandoLines(format, metrics, texto), AfterLabel(metrics, CONSIDERANDO_LABEL, Font(11, true)), 50, BreakBefore(0));
        } else {
          MoveDown(60);
          RenderBullets(BulletItems(texto));
        }
        MoveDown(40);
      }
    }

    method RenderTransition(verb: string)
      modifies this
      ensures St() == TransitionBlock(format, old(St()), verb)
    {
      EnsureSpace(400);
      MoveDown(100);
      DrawText(At(MARGIN), POR_ELLO);
      MoveDown(120);
      DrawText(Centered, INTENDENTE);
      MoveDown(100);
      DrawText(Centered, verb);
      MoveDown(140);
    }

    /** `lineas.slice(1).forEach(…)`: the body lines after the first. */
    method RenderBodyLines(lineas: seq<string>)
      modifies this
      ensures St() == BodyLines(format, metrics, old(St()), lineas)
    {
      ghost var s0 := St();
      var i := 0;
      while i < |lineas|
        invariant 0 <= i <= |lineas|
        invariant St() == BodyLines(format, metrics, s0, lineas[..i])
      {
        var linea := lineas[i];
        if IsSubItem(linea) {
          MoveDown(20);
          AddText(linea, 10, false);
          MoveDown(40);
        } else {
          AddText(linea, 10, false);
          MoveDown(30);
        }
        assert lineas[..i + 1][..i] == lineas[..i];
        i := i + 1;
      }
      assert lineas[..|lineas|] == lineas;
    }

    /** One article, already classified by the heading expression. */
    method RenderArticle(c: ArticleText)
      modifies this
      ensures St() == ArticleBlock(format, metrics, old(St()), c)
    {
      EnsureSpace(60);
      match c
      case Unstructured(t) =>
        AddText(t, 10, false);
        MoveDown(40);
      case Structured(heading, body) =>
        DrawText(At(MARGIN), heading);
        var lineas := ArticleLines(body);
        if |lineas| > 0 {
          WriteLines(FirstLines(format, metrics, heading, lineas[0]), FirstLineX(metrics, heading), 50, Unchecked);
          RenderBodyLines(lineas[1..]);
        }
        MoveDown(40);
    }

    /** `articulos.forEach(…)`. */
    method RenderArticles(articulos: seq<string>)
      modifies this
      ensures St() == Articles(format, metrics, old(St()), articulos)
    {
      ghost var s0 := St();
      var i := 0;
      while i < |articulos|
        invariant 0 <= i <= |articulos|
        invariant St() == Articles(format, metrics, s0, articulos[..i])
      {
        RenderArticle(ClassifyArticle(articulos[i]));
        assert articulos[..i + 1][..i] == articulos[..i];
        i := i + 1;
      }
      assert articulos[..|articulos|] == articulos;
    }

    method RenderDecision(a: Resolucion)
      modifies this
      ensures St() == ActDecision(format, metrics, old(St()), a)
    {
      RenderTransition(TransitionVerb(a.tipo));
      RenderArticles(a.articulos);
      if a.cierre != [] {
        MoveDown(40);
        AddText(ToUpper(a.cierre), 10, true);
      }
    }

    /** One act, from its dateline to its closing formula. */
    method RenderAct(a: Resolucion)
      modifies this
      ensures St() == ActBody(format, metrics, old(St()), a)
    {
      RenderOpening(a);
      RenderVisto(a.visto);
      RenderConsiderando(a.considerando);
      RenderDecision(a);
    }

    /** Before an act: its section's banner if it opens the section, then the separator if it is not the first of its kind. */
    method DrawLead(a: Resolucion, promShown: bool, resShown: bool, seenProm: bool, seenRes: bool)
      modifies this
      ensures St() == Lead(format, old(St()), Flags(promShown, resShown, seenProm, seenRes), a)
    {
      if a.tipo == PROMULGACION && !promShown {
        DrawTituloSeccion(PROMULGACIONES);
      } else if a.tipo == RESOLUCION && !resShown {
        AddPage();
        DrawTituloSeccion(RESOLUCIONES);
      }
      if (a.tipo == PROMULGACION && seenProm) || (a.tipo == RESOLUCION && seenRes) {
        DrawSeparatorLine();
      }
    }

    /** `resolucionesOrdenadas.forEach(…)` with its four section flags. */
    method RenderActs(ordered: seq<Resolucion>)
      modifies this
      ensures St() == Body(format, metrics, old(St()), ordered)
    {
      ghost var s0 := St();
      var promShown, resShown, seenProm, seenRes := false, false, false, false;
      var i := 0;
      while i < |ordered|
        invariant 0 <= i <= |ordered|
        invariant St() == Body(format, metrics, s0, ordered[..i])
        invariant Flags(promShown, resShown, seenProm, seenRes) == FlagsAfter(ordered[..i])
      {
        var a := ordered[i];
        DrawLead(a, promShown, resShown, seenProm, seenRes);
        ghost var l := St();
        RenderAct(a);
        BodyStep(format, metrics, s0, ordered, i, l, St());
        FlagsStep(ordered, i);
        promShown, resShown := promShown || a.tipo == PROMULGACION, resShown || a.tipo == RESOLUCION;
        seenProm, seenRes := seenProm || a.tipo == PROMULGACION, seenRes || a.tipo == RESOLUCION;
        i := i + 1;
      }
      assert ordered[..|ordered|] == ordered;
    }
  }

  /**
   * `POST`: the request's format, the bulletin (if the request names one that
   * exists), today's year and month, and the selected acts as the database
   * returns them. The answer is the document `Document` describes.
   */
  method GenerarPdf(formato: string, m: Metrics, boletin: Option<Issue>, year: int, month: int, acts: seq<Resolucion>)
    returns (r: Response)
    ensures r == Document(FormatOf(formato), m, IssueOf(boletin, year, month), acts)
  {
    if |acts| == 0 {
      return Error(400, NO_ACTS);
    }
    var issue := IssueOf(boletin, year, month);
    var pdf := new Pdf(FormatOf(formato), m);
    pdf.DrawCover(issue);
    pdf.AddPage();
    assert pdf.St() == Start(issue);
    var promulgaciones := OfTipo(acts, PROMULGACION);
    var normales := OfTipo(acts, RESOLUCION);
    pdf.RenderActs(promulgaciones + normales);
    pdf.StampFooters();
    r := Pdf(pdf.pages, pdf.log);
  }
}
