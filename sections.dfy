/**
 * The whole bulletin document: the cover, the order of the acts, the section
 * banners ("PROMULGACIONES", "RESOLUCIONES"), the separator between two acts
 * of the same section, the footers with their page numbers, and the request's
 * one error case.
 */
module Sections {
  import opened Wrappers
  import opened Strings
  import opened Acts
  import opened Classify
  import opened Page
  import opened Layout

  // ---------------------------------------------------------------- order of the acts

  /** Promulgations first, then resolutions, each in the order received; acts of any other kind are not printed. */
  function Reorder(acts: seq<Resolucion>): (r: seq<Resolucion>)
    ensures |r| == CountTipo(acts, PROMULGACION) + CountTipo(acts, RESOLUCION)
  {
    OfTipoLength(acts, PROMULGACION);
    OfTipoLength(acts, RESOLUCION);
    OfTipo(acts, PROMULGACION) + OfTipo(acts, RESOLUCION)
  }

  lemma KindsDiffer()
    ensures PROMULGACION != RESOLUCION
  {
    assert PROMULGACION[0] != RESOLUCION[0];
  }

  /** The printed acts are exactly the promulgations and the resolutions among the received ones. */
  lemma ReorderMembers(acts: seq<Resolucion>)
    ensures forall a :: a in Reorder(acts) <==> a in acts && (a.tipo == PROMULGACION || a.tipo == RESOLUCION)
  {
  }

  /** No promulgation comes after a resolution. */
  lemma ReorderGrouped(acts: seq<Resolucion>)
    ensures var r := Reorder(acts);
      forall i, j :: 0 <= i < j < |r| && r[i].tipo == RESOLUCION ==> r[j].tipo == RESOLUCION
  {
    KindsDiffer();
    var p := OfTipo(acts, PROMULGACION);
    var r := Reorder(acts);
    forall k | 0 <= k < |p|
      ensures r[k].tipo == PROMULGACION
    {
      assert r[k] == p[k] && p[k] in p;
    }
    forall i, j | 0 <= i < j < |r| && r[i].tipo == RESOLUCION
      ensures r[j].tipo == RESOLUCION
    {
      assert r[j] == OfTipo(acts, RESOLUCION)[j - |p|];
      assert r[j] in OfTipo(acts, RESOLUCION);
    }
  }

  /** Within each section the acts keep the order in which they were received. */
  lemma ReorderKeepsOrder(acts: seq<Resolucion>)
    ensures OfTipo(Reorder(acts), PROMULGACION) == OfTipo(acts, PROMULGACION)
    ensures OfTipo(Reorder(acts), RESOLUCION) == OfTipo(acts, RESOLUCION)
  {
    KindsDiffer();
    var p := OfTipo(acts, PROMULGACION);
    var r := OfTipo(acts, RESOLUCION);
    OfTipoAppend(p, r, PROMULGACION);
    OfTipoAppend(p, r, RESOLUCION);
    OfTipoTwice(acts, PROMULGACION);
    OfTipoTwice(acts, RESOLUCION);
    OfTipoOther(acts, RESOLUCION, PROMULGACION);
    OfTipoOther(acts, PROMULGACION, RESOLUCION);
    assert p + [] == p;
  }

  // ---------------------------------------------------------------- section flags

  /**
   * The loop's four flags: whether each section's banner has been drawn, and
   * whether an act of each kind has already been printed.
   */
  datatype Flags = Flags(promShown: bool, resShown: bool, seenProm: bool, seenRes: bool)

  const NO_FLAGS: Flags := Flags(false, false, false, false)

  /** The flags after printing `a`: its section's banner has been drawn and an act of its kind printed. */
  function NextFlags(fl: Flags, a: Resolucion): Flags {
    Flags(fl.promShown || a.tipo == PROMULGACION, fl.resShown || a.tipo == RESOLUCION,
          fl.seenProm || a.tipo == PROMULGACION, fl.seenRes || a.tipo == RESOLUCION)
  }

  /** The flags after printing `acts` in order. */
  function FlagsAfter(acts: seq<Resolucion>): Flags
    decreases |acts|
  {
    if acts == [] then NO_FLAGS
    else NextFlags(FlagsAfter(acts[..|acts| - 1]), acts[|acts| - 1])
  }

  /** After any prefix of the acts, each flag says whether an act of its kind is in the prefix. */
  lemma {:induction false} FlagsAfterIs(acts: seq<Resolucion>)
    ensures FlagsAfter(acts) == Flags(HasTipo(acts, PROMULGACION), HasTipo(acts, RESOLUCION),
                                      HasTipo(acts, PROMULGACION), HasTipo(acts, RESOLUCION))
    decreases |acts|
  {
    if acts != [] {
      var n := |acts| - 1;
      FlagsAfterIs(acts[..n]);
      assert acts == acts[..n] + [acts[n]];
      HasTipoSnoc(acts[..n], acts[n], PROMULGACION);
      HasTipoSnoc(acts[..n], acts[n], RESOLUCION);
    }
  }

  // ---------------------------------------------------------------- banners and separators

  const DEPARTAMENTO: string := "DEPARTAMENTO EJECUTIVO MUNICIPAL"
  const PROMULGACIONES: string := "PROMULGACIONES"
  const RESOLUCIONES: string := "RESOLUCIONES"

  /**
   * `drawTituloSeccion`: the department line centred at the cursor; 10 mm
   * lower the boxed caption, its baseline 0.5 mm above that; the cursor ends
   * 24 mm below where it started.
   */
  function Banner(st: State, caption: string): State {
    var s1 := Put(st, Centered, DEPARTAMENTO);
    Down(Put(Down(s1, 95), Centered, caption), 145)
  }

  /**
   * `drawSeparatorLine`: a rule 6 mm below the cursor and 18 mm down, or,
   * when the 18 mm band below the rule would pass the limit, only a new page.
   */
  function Separator(f: Format, st: State): State {
    if st.y + 60 + 180 > Limit(f) then NewPage(st)
    else State(st.pages, st.y + 180, st.log + [Rule(st.pages, st.y + 60)])
  }

  /** A separator is drawn before an act iff an act of its kind has already been printed. */
  predicate SeparatorBefore(fl: Flags, a: Resolucion) {
    (a.tipo == PROMULGACION && fl.seenProm) || (a.tipo == RESOLUCION && fl.seenRes)
  }

  /**
   * What comes before an act: the PROMULGACIONES banner before the first
   * promulgation, a forced new page and the RESOLUCIONES banner before the
   * first resolution, then the separator when the act is not the first of its kind.
   */
  function Lead(f: Format, st: State, fl: Flags, a: Resolucion): State {
    var s1 :=
      if a.tipo == PROMULGACION && !fl.promShown then Banner(st, PROMULGACIONES)
      else if a.tipo == RESOLUCION && !fl.resShown then Banner(NewPage(st), RESOLUCIONES)
      else st;
    if SeparatorBefore(fl, a) then Separator(f, s1) else s1
  }

  /** The texts a lead shows: the banner's two lines before the first act of a section, else nothing. */
  function LeadTexts(fl: Flags, a: Resolucion): seq<string> {
    if a.tipo == PROMULGACION && !fl.promShown then [DEPARTAMENTO, PROMULGACIONES]
    else if a.tipo == RESOLUCION && !fl.resShown then [DEPARTAMENTO, RESOLUCIONES]
    else []
  }

  /** `resolucionesOrdenadas.forEach(…)`: each act after its lead, with the flags of the acts before it. */
  function Body(f: Format, m: Metrics, st: State, acts: seq<Resolucion>): State
    decreases |acts|
  {
    if acts == [] then st
    else
      var n := |acts| - 1;
      ActBody(f, m, Lead(f, Body(f, m, st, acts[..n]), FlagsAfter(acts[..n]), acts[n]), acts[n])
  }

  /** Printing act `i` after the acts before it: its lead with their flags, then the act itself. */
  lemma BodyStep(f: Format, m: Metrics, st: State, acts: seq<Resolucion>, i: nat, l: State, r: State)
    requires i < |acts|
    requires l == Lead(f, Body(f, m, st, acts[..i]), FlagsAfter(acts[..i]), acts[i])
    requires r == ActBody(f, m, l, acts[i])
    ensures r == Body(f, m, st, acts[..i + 1])
  {
    var p := acts[..i + 1];
    assert p[..i] == acts[..i] && p[i] == acts[i];
    BodyLast(f, m, st, p);
  }

  /** The body of a non-empty list is its last act, after its lead, on the body of the others. */
  lemma BodyLast(f: Format, m: Metrics, st: State, acts: seq<Resolucion>)
    requires acts != []
    ensures var n := |acts| - 1;
      Body(f, m, st, acts) == ActBody(f, m, Lead(f, Body(f, m, st, acts[..n]), FlagsAfter(acts[..n]), acts[n]), acts[n])
  {
  }

  /** The flags after act `i` take in act `i`. */
  lemma FlagsStep(acts: seq<Resolucion>, i: nat)
    requires i < |acts|
    ensures FlagsAfter(acts[..i + 1]) == NextFlags(FlagsAfter(acts[..i]), acts[i])
  {
    assert acts[..i + 1][..i] == acts[..i];
  }

  /** The texts of the printed acts, in order: each act's banner, if any, and then the act. */
  function BodyTextsOf(f: Format, m: Metrics, acts: seq<Resolucion>): seq<string>
    decreases |acts|
  {
    if acts == [] then []
    else
      var n := |acts| - 1;
      BodyTextsOf(f, m, acts[..n]) + LeadTexts(FlagsAfter(acts[..n]), acts[n]) + ActTexts(f, m, acts[n])
  }

  /**
   * Act `i` is preceded by a section banner exactly when it is the first act
   * of its kind, and the banner names its section.
   */
  lemma BannerIffFirst(acts: seq<Resolucion>, i: nat)
    requires i < |acts|
    ensures var a := acts[i];
      LeadTexts(FlagsAfter(acts[..i]), a)
      == if a.tipo == PROMULGACION && !HasTipo(acts[..i], PROMULGACION) then [DEPARTAMENTO, PROMULGACIONES]
         else if a.tipo == RESOLUCION && !HasTipo(acts[..i], RESOLUCION) then [DEPARTAMENTO, RESOLUCIONES]
         else []
  {
    FlagsAfterIs(acts[..i]);
  }

  /** Act `i` is preceded by a separator exactly when an earlier act has its kind. */
  lemma SeparatorIffEarlier(acts: seq<Resolucion>, i: nat)
    requires i < |acts|
    requires acts[i].tipo == PROMULGACION || acts[i].tipo == RESOLUCION
    ensures SeparatorBefore(FlagsAfter(acts[..i]), acts[i])
      <==> exists j :: 0 <= j < i && acts[j].tipo == acts[i].tipo
  {
    FlagsAfterIs(acts[..i]);
    if exists j :: 0 <= j < i && acts[j].tipo == acts[i].tipo {
      var j :| 0 <= j < i && acts[j].tipo == acts[i].tipo;
      assert acts[..i][j] == acts[j];
    }
    if HasTipo(acts[..i], acts[i].tipo) {
      var j :| 0 <= j < i && acts[..i][j].tipo == acts[i].tipo;
      assert acts[j] == acts[..i][j];
    }
  }

  /**
   * The first resolution starts a fresh page: its header, the department line
   * at the top of the content area and the RESOLUCIONES caption below it, with
   * no separator.
   */
  lemma ResolucionesOnFreshPage(f: Format, st: State, acts: seq<Resolucion>, a: Resolucion)
    requires a.tipo == RESOLUCION && !HasTipo(acts, RESOLUCION)
    ensures var p := st.pages + 1;
      Lead(f, st, FlagsAfter(acts), a)
      == State(p, TOP + 240, st.log + [Header(p), Text(p, TOP, Centered, DEPARTAMENTO), Text(p, TOP + 95, Centered, RESOLUCIONES)])
  {
    KindsDiffer();
    FlagsAfterIs(acts);
  }

  /** A separator rule is drawn only where its 18 mm band fits above the limit; otherwise only a page break happens. */
  lemma SeparatorFits(f: Format, st: State)
    ensures var r := Separator(f, st);
      && (r.pages == st.pages <==> st.y + 240 <= Limit(f))
      && (r.pages == st.pages ==> r.y == st.y + 180 && r.log == st.log + [Rule(st.pages, st.y + 60)] && r.y + 60 <= Limit(f))
      && (r.pages != st.pages ==> r.pages == st.pages + 1 && r.y == TOP && r.log == st.log + [Header(st.pages + 1)])
  {
  }

  lemma SeparatorShows(f: Format, st: State)
    ensures Shows(st, Separator(f, st), [])
  {
    TextsSnoc(st.log, Header(st.pages + 1));
    TextsSnoc(st.log, Rule(st.pages, st.y + 60));
  }

  lemma BannerShows(st: State, caption: string)
    ensures Shows(st, Banner(st, caption), [DEPARTAMENTO, caption])
    ensures Banner(st, caption).pages == st.pages && Banner(st, caption).y == st.y + 240
  {
    var s1 := Put(st, Centered, DEPARTAMENTO);
    PutShows(st, Centered, DEPARTAMENTO);
    PutShows(Down(s1, 95), Centered, caption);
    ShowsTrans(st, Down(s1, 95), Put(Down(s1, 95), Centered, caption), [DEPARTAMENTO], [caption]);
  }

  lemma LeadShows(f: Format, st: State, fl: Flags, a: Resolucion)
    ensures Shows(st, Lead(f, st, fl, a), LeadTexts(fl, a))
  {
    var s1 :=
      if a.tipo == PROMULGACION && !fl.promShown then Banner(st, PROMULGACIONES)
      else if a.tipo == RESOLUCION && !fl.resShown then Banner(NewPage(st), RESOLUCIONES)
      else st;
    if a.tipo == PROMULGACION && !fl.promShown {
      BannerShows(st, PROMULGACIONES);
    } else if a.tipo == RESOLUCION && !fl.resShown {
      NewPageShows(st);
      BannerShows(NewPage(st), RESOLUCIONES);
      ShowsTrans(st, NewPage(st), s1, [], [DEPARTAMENTO, RESOLUCIONES]);
    }
    SeparatorShows(f, s1);
    ShowsTrans(st, s1, Separator(f, s1), LeadTexts(fl, a), []);
  }

  /** The body shows, act after act, each act's banner if it opens a section and then all of the act's texts. */
  lemma {:induction false} BodyShows(f: Format, m: Metrics, st: State, acts: seq<Resolucion>)
    ensures Shows(st, Body(f, m, st, acts), BodyTextsOf(f, m, acts))
    decreases |acts|
  {
    if acts != [] {
      var n := |acts| - 1;
      var p := Body(f, m, st, acts[..n]);
      var fl := FlagsAfter(acts[..n]);
      var l := Lead(f, p, fl, acts[n]);
      BodyShows(f, m, st, acts[..n]);
      LeadShows(f, p, fl, acts[n]);
      ActShows(f, m, l, acts[n]);
      ShowsTrans(st, p, l, BodyTextsOf(f, m, acts[..n]), LeadTexts(fl, acts[n]));
      ShowsTrans(st, l, ActBody(f, m, l, acts[n]), BodyTextsOf(f, m, acts[..n]) + LeadTexts(fl, acts[n]), ActTexts(f, m, acts[n]));
    }
  }

  // ---------------------------------------------------------------- cover, footers, document

  /** The bulletin's year, number and month. */
  datatype Issue = Issue(anio: int, numero: int, mes: int)

  /** The bulletin named by the request, or, without one, the current year, number 1 and the current month. */
  function IssueOf(boletin: Option<Issue>, year: int, month: int): Issue {
    match boletin
    case Some(i) => i
    case None => Issue(year, 1, month)
  }

  /** The white texts of the cover, top to bottom. */
  function CoverTexts(i: Issue): seq<string> {
    ["MUNICIPALIDAD DE SAN ISIDRO", "Av. Julián Urquijo y Av. Primer Intendente", "PROVINCIA DE CORRIENTES",
     "AÑO " + IntToString(i.anio) + "  BOLETÍN OFICIAL N° " + IntToString(i.numero),
     "MES " + IntToString(i.mes) + " / " + MonthLabel(i.mes)]
  }

  /**
   * The cover names the requested bulletin: its year and number can be read
   * back from the fourth line and its month label ends the fifth. Without a
   * bulletin it names the current year, number 1 and the current month.
   */
  lemma CoverNamesIssue(boletin: Option<Issue>, year: int, month: int)
    ensures var i := IssueOf(boletin, year, month);
      var line := CoverTexts(i)[3];
      var a := IntToString(i.anio);
      var n := IntToString(i.numero);
      var mes := CoverTexts(i)[4];
      && |line| >= 4 + |a| + |n| && line[..4] == "AÑO "
      && ParseInt(line[4..4 + |a|]) == (if boletin.Some? then boletin.value.anio else year)
      && ParseInt(line[|line| - |n|..]) == (if boletin.Some? then boletin.value.numero else 1)
      && |mes| >= |MonthLabel(i.mes)|
      && mes[|mes| - |MonthLabel(i.mes)|..] == MonthLabel(if boletin.Some? then boletin.value.mes else month)
  {
    var i := IssueOf(boletin, year, month);
    CoverLines(i);
  }

  /** The issue's year and number read back from the fourth cover line, its month label ends the fifth. */
  lemma CoverLines(i: Issue)
    ensures var line := CoverTexts(i)[3];
      var a := IntToString(i.anio);
      var n := IntToString(i.numero);
      var mes := CoverTexts(i)[4];
      && |line| >= 4 + |a| + |n| && line[..4] == "AÑO "
      && ParseInt(line[4..4 + |a|]) == i.anio
      && ParseInt(line[|line| - |n|..]) == i.numero
      && |mes| >= |MonthLabel(i.mes)|
      && mes[|mes| - |MonthLabel(i.mes)|..] == MonthLabel(i.mes)
  {
    assert CoverTexts(i)[3] == "AÑO " + IntToString(i.anio) + "  BOLETÍN OFICIAL N° " + IntToString(i.numero);
    assert CoverTexts(i)[4] == "MES " + IntToString(i.mes) + " / " + MonthLabel(i.mes);
    YearLine(i.anio, i.numero);
    ConcatSlices("MES ", IntToString(i.mes), " / ", MonthLabel(i.mes));
  }

  lemma YearLine(anio: int, numero: int)
    ensures var a := IntToString(anio);
      var n := IntToString(numero);
      var line := "AÑO " + a + "  BOLETÍN OFICIAL N° " + n;
      && |line| >= 4 + |a| + |n| && line[..4] == "AÑO "
      && ParseInt(line[4..4 + |a|]) == anio
      && ParseInt(line[|line| - |n|..]) == numero
  {
    IntToStringRoundTrip(anio);
    IntToStringRoundTrip(numero);
    ConcatSlices("AÑO ", IntToString(anio), "  BOLETÍN OFICIAL N° ", IntToString(numero));
  }

  /** The baselines of the cover texts: 120, 130, 140, 175 and 187 mm. */
  const COVER_YS: seq<int> := [1200, 1300, 1400, 1750, 1870]

  /** `drawCover`: the cover texts centred on the current page, the first one. */
  function Cover(page: nat, i: Issue): seq<Item> {
    var t := CoverTexts(i);
    seq(5, k requires 0 <= k < 5 => Text(page, COVER_YS[k], Centered, t[k]))
  }

  /** The cover shows its texts, in order, all centred on its page. */
  lemma CoverShows(page: nat, i: Issue)
    ensures Texts(Cover(page, i)) == CoverTexts(i)
    ensures forall it :: it in Cover(page, i) ==> it.Text? && it.page == page && it.anchor == Centered
  {
    var c := Cover(page, i);
    var t := CoverTexts(i);
    assert c == [c[0], c[1], c[2], c[3]] + [c[4]];
    assert [c[0], c[1], c[2]] + [c[3]] == [c[0], c[1], c[2], c[3]];
    assert [c[0], c[1]] + [c[2]] == [c[0], c[1], c[2]];
    assert [c[0]] + [c[1]] == [c[0], c[1]];
    assert [] + [c[0]] == [c[0]];
    TextsSnoc([], c[0]);
    TextsSnoc([c[0]], c[1]);
    TextsSnoc([c[0], c[1]], c[2]);
    TextsSnoc([c[0], c[1], c[2]], c[3]);
    TextsSnoc([c[0], c[1], c[2], c[3]], c[4]);
  }

  /** The footers, stamped after the content: page `p` from the second on gets number `p - 1`. */
  function Footers(pages: nat): seq<Item>
    decreases pages
  {
    if pages <= 1 then [] else Footers(pages - 1) + [Footer(pages, pages - 1)]
  }

  /** There is one footer per page after the cover, in page order, and none shows a body text. */
  lemma {:induction false} FootersNumbered(pages: nat)
    ensures |Footers(pages)| == if pages <= 1 then 0 else pages - 1
    ensures forall k :: 0 <= k < |Footers(pages)| ==> Footers(pages)[k] == Footer(k + 2, k + 1)
    ensures Texts(Footers(pages)) == []
    decreases pages
  {
    if pages > 1 {
      FootersNumbered(pages - 1);
      TextsSnoc(Footers(pages - 1), Footer(pages, pages - 1));
    }
  }

  /** The route's answer: the document, or an error status with its message. */
  datatype Response = Pdf(pages: nat, log: seq<Item>) | Error(status: nat, message: string)

  const NO_ACTS: string := "No hay resoluciones para generar el boletín"

  /** The document before its first act: the cover, then page 2 with its header and the cursor at the top. */
  function Start(i: Issue): State {
    NewPage(State(1, TOP, Cover(1, i)))
  }

  /**
   * `POST`: no acts is a 400 error; otherwise the cover, the acts in section
   * order from page 2 on, and the footers.
   */
  function Document(f: Format, m: Metrics, i: Issue, acts: seq<Resolucion>): Response {
    if acts == [] then Error(400, NO_ACTS)
    else
      var st := Body(f, m, Start(i), Reorder(acts));
      Pdf(st.pages, st.log + Footers(st.pages))
  }

  /** The only error is an empty selection, answered with status 400. */
  lemma DocumentError(f: Format, m: Metrics, i: Issue, acts: seq<Resolucion>)
    ensures Document(f, m, i, acts).Error? <==> acts == []
    ensures Document(f, m, i, acts).Error? ==> Document(f, m, i, acts).status == 400
  {
  }

  /** Stamping the footers on a document grown from the start adds no text. */
  lemma FinishShows(i: Issue, st: State, t: seq<string>)
    requires Shows(Start(i), st, t)
    ensures Texts(st.log + Footers(st.pages)) == CoverTexts(i) + t
    ensures st.pages >= 2
  {
    StartTexts(i);
    FootersNumbered(st.pages);
    TextsAppend(st.log, Footers(st.pages));
  }

  /** Page 2 starts with the cover as its only text. */
  lemma StartTexts(i: Issue)
    ensures Texts(Start(i).log) == CoverTexts(i) && Start(i).pages == 2
  {
    CoverShows(1, i);
    NewPageShows(State(1, TOP, Cover(1, i)));
  }

  /**
   * A document shows the cover texts, then, in section order, each banner and
   * each act's texts; headers, rules and footers add no text. It has the
   * cover and at least one content page, and ends with the footers.
   */
  lemma DocumentShows(f: Format, m: Metrics, i: Issue, acts: seq<Resolucion>)
    requires acts != []
    ensures var d := Document(f, m, i, acts);
      && d.Pdf?
      && Texts(d.log) == CoverTexts(i) + BodyTextsOf(f, m, Reorder(acts))
      && d.pages >= 2
      && |Footers(d.pages)| <= |d.log| && d.log[|d.log| - |Footers(d.pages)|..] == Footers(d.pages)
  {
    var st := Body(f, m, Start(i), Reorder(acts));
    BodyShows(f, m, Start(i), Reorder(acts));
    FinishShows(i, st, BodyTextsOf(f, m, Reorder(acts)));
    var d := st.log + Footers(st.pages);
    assert d[|d| - |Footers(st.pages)|..] == Footers(st.pages);
  }
}
