/**
 * The pure text decisions of the bulletin PDF route: the dateline and act
 * heading strings, the VISTO same-line rule, the CONSIDERANDO bullet split,
 * the article heading regular expression and the sub-item test.
 */
module Classify {
  import opened Wrappers
  import opened Strings
  import opened Acts

  // ---------------------------------------------------------------- dates and headings

  /** `formatDate`: "{day} DE {MONTH} DEL {year}". */
  function FormatDate(f: Fecha): string {
    IntToString(f.day) + " DE " + MONTH_NAMES[f.month - 1] + " DEL " + IntToString(f.year)
  }

  /** The day, the upper-case month name and the year can be read back from a formatted date. */
  lemma FormatDateParts(f: Fecha)
    ensures var s := FormatDate(f);
      var d := IntToString(f.day);
      var y := IntToString(f.year);
      var month := MONTH_NAMES[f.month - 1];
      && |s| == |d| + 4 + |month| + 5 + |y|
      && ParseInt(s[..|d|]) == f.day
      && s[|d|..|d| + 4] == " DE "
      && s[|d| + 4..|d| + 4 + |month|] == month
      && ParseInt(s[|s| - |y|..]) == f.year
  {
    var month := MONTH_NAMES[f.month - 1];
    assert FormatDate(f) == IntToString(f.day) + " DE " + month + " DEL " + IntToString(f.year);
    DateReadsBack(f.day, month, f.year);
  }

  /** The day and the year read back from "{day} DE {month} DEL {year}", whatever the month text. */
  lemma DateReadsBack(day: int, month: string, year: int)
    ensures var d, y := IntToString(day), IntToString(year);
      var s := d + " DE " + month + " DEL " + y;
      && |s| == |d| + 4 + |month| + 5 + |y|
      && ParseInt(s[..|d|]) == day
      && s[|d|..|d| + 4] == " DE "
      && s[|d| + 4..|d| + 4 + |month|] == month
      && ParseInt(s[|s| - |y|..]) == year
  {
    var d, y := IntToString(day), IntToString(year);
    DateSlices(d, month, y);
    IntToStringRoundTrip(day);
    IntToStringRoundTrip(year);
  }

  /** Where the three parts of "{d} DE {month} DEL {y}" sit. */
  lemma DateSlices(d: string, month: string, y: string)
    ensures var s := d + " DE " + month + " DEL " + y;
      && |s| == |d| + 4 + |month| + 5 + |y|
      && s[..|d|] == d
      && s[|d|..|d| + 4] == " DE "
      && s[|d| + 4..|d| + 4 + |month|] == month
      && s[|s| - |y|..] == y
  {
    var s := d + " DE " + month + " DEL " + y;
    ConcatSlices(d + " DE ", month, " DEL ", y);
    assert s[..|d|] == s[..|d| + 4][..|d|];
  }

  /** The right-aligned dateline "{lugar}, {day} DE {MONTH} DEL {year}". */
  function Dateline(a: Resolucion): string {
    a.lugar + ", " + FormatDate(a.fecha)
  }

  const HEADING_PREFIX: string := "RESOLUCIÓN D.E.M. Nº"

  /**
   * The act heading. The prefix is the same literal for every kind of act;
   * the year is `anio.toString().slice(-2)`.
   */
  function ActHeading(numero: int, anio: int): string {
    HEADING_PREFIX + IntToString(numero) + "/" + LastTwo(IntToString(anio)) + "."
  }

  /** Whatever the act's kind, number or year, the heading opens with the same prefix and ends with ".". */
  lemma ActHeadingShape(numero: int, anio: int)
    ensures var h := ActHeading(numero, anio);
      |h| > |HEADING_PREFIX| && h[..|HEADING_PREFIX|] == HEADING_PREFIX && h[|h| - 1] == '.'
  {
  }

  /**
   * For a year of at least two digits the heading ends in "/", the year's last
   * two digits and ".", and the act number can be read back from it.
   */
  lemma {:induction false} ActHeadingParts(numero: int, anio: int)
    requires anio >= 10
    ensures var h := ActHeading(numero, anio);
      && |h| == |HEADING_PREFIX| + |IntToString(numero)| + 4
      && h[..|HEADING_PREFIX|] == HEADING_PREFIX
      && h[|h| - 4..] == ['/', DigitChar(anio / 10 % 10), DigitChar(anio % 10), '.']
      && ParseInt(h[|HEADING_PREFIX|..|h| - 4]) == numero
  {
    LastTwoDigits(anio);
    IntToStringRoundTrip(numero);
    var h := ActHeading(numero, anio);
    var n := IntToString(numero);
    assert h == HEADING_PREFIX + n + (['/'] + [DigitChar(anio / 10 % 10), DigitChar(anio % 10)] + ['.']);
    assert h[|HEADING_PREFIX|..|h| - 4] == n;
  }

  /** The month name of the bulletin, `meses[mes - 1]`; outside 1..12 the template prints "undefined". */
  function MonthLabel(mes: int): string {
    if 1 <= mes <= 12 then MONTH_NAMES[mes - 1] else "undefined"
  }

  /** An act dated in month `mes` names, in its dateline, the month the cover names for a bulletin of month `mes`. */
  lemma DatelineMonthIsCoverMonth(day: int, mes: MonthNumber, year: int)
    ensures var s := FormatDate(Fecha(day, mes, year));
      var at := |IntToString(day)| + 4;
      at + |MonthLabel(mes)| <= |s| && s[at..at + |MonthLabel(mes)|] == MonthLabel(mes)
  {
    var d, m, y := IntToString(day), MonthLabel(mes), IntToString(year);
    assert FormatDate(Fecha(day, mes, year)) == d + " DE " + m + " DEL " + y;
    DateSlices(d, m, y);
  }

  /** The verb of the transition block. */
  function TransitionVerb(tipo: string): string {
    if tipo == RESOLUCION then "RESUELVE:" else "PROMULGA:"
  }

  // ---------------------------------------------------------------- VISTO and CONSIDERANDO

  const VISTO_INLINE_LIMIT := 180

  /** The VISTO text goes on the label's line iff it has no newline and `length < 180`. */
  predicate VistoInline(texto: string) {
    '\n' !in texto && Utf16Length(texto) < VISTO_INLINE_LIMIT
  }

  /**
   * An inline VISTO text has fewer than 180 characters; any text without a
   * line break and of fewer than 90 characters is inline, whatever it holds.
   */
  lemma VistoInlineBounds(texto: string)
    ensures VistoInline(texto) ==> |texto| < VISTO_INLINE_LIMIT
    ensures '\n' !in texto && 2 * |texto| < VISTO_INLINE_LIMIT ==> VistoInline(texto)
  {
  }

  const BULLET: char := '•'

  /** The CONSIDERANDO text is rendered as a bullet list iff it contains "•". */
  predicate HasBullets(texto: string) {
    BULLET in texto
  }

  /** `texto.split("•").map(t => t.trim()).filter(Boolean)`. */
  function BulletItems(texto: string): seq<string> {
    Pieces(texto, BULLET)
  }

  /** Every bullet item is non-empty, trimmed and holds no bullet. */
  lemma BulletItemsClean(texto: string)
    ensures var r := BulletItems(texto);
      forall k :: 0 <= k < |r| ==> r[k] != [] && BULLET !in r[k] && Trim(r[k]) == r[k]
  {
    PiecesClean(texto, BULLET);
  }

  /** A text with no bullet is one item, itself trimmed, unless it trims away. */
  lemma BulletItemsOfPlain(texto: string)
    requires BULLET !in texto
    ensures BulletItems(texto) == if Trim(texto) == [] then [] else [Trim(texto)]
  {
    PiecesWithoutSeparator(texto, BULLET);
  }

  /** The bullet items of "A • B" are those of "A" followed by those of "B", in order. */
  lemma BulletItemsAtBullet(a: string, b: string)
    ensures BulletItems(a + [BULLET] + b) == BulletItems(a) + BulletItems(b)
  {
    PiecesAtSeparator(a, b, BULLET);
  }

  // ---------------------------------------------------------------- articles

  /** `c` matches the letter `upper` under the `i` flag (ASCII case folding). */
  predicate LetterCI(c: char, upper: char)
    requires 'A' <= upper <= 'Z'
  {
    c == upper || c as int == upper as int + 32
  }

  /** `[IÍ]` under the `i` flag. */
  predicate IOrIAcute(c: char) {
    c == 'I' || c == 'i' || c == 'Í' || c == 'í'
  }

  /** `ART[IÍ]CULO`, case-insensitively, at the start of `t`. */
  predicate StartsWithArticulo(t: string) {
    |t| >= 8 && LetterCI(t[0], 'A') && LetterCI(t[1], 'R') && LetterCI(t[2], 'T') && IOrIAcute(t[3])
    && LetterCI(t[4], 'C') && LetterCI(t[5], 'U') && LetterCI(t[6], 'L') && LetterCI(t[7], 'O')
  }

  /** `[º°]`. */
  predicate IsOrdinal(c: char) {
    c == 'º' || c == '°'
  }

  /** The end of the longest run of white space starting at `i`. */
  function SpaceRun(s: string, i: nat): (j: nat)
    requires i <= |s|
    ensures i <= j <= |s|
    ensures forall k :: i <= k < j ==> IsSpace(s[k])
    ensures j == |s| || !IsSpace(s[j])
    decreases |s| - i
  {
    if i < |s| && IsSpace(s[i]) then SpaceRun(s, i + 1) else i
  }

  /** The end of the longest run of ASCII digits starting at `i`. */
  function DigitRun(s: string, i: nat): (j: nat)
    requires i <= |s|
    ensures i <= j <= |s|
    ensures forall k :: i <= k < j ==> IsDigit(s[k])
    ensures j == |s| || !IsDigit(s[j])
    decreases |s| - i
  {
    if i < |s| && IsDigit(s[i]) then DigitRun(s, i + 1) else i
  }

  /** The three capture groups of `^(ART[IÍ]CULO\s+\d+\s*[º°])(\s*(?:\.-|\.)?\s*)([\s\S]*)$`. */
  datatype ArticleMatch = ArticleMatch(numbered: string, punct: string, rest: string)

  /** The length of group 1, `ART[IÍ]CULO\s+\d+\s*[º°]`, when `t` starts with it. */
  function NumberedLength(t: string): (r: Option<nat>)
    ensures r.Some? ==> 10 < r.value <= |t| && StartsWithArticulo(t) && IsOrdinal(t[r.value - 1])
  {
    if !StartsWithArticulo(t) then None
    else
      var a := SpaceRun(t, 8);
      if a == 8 then None
      else
        var b := DigitRun(t, a);
        if b == a then None
        else
          var c := SpaceRun(t, b);
          if c == |t| || !IsOrdinal(t[c]) then None else Some(c + 1)
  }

  /** The length of group 2, `\s*(?:\.-|\.)?\s*`, at the start of `u`: greedy, ".-" tried before ".". */
  function PunctLength(u: string): (r: nat)
    ensures r <= |u|
  {
    var d := SpaceRun(u, 0);
    var e := if d + 1 < |u| && u[d] == '.' && u[d + 1] == '-' then d + 2
             else if d < |u| && u[d] == '.' then d + 1
             else d;
    SpaceRun(u, e)
  }

  /**
   * The article regular expression (flag `i`). Every quantifier is greedy and
   * the last group accepts anything, so the first greedy attempt is the match.
   */
  function MatchArticle(t: string): (r: Option<ArticleMatch>)
    ensures r.Some? ==> t == r.value.numbered + r.value.punct + r.value.rest
    ensures r.None? <==> NumberedLength(t).None?
  {
    match NumberedLength(t)
    case None => None
    case Some(g1) =>
      var g2 := g1 + PunctLength(t[g1..]);
      assert t == t[..g1] + t[g1..g2] + t[g2..];
      Some(ArticleMatch(t[..g1], t[g1..g2], t[g2..]))
  }

  /** How one entry of `articulos` is rendered. */
  datatype ArticleText =
    | Structured(heading: string, body: string)   // bold underlined heading, then the body
    | Unstructured(text: string)                   // no heading match: a plain paragraph

  /** The article entry trimmed, then split by the regular expression into a trimmed heading and body. */
  function ClassifyArticle(articulo: string): ArticleText {
    var t := Trim(articulo);
    match MatchArticle(t)
    case None => Unstructured(t)
    case Some(m) => Structured(Trim(m.numbered + m.punct), Trim(m.rest))
  }

  /**
   * An entry has a heading iff group 1 matches at the start of its trimmed
   * text, so only entries opening with ARTICULO do; heading and body are
   * trimmed, and an entry without a heading is its trimmed text.
   */
  lemma ClassifyArticleShape(articulo: string)
    ensures var r := ClassifyArticle(articulo);
      && (r.Structured? <==> NumberedLength(Trim(articulo)).Some?)
      && (r.Structured? ==> StartsWithArticulo(Trim(articulo)))
      && (r.Structured? ==> Trim(r.heading) == r.heading && Trim(r.body) == r.body)
      && (r.Unstructured? ==> r.text == Trim(articulo))
  {
    var t := Trim(articulo);
    if MatchArticle(t).Some? {
      var m := MatchArticle(t).value;
      TrimIdempotent(m.numbered + m.punct);
      TrimIdempotent(m.rest);
    }
  }

  /** An entry that does not open with "ARTICULO" (any case, with or without the accent) is a plain paragraph. */
  lemma UnstructuredUnlessArticulo(articulo: string)
    requires !StartsWithArticulo(Trim(articulo))
    ensures ClassifyArticle(articulo) == Unstructured(Trim(articulo))
  {
  }

  lemma SpaceRunIs(s: string, i: nat, j: nat)
    requires i <= j <= |s|
    requires forall k :: i <= k < j ==> IsSpace(s[k])
    requires j == |s| || !IsSpace(s[j])
    ensures SpaceRun(s, i) == j
    decreases j - i
  {
    if i < j {
      SpaceRunIs(s, i + 1, j);
    }
  }

  lemma DigitRunIs(s: string, i: nat, j: nat)
    requires i <= j <= |s|
    requires forall k :: i <= k < j ==> IsDigit(s[k])
    requires j == |s| || !IsDigit(s[j])
    ensures DigitRun(s, i) == j
    decreases j - i
  {
    if i < j {
      DigitRunIs(s, i + 1, j);
    }
  }

  const ARTICULO: string := "ARTÍCULO"

  /** "ARTÍCULO {n}º": what group 1 matches in an article an editor writes. */
  function Numbered(n: nat): string {
    ARTICULO + " " + NatToString(n) + "º"
  }

  /** Group 1 matches exactly "ARTÍCULO {n}º", whatever follows it. */
  lemma {:induction false} NumberedLengthOf(n: nat, tail: string)
    ensures NumberedLength(Numbered(n) + tail) == Some(|Numbered(n)|)
  {
    var d := NatToString(n);
    var t := Numbered(n) + tail;
    assert |ARTICULO| == 8;
    assert t[..8] == ARTICULO;
    assert t[8] == ' ';
    assert forall k :: 9 <= k < 9 + |d| ==> t[k] == d[k - 9];
    assert t[9 + |d|] == 'º';
    SpaceRunIs(t, 8, 9);
    DigitRunIs(t, 9, 9 + |d|);
    SpaceRunIs(t, 9 + |d|, 9 + |d|);
  }

  /** `s[i..j]` is all white space (`\s*`). */
  predicate AllSpace(s: string, i: nat, j: nat)
    requires i <= j <= |s|
  {
    forall k :: i <= k < j ==> IsSpace(s[k])
  }

  /** `s[i..j]` is all ASCII digits (`\d*`). */
  predicate AllDigits(s: string, i: nat, j: nat)
    requires i <= j <= |s|
  {
    forall k :: i <= k < j ==> IsDigit(s[k])
  }

  /**
   * All of `p` is one match of group 1, `ART[IÍ]CULO\s+\d+\s*[º°]` under the
   * `i` flag: the word, white space up to `a`, digits up to `b`, white space
   * up to `c`, and the ordinal mark as the last character.
   */
  predicate Group1(p: string) {
    && StartsWithArticulo(p)
    && exists a: nat, b: nat, c: nat | 8 < a < b <= c && c + 1 == |p| ::
         AllSpace(p, 8, a) && AllDigits(p, a, b) && AllSpace(p, b, c) && IsOrdinal(p[c])
  }

  /**
   * `NumberedLength` is the regular expression's group 1: what it measures is
   * a match, every prefix that matches is the one it measures (so the match
   * is unique), and it gives nothing iff no prefix matches.
   */
  lemma {:induction false} NumberedLengthIsGroup1(t: string)
    ensures NumberedLength(t).Some? ==> Group1(t[..NumberedLength(t).value])
    ensures forall k | 0 <= k <= |t| && Group1(t[..k]) :: NumberedLength(t) == Some(k)
    ensures NumberedLength(t).None? <==> forall k | 0 <= k <= |t| :: !Group1(t[..k])
  {
    if NumberedLength(t).Some? {
      var a := SpaceRun(t, 8);
      var b := DigitRun(t, a);
      var c := SpaceRun(t, b);
      var p := t[..c + 1];
      assert AllSpace(p, 8, a) && AllDigits(p, a, b) && AllSpace(p, b, c) && IsOrdinal(p[c]);
      assert StartsWithArticulo(p);
      assert Group1(p);
    }
    forall k | 0 <= k <= |t| && Group1(t[..k])
      ensures NumberedLength(t) == Some(k)
    {
      Group1Measured(t, k);
    }
  }

  /** A prefix that matches group 1 is the one `NumberedLength` measures. */
  lemma {:induction false} Group1Measured(t: string, k: nat)
    requires k <= |t| && Group1(t[..k])
    ensures NumberedLength(t) == Some(k)
  {
    var p := t[..k];
    var a: nat, b: nat, c: nat :| 8 < a < b <= c && c + 1 == |p|
      && AllSpace(p, 8, a) && AllDigits(p, a, b) && AllSpace(p, b, c) && IsOrdinal(p[c]);
    Group1Runs(t, k, a, b, c);
  }

  /** The three runs of a group 1 match, read in `t`, are where the scanner stops. */
  lemma {:induction false} Group1Runs(t: string, k: nat, a: nat, b: nat, c: nat)
    requires k <= |t| && 8 < a < b <= c && c + 1 == k && StartsWithArticulo(t[..k])
    requires AllSpace(t[..k], 8, a) && AllDigits(t[..k], a, b) && AllSpace(t[..k], b, c) && IsOrdinal(t[c])
    ensures NumberedLength(t) == Some(k)
  {
    assert StartsWithArticulo(t);
    assert IsDigit(t[a]) && !IsSpace(t[a]);
    assert forall i :: 8 <= i < a ==> IsSpace(t[i]) by {
      forall i | 8 <= i < a ensures IsSpace(t[i]) {
        assert t[i] == t[..k][i];
      }
    }
    SpaceRunIs(t, 8, a);
    assert !IsDigit(t[b]) by {
      if b < c {
        assert IsSpace(t[..k][b]);
      }
    }
    assert forall i :: a <= i < b ==> IsDigit(t[i]) by {
      forall i | a <= i < b ensures IsDigit(t[i]) {
        assert t[i] == t[..k][i];
      }
    }
    DigitRunIs(t, a, b);
    assert forall i :: b <= i < c ==> IsSpace(t[i]) by {
      forall i | b <= i < c ensures IsSpace(t[i]) {
        assert t[i] == t[..k][i];
      }
    }
    SpaceRunIs(t, b, c);
  }

  /** White space and digit counts other than one are admitted: "artículo<TAB>12 °" has a heading. */
  lemma Group1Spaced()
    ensures NumberedLength("artículo\t12 °") == Some(13)
  {
    var s := "artículo\t12 °";
    SpaceRunIs(s, 8, 9);
    DigitRunIs(s, 9, 11);
    SpaceRunIs(s, 11, 12);
  }

  /** `\s+` needs at least one white-space character: "ARTÍCULO5º" has no heading. */
  lemma Group1Glued()
    ensures NumberedLength("ARTÍCULO5º").None?
  {
    SpaceRunIs("ARTÍCULO5º", 8, 8);
  }

  /** The punctuation group 2 may hold after the ordinal mark. */
  predicate IsArticlePunct(p: string) {
    p == "" || p == "." || p == ".-"
  }

  /** A body that group 2 leaves alone: it does not start with white space, "." or "-". */
  predicate IsPlainBodyStart(body: string) {
    body == [] || (!IsSpace(body[0]) && body[0] != '.' && body[0] != '-')
  }

  /** A trimmed body that does not start with "." or "-". */
  predicate IsPlainBody(body: string) {
    Trim(body) == body && IsPlainBodyStart(body)
  }

  /** Group 2 takes the punctuation and the one space after it when a plain character or nothing follows. */
  lemma {:induction false} PunctLengthAt(u: string, punct: string)
    requires IsArticlePunct(punct)
    requires |u| > |punct| && u[..|punct|] == punct && u[|punct|] == ' '
    requires IsPlainBodyStart(u[|punct| + 1..])
    ensures PunctLength(u) == |punct| + 1
  {
    var j := |punct| + 1;
    assert j == |u| || (!IsSpace(u[j]) && u[j] != '.' && u[j] != '-');
    if punct == "" {
      SpaceRunIs(u, 0, 1);
      SpaceRunIs(u, 1, 1);
    } else if punct == "." {
      assert u[0] == '.';
      SpaceRunIs(u, 0, 0);
      SpaceRunIs(u, 1, 2);
    } else {
      assert u[0] == '.' && u[1] == '-';
      SpaceRunIs(u, 0, 0);
      SpaceRunIs(u, 2, 3);
    }
  }

  /** The punctuation alone is all of group 2. */
  lemma {:induction false} PunctLengthAlone(punct: string)
    requires IsArticlePunct(punct)
    ensures PunctLength(punct) == |punct|
  {
    SpaceRunIs(punct, 0, 0);
    SpaceRunIs(punct, |punct|, |punct|);
  }

  /** Once group 1 is "ARTÍCULO {n}º", groups 2 and 3 are read from what follows it. */
  lemma {:induction false} MatchAfterNumbered(n: nat, tail: string)
    ensures MatchArticle(Numbered(n) + tail)
      == Some(ArticleMatch(Numbered(n), tail[..PunctLength(tail)], tail[PunctLength(tail)..]))
  {
    var num := Numbered(n);
    var t := num + tail;
    NumberedLengthOf(n, tail);
    assert t[..|num|] == num;
    assert t[|num|..] == tail;
    var g2 := |num| + PunctLength(tail);
    assert t[|num|..g2] == tail[..PunctLength(tail)];
    assert t[g2..] == tail[PunctLength(tail)..];
  }

  /** The heading ends with the ordinal mark or the punctuation, so it is its own trim. */
  lemma {:induction false} HeadingIsTrimmed(n: nat, punct: string)
    requires IsArticlePunct(punct)
    ensures Trim(Numbered(n) + punct) == Numbered(n) + punct
  {
    var h := Numbered(n) + punct;
    assert h[0] == 'A';
    assert h[|h| - 1] == 'º' || h[|h| - 1] == '.' || h[|h| - 1] == '-';
    TrimmedIsFixed(h);
  }

  /** "ARTÍCULO {n}º{punct}" alone is a heading with an empty body. */
  lemma {:induction false} ArticleOfHeading(n: nat, punct: string)
    requires IsArticlePunct(punct)
    ensures ClassifyArticle(Numbered(n) + punct + " ") == Structured(Numbered(n) + punct, [])
  {
    var h := Numbered(n) + punct;
    HeadingIsTrimmed(n, punct);
    TrimPadded(h);
    MatchAfterNumbered(n, punct);
    PunctLengthAlone(punct);
    assert punct[..|punct|] == punct;
    assert punct[|punct|..] == [];
  }

  /** The same, stated for the empty body. */
  lemma {:induction false} ArticleOfEmptyBody(n: nat, punct: string, body: string)
    requires IsArticlePunct(punct) && body == []
    ensures ClassifyArticle(Numbered(n) + punct + " " + body) == Structured(Numbered(n) + punct, body)
  {
    ArticleOfHeading(n, punct);
    assert Numbered(n) + punct + " " + body == Numbered(n) + punct + " ";
  }

  /** With a body, the whole text is already trimmed and group 3 is the body. */
  lemma {:induction false} ArticleOfBody(n: nat, punct: string, body: string)
    requires IsArticlePunct(punct) && IsPlainBody(body) && body != []
    ensures ClassifyArticle(Numbered(n) + punct + " " + body) == Structured(Numbered(n) + punct, body)
  {
    var num := Numbered(n);
    var t := num + (punct + " " + body);
    assert Numbered(n) + punct + " " + body == t;
    BodyTextIsTrimmed(n, punct, body);
    MatchOfBody(n, punct, body);
    HeadingWithSpace(n, punct);
    ClassifyOfMatch(t, ArticleMatch(num, punct + " ", body));
  }

  /** Groups 1 and 2 together trim to the heading. */
  lemma {:induction false} HeadingWithSpace(n: nat, punct: string)
    requires IsArticlePunct(punct)
    ensures Trim(Numbered(n) + (punct + " ")) == Numbered(n) + punct
  {
    HeadingIsTrimmed(n, punct);
    TrimPadded(Numbered(n) + punct);
    assert Numbered(n) + (punct + " ") == (Numbered(n) + punct) + " ";
  }

  lemma {:induction false} MatchOfBody(n: nat, punct: string, body: string)
    requires IsArticlePunct(punct) && IsPlainBodyStart(body)
    ensures MatchArticle(Numbered(n) + (punct + " " + body)) == Some(ArticleMatch(Numbered(n), punct + " ", body))
  {
    var tail := punct + " " + body;
    assert tail[..|punct|] == punct && tail[|punct|] == ' ' && tail[|punct| + 1..] == body;
    PunctLengthAt(tail, punct);
    MatchAfterNumbered(n, tail);
    assert tail[..|punct| + 1] == punct + " ";
    assert tail[|punct| + 1..] == body;
  }

  lemma ClassifyOfMatch(t: string, m: ArticleMatch)
    requires Trim(t) == t && MatchArticle(t) == Some(m)
    ensures ClassifyArticle(t) == Structured(Trim(m.numbered + m.punct), Trim(m.rest))
  {
  }

  /** An article that starts with "A" and ends with a trimmed body is its own trim. */
  lemma {:induction false} BodyTextIsTrimmed(n: nat, punct: string, body: string)
    requires body != [] && Trim(body) == body
    ensures Trim(Numbered(n) + (punct + " " + body)) == Numbered(n) + (punct + " " + body)
  {
    var t := Numbered(n) + (punct + " " + body);
    assert t[0] == 'A';
    assert t[|t| - 1] == body[|body| - 1];
    TrimmedIsFixed(t);
  }

  /**
   * The heading regular expression takes apart what an editor writes: for
   * "ARTÍCULO {n}º{punct} {body}" the heading is "ARTÍCULO {n}º{punct}" and the
   * body is the trimmed body, provided the body does not itself start with
   * white space, "." or "-" (which the punctuation group would absorb).
   */
  lemma {:induction false} ArticleOfParts(n: nat, punct: string, body: string)
    requires IsArticlePunct(punct) && IsPlainBody(body)
    ensures ClassifyArticle(Numbered(n) + punct + " " + body) == Structured(Numbered(n) + punct, body)
  {
    if body == [] {
      ArticleOfEmptyBody(n, punct, body);
    } else {
      ArticleOfBody(n, punct, body);
    }
  }

  /** "a)", "B)": a body line that opens a sub-item, `/^[a-z]\)/i`. */
  predicate IsSubItem(linea: string) {
    |linea| >= 2 && IsAsciiLetter(linea[0]) && linea[1] == ')'
  }

  /**
   * With the `i` flag, a line opening with one letter and ")" is a sub-item
   * whether the letter is lower or upper case; any other first character is not.
   */
  lemma SubItemEitherCase(c: char, rest: string)
    ensures IsSubItem([c, ')'] + rest) <==> ('a' <= c <= 'z' || 'A' <= c <= 'Z')
    ensures forall d :: IsSubItem([c] + [d] + rest) ==> d == ')'
  {
  }

  /** The body split on line breaks, trimmed, empty lines dropped (`split(/\r?\n/)`: trimming also removes the `\r`). */
  function ArticleLines(cuerpo: string): seq<string> {
    Pieces(cuerpo, '\n')
  }

  /** Every body line is non-empty, trimmed and a single line. */
  lemma ArticleLinesClean(cuerpo: string)
    ensures var r := ArticleLines(cuerpo);
      forall k :: 0 <= k < |r| ==> r[k] != [] && '\n' !in r[k] && Trim(r[k]) == r[k]
  {
    PiecesClean(cuerpo, '\n');
  }
}
