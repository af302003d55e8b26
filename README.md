# Boletín Oficial de San Isidro — a Dafny model

This project models two parts of the Official Bulletin application of the
Municipalidad de San Isidro (Corrientes):

* **The PDF layout engine** of the `generar-pdf` route. It is a single pass
  over the selected legal acts. One vertical cursor (`currentY`) and a page
  count are updated by every helper (`ensureSpace`, `addText`,
  `drawSeparatorLine`, `drawTituloSeccion`), and the drawing goes into a
  jsPDF document. The engine draws:
  * the blue cover;
  * page 2 onwards: the acts, promulgations first and then resolutions, each
    section opened by its banner (the resolutions always on a fresh page),
    with a separator between two acts of the same section;
  * for each act: the right-aligned dateline, the heading
    `RESOLUCIÓN D.E.M. Nº{n}/{yy}.`, the wrapped title, VISTO (on the label's
    line when it is short), CONSIDERANDO (a paragraph or a bullet list), the
    "POR ELLO" block with RESUELVE/PROMULGA, the articles (a regular
    expression splits each into a heading and a body, and `a)` lines are
    sub-items) and the closing formula;
  * finally a second pass that stamps the footers, numbering the content
    pages from 1 and skipping the cover.
* **The bulletin lifecycle** of the server actions. Bulletins (`boletines`)
  carry `activo` and `cerrado` flags, and acts (`resoluciones`) point to
  their bulletin. The actions are: creating a bulletin (one per month),
  activating one, closing it, deleting it, and creating, editing and deleting
  acts under guards that turn a closed bulletin into an archive. They also
  group the bulletin list by year and split one bulletin's acts by kind.

Modules:

* `Page` holds the geometry, in integer tenths of a millimetre: the 20 mm
  margin is 200, the 27.8 mm header is 278, the 25 mm footer is 250, and a
  font size `s` advances `5 * s`. It also holds the document value
  `State(pages, y, log)` and the cursor primitives. The jsPDF document is a
  log of `Header`, `Text`, `Rule` and `Footer` items. Text measurement
  (`getTextWidth`) and wrapping (`splitTextToSize`) are the uninterpreted
  functions of a `Metrics` value.
* `Classify` holds the pure text decisions: the date and heading strings,
  the VISTO same-line rule, the bullet split, the article expression
  `^(ART[IÍ]CULO\s+\d+\s*[º°])(\s*(?:\.-|\.)?\s*)([\s\S]*)$` with flag `i`,
  and the sub-item test.
* `Layout` has one function per block of an act. `Sections` has the act
  order, the section flags, the banners, the separator, the cover, the
  footers and the whole document.
* `Render` is the route as it runs: the class `Pdf`, whose fields are
  updated in place by methods with loops. Each method is proved to leave
  exactly the state the matching function describes.
* `Bulletins` holds the server actions: a `Store` class whose two tables are
  maps updated in place, plus the pure listing functions. `Acts`, `Strings`
  and `Wrappers` hold the shared act record, JavaScript's string operations
  (`trim`, `split`, `toUpperCase`, number printing) and the option types.

Three details of the code that the model keeps as written:

* The act heading always starts `RESOLUCIÓN D.E.M.`, whatever the act's kind.
* Sub-item lines match `/^[a-z]\)/i`, so upper-case letters count too.
* For `ARTÍCULO 1º (Foo). Bar baz.` the expression gives the heading
  `ARTÍCULO 1º` and the body `(Foo). Bar baz.`: a parenthesised caption after
  the ordinal mark belongs to the body.

The model also keeps these behaviours of the code:

* The dateline is drawn before `ensureSpace(12)`.
* Three same-line loops never test for a page break: VISTO, the bullet lines
  and the first body line of an article. `Page.FlowUnchecked` shows that
  they place every line on the current page, so no "cursor stays above the
  limit" invariant is claimed.
* The separator's overflow branch only starts a new page and draws no rule.
* An act list with no promulgation or resolution still yields a cover and
  one empty content page.

## Model

| member | source | states |
|---|---|---|
| Page.Limit | src/app/api/boletin/generar-pdf/route.ts:96-104 | The printable limit `pageHeight - margin - footerHeight` leaves at least 200 mm below the top of the content area on both formats |
| Page.ContentWidth | src/app/api/boletin/generar-pdf/route.ts:96-99 | `pageWidth - 2 * margin` is positive |
| Page.EnsureSpace | src/app/api/boletin/generar-pdf/route.ts:103-109 | If `currentY + h` passes the limit, exactly one page and its header are added and the cursor goes to the top. Otherwise nothing changes. Afterwards `h` fits whenever it fits on a fresh page |
| Page.LineTexts | src/app/api/boletin/generar-pdf/route.ts:412-421 | One wrapped line appends its text to the log, after at most one page break, and removes nothing |
| Page.FlowTexts | src/app/api/boletin/generar-pdf/route.ts:411-421 | `Page.Flow`, a wrap loop, draws exactly the lines the wrapper returned, all of them, in order, and only appends to the log |
| Page.FlowUnchecked | src/app/api/boletin/generar-pdf/route.ts:586-589 | `Page.Flow`: a same-line loop without a break test puts line `i` on the current page at `y + i * adv` and moves the cursor down by `lines * adv`, whatever the limit |
| Page.FlowChecked | src/app/api/boletin/generar-pdf/route.ts:411-421 | `Page.Flow`: with a break test before each line (`addText`, the title, the plain CONSIDERANDO), every drawn line stands at least the reserve above the limit, and each line adds at most one page |
| Page.Placed | src/app/api/boletin/generar-pdf/route.ts:795-798 | The unchecked placement has one item per wrapped line |
| Strings.Trim | src/app/api/boletin/generar-pdf/route.ts:537 | `trim` returns a slice of its input with no white space at either end |
| Strings.TrimIdempotent | src/app/api/boletin/generar-pdf/route.ts:751 | Trimming twice is trimming once |
| Strings.JoinSplit | src/app/api/boletin/generar-pdf/route.ts:644-647 | `split` on a separator can be undone by joining with that separator |
| Strings.PiecesClean | src/app/api/boletin/generar-pdf/route.ts:644-647 | `split(sep).map(trim).filter(Boolean)` yields only non-empty, trimmed pieces without the separator |
| Strings.ToUpper | src/app/api/boletin/generar-pdf/route.ts:537 | `toUpperCase` leaves no ASCII lower-case letter and at most doubles the length |
| Strings.IntToStringRoundTrip | src/app/api/boletin/generar-pdf/route.ts:523 | The decimal text of a number reads back as that number |
| Strings.LastTwoDigits | src/app/api/boletin/generar-pdf/route.ts:522 | `anio.toString().slice(-2)` of a year of two or more digits is its last two digits |
| Strings.Utf16Length | src/app/api/boletin/generar-pdf/route.ts:580 | `length` counts UTF-16 units: between one and two per character |
| Acts.OfTipo | src/app/api/boletin/generar-pdf/route.ts:425-430 | `filter(r => r.tipo === t)` keeps exactly the acts of kind `t` |
| Acts.OfTipoAppend | src/app/api/boletin/generar-pdf/route.ts:425-430 | Filtering distributes over concatenation, so it keeps relative order |
| Acts.OfTipoLength | src/app/actions.ts:112-114 | A filter holds as many acts as there are of its kind |
| Acts.HasTipoSnoc | src/app/api/boletin/generar-pdf/route.ts:823-828 | An act of a kind has been printed after act `i` iff one had been printed before it or act `i` is of that kind |
| Classify.FormatDateParts | src/app/api/boletin/generar-pdf/route.ts:377-394 | `formatDate` gives "{day} DE {MONTH} DEL {year}": the day and the year read back from it and the month is the upper-case name |
| Classify.ActHeadingShape | src/app/api/boletin/generar-pdf/route.ts:520-523 | Whatever the act's kind, number or year, the heading opens with `RESOLUCIÓN D.E.M. Nº` and ends with `.` |
| Classify.ActHeadingParts | src/app/api/boletin/generar-pdf/route.ts:522-523 | The heading is the literal `RESOLUCIÓN D.E.M. Nº`, the act number (readable back), `/`, the year's last two digits and `.` |
| Classify.DatelineMonthIsCoverMonth | src/app/api/boletin/generar-pdf/route.ts:73-87 | `MonthLabel`: an act dated in month m names in its dateline (`formatDate`, lines 377-394) the same upper-case month the cover names for a bulletin of month m |
| Classify.BulletItemsClean | src/app/api/boletin/generar-pdf/route.ts:644-647 | Every CONSIDERANDO bullet item is non-empty, trimmed and free of `•` |
| Classify.BulletItemsOfPlain | src/app/api/boletin/generar-pdf/route.ts:644-647 | A text without `•` splits into itself, trimmed, or into nothing if it trims away |
| Classify.BulletItemsAtBullet | src/app/api/boletin/generar-pdf/route.ts:644-647 | The items of `A • B` are the items of `A` followed by those of `B`, in original order |
| Classify.MatchArticle | src/app/api/boletin/generar-pdf/route.ts:756-758 | On a match the three groups concatenate back to the entry. There is no match iff group 1 (`ART[IÍ]CULO\s+\d+\s*[º°]`) does not match at the start |
| Classify.NumberedLengthIsGroup1 | src/app/api/boletin/generar-pdf/route.ts:757 | `NumberedLength`: what it measures is a whole match of group 1 (`ART[IÍ]CULO\s+\d+\s*[º°]`, flag `i`, stated independently as `Group1`); every matching prefix is the one it measures, so the match is unique; it gives none iff no prefix matches |
| Classify.Group1Spaced | src/app/api/boletin/generar-pdf/route.ts:757 | Lower case, a tab, two digits and a space before the mark still make a heading |
| Classify.Group1Glued | src/app/api/boletin/generar-pdf/route.ts:757 | A number glued to the word makes no heading |
| Classify.VistoInlineBounds | src/app/api/boletin/generar-pdf/route.ts:580 | The same-line test (no newline and `length < 180`) only admits texts of fewer than 180 characters, and admits every text without a newline of fewer than 90 |
| Classify.ClassifyArticleShape | src/app/api/boletin/generar-pdf/route.ts:750-767 | `Classify.ClassifyArticle`: an entry gets a heading iff group 1 matches at the start of its trimmed text, so only entries opening with ARTICULO do. Heading and body are trimmed, and an entry without a heading is its trimmed text |
| Classify.UnstructuredUnlessArticulo | src/app/api/boletin/generar-pdf/route.ts:756-764 | An entry not opening with ARTICULO falls back to a plain paragraph of its trimmed text, without error |
| Classify.MatchAfterNumbered | src/app/api/boletin/generar-pdf/route.ts:756-758 | After `ARTÍCULO {n}º`, group 2 is the greedy punctuation run and group 3 is the rest |
| Classify.ArticleOfParts | src/app/api/boletin/generar-pdf/route.ts:756-767 | `ARTÍCULO {n}º{punct} {body}` splits into the trimmed heading `ARTÍCULO {n}º{punct}` and the trimmed body |
| Classify.SubItemEitherCase | src/app/api/boletin/generar-pdf/route.ts:804 | `/^[a-z]\)/i`: a line opening with one letter of either case and `)` is a sub-item, and no other first character makes one |
| Classify.ArticleLinesClean | src/app/api/boletin/generar-pdf/route.ts:780-783 | The body's lines (split on line breaks, trimmed, empties dropped) are non-empty, trimmed and single-line |
| Layout.EnsureSpaceShows | src/app/api/boletin/generar-pdf/route.ts:103-109 | A page break adds a header and no text |
| Layout.VistoShows | src/app/api/boletin/generar-pdf/route.ts:559-598 | `Layout.VistoBlock`: the VISTO block shows the label and then the text's lines: inline when it has no newline and fewer than 180 units, else wrapped at 10 pt below |
| Layout.VistoSameLine | src/app/api/boletin/generar-pdf/route.ts:579-590 | A short VISTO text's first line is on the label's page and baseline, 2 mm right of the label |
| Layout.VistoBelow | src/app/api/boletin/generar-pdf/route.ts:559-597 | A VISTO text with a newline or of 180 units or more starts on the label's page, 6 mm below it at the margin; the 14 mm reserved before the label always leaves room for that line |
| Layout.BulletsShows | src/app/api/boletin/generar-pdf/route.ts:649-678 | The bullet list shows, item by item in order, the mark and then the item's lines |
| Layout.ConsiderandoShows | src/app/api/boletin/generar-pdf/route.ts:600-682 | `Layout.ConsiderandoBlock`: the CONSIDERANDO block shows its label, then its paragraph or, when the text holds `•`, its bullet list |
| Layout.BodyLinesShows | src/app/api/boletin/generar-pdf/route.ts:802-812 | `Layout.BodyLines`: the body lines after the first are each wrapped and shown in order |
| Layout.ArticleBodyShows | src/app/api/boletin/generar-pdf/route.ts:766-812 | A structured article shows its heading, the first line's pieces beside it, then the other lines |
| Layout.ArticleShows | src/app/api/boletin/generar-pdf/route.ts:750-815 | `Layout.ArticleBlock`: an article shows its plain paragraph, or its heading followed by its body's lines |
| Layout.ArticlesShows | src/app/api/boletin/generar-pdf/route.ts:749-815 | The articles show in order |
| Layout.TransitionTogether | src/app/api/boletin/generar-pdf/route.ts:688-746 | After the 40 mm test, "POR ELLO,", the mayor's line and the verb are drawn on one page, at +10, +22 and +32 mm, and the cursor ends 46 mm lower |
| Layout.TransitionShows | src/app/api/boletin/generar-pdf/route.ts:684-746 | `Layout.TransitionBlock`: the transition shows "POR ELLO,", the mayor's line and RESUELVE/PROMULGA |
| Layout.OpeningShows | src/app/api/boletin/generar-pdf/route.ts:510-557 | An act opens with its dateline, its heading and its title lines |
| Layout.GroundsShows | src/app/api/boletin/generar-pdf/route.ts:559-682 | VISTO then CONSIDERANDO, each only when present |
| Layout.CierreShows | src/app/api/boletin/generar-pdf/route.ts:817-821 | `Layout.CierreBlock`: the closing formula, when present, is shown upper-cased |
| Layout.DecisionShows | src/app/api/boletin/generar-pdf/route.ts:684-821 | The transition, the articles and the closing formula, in order |
| Layout.ActShows | src/app/api/boletin/generar-pdf/route.ts:510-821 | One act shows all its texts in reading order and never removes a page |
| Sections.Reorder | src/app/api/boletin/generar-pdf/route.ts:424-431 | The printed list has as many acts as there are promulgations and resolutions among those received |
| Sections.ReorderMembers | src/app/api/boletin/generar-pdf/route.ts:424-431 | The printed acts are exactly the received promulgations and resolutions; other kinds are dropped |
| Sections.ReorderGrouped | src/app/api/boletin/generar-pdf/route.ts:424-431 | Every promulgation comes before every resolution |
| Sections.ReorderKeepsOrder | src/app/api/boletin/generar-pdf/route.ts:424-431 | Each section keeps the order in which its acts were received |
| Sections.FlagsAfterIs | src/app/api/boletin/generar-pdf/route.ts:469-474 | At every loop head each banner flag and each seen flag says whether an act of its kind was printed before |
| Sections.FlagsStep | src/app/api/boletin/generar-pdf/route.ts:823-828 | The flags after act `i` are those before it updated with act `i` |
| Sections.BannerIffFirst | src/app/api/boletin/generar-pdf/route.ts:485-499 | A banner precedes act `i` iff it is the first of its kind, and it names that act's section; so each banner appears at most once |
| Sections.SeparatorIffEarlier | src/app/api/boletin/generar-pdf/route.ts:503-508 | A separator precedes act `i` iff an earlier act has its kind, so never before a section's first act |
| Sections.ResolucionesOnFreshPage | src/app/api/boletin/generar-pdf/route.ts:488-499 | The first resolution always gets a new page, its header, the department line at the top and the RESOLUCIONES caption, with no separator, whatever space remained |
| Sections.SeparatorFits | src/app/api/boletin/generar-pdf/route.ts:339-366 | `Sections.Separator`: the separator stays on the page iff `currentY + 6 + 18` mm fits under the limit. Then it draws a rule 6 mm below the cursor and moves 18 mm. Otherwise it only adds a page with its header and puts the cursor at the top |
| Sections.SeparatorShows | src/app/api/boletin/generar-pdf/route.ts:339-366 | A separator adds no text |
| Sections.BannerShows | src/app/api/boletin/generar-pdf/route.ts:434-467 | `Sections.Banner`: a banner shows the department line and then its caption, never breaks a page and moves the cursor 24 mm |
| Sections.LeadShows | src/app/api/boletin/generar-pdf/route.ts:484-508 | `Sections.Lead`: what precedes an act shows the banner's two lines before a section's first act and nothing otherwise |
| Sections.BodyStep | src/app/api/boletin/generar-pdf/route.ts:477-829 | Printing act `i` after its lead, with the flags of the acts before it, gives the document of the first `i + 1` acts |
| Sections.BodyShows | src/app/api/boletin/generar-pdf/route.ts:477-829 | The body shows, act after act, each opening banner and the act's texts |
| Sections.CoverNamesIssue | src/app/api/boletin/generar-pdf/route.ts:57-71 | The cover's year and number read back as the named bulletin's, and its month label is that bulletin's month; without a bulletin they are the current year, number 1 and the current month |
| Sections.CoverLines | src/app/api/boletin/generar-pdf/route.ts:164-178 | The fourth cover line holds the year and the number, each readable back, and the fifth ends with the month label |
| Sections.CoverShows | src/app/api/boletin/generar-pdf/route.ts:111-182 | The cover shows its five texts in order, all centred on the cover page |
| Sections.FootersNumbered | src/app/api/boletin/generar-pdf/route.ts:831-842 | `Sections.Footers`: the cover gets no footer, and pages 2..N get numbers 1..N-1 in order, with no gaps or repeats |
| Sections.DocumentError | src/app/api/boletin/generar-pdf/route.ts:21-26 | `Sections.Document`: the answer is an error iff no act was selected, and then its status is 400 |
| Sections.FinishShows | src/app/api/boletin/generar-pdf/route.ts:831-842 | The footer pass adds no text, and a document grown from the start has at least two pages |
| Sections.DocumentShows | src/app/api/boletin/generar-pdf/route.ts:368-842 | `Sections.Document`: a document shows the cover texts, then each banner and each act's texts in section order. It has at least two pages and ends with the footers |
| Render.Pdf.constructor | src/app/api/boletin/generar-pdf/route.ts:90-101 | A new document has one page, an empty log and the cursor at the top |
| Render.Pdf.AddPage | src/app/api/boletin/generar-pdf/route.ts:372-374 | Adds a page with its header and puts the cursor at the top |
| Render.Pdf.EnsureSpace | src/app/api/boletin/generar-pdf/route.ts:103-109 | Updates the document as `Page.EnsureSpace` describes |
| Render.Pdf.TextAt | src/app/api/boletin/generar-pdf/route.ts:139-141 | Appends one text at an explicit baseline on the current page |
| Render.Pdf.DrawText | src/app/api/boletin/generar-pdf/route.ts:419 | Appends one text at the cursor |
| Render.Pdf.MoveDown | src/app/api/boletin/generar-pdf/route.ts:420 | Moves the cursor down |
| Render.Pdf.WriteLines | src/app/api/boletin/generar-pdf/route.ts:412-421 | The wrapped-line loop leaves the document as `Page.Flow` of the lines |
| Render.Pdf.AddText | src/app/api/boletin/generar-pdf/route.ts:397-422 | `addText` wraps to the content width and flows the lines with a break test before each |
| Render.Pdf.DrawCover | src/app/api/boletin/generar-pdf/route.ts:111-182 | Appends the five cover texts |
| Render.Pdf.DrawTituloSeccion | src/app/api/boletin/generar-pdf/route.ts:434-467 | Draws the banner and moves the cursor 24 mm down |
| Render.Pdf.DrawSeparatorLine | src/app/api/boletin/generar-pdf/route.ts:339-366 | Updates the document as `Sections.Separator` describes |
| Render.Pdf.StampFooters | src/app/api/boletin/generar-pdf/route.ts:831-842 | The footer loop appends `Footers(pages)`: every page but the cover, numbered from 1 |
| Render.Pdf.RenderOpening | src/app/api/boletin/generar-pdf/route.ts:510-557 | Dateline, heading and title loop as `Layout.ActOpening` |
| Render.Pdf.RenderVisto | src/app/api/boletin/generar-pdf/route.ts:559-598 | The VISTO block as `Layout.VistoBlock` |
| Render.Pdf.RenderBullets | src/app/api/boletin/generar-pdf/route.ts:649-678 | The bullet loop as `Layout.Bullets` |
| Render.Pdf.RenderConsiderando | src/app/api/boletin/generar-pdf/route.ts:600-682 | The CONSIDERANDO block as `Layout.ConsiderandoBlock` |
| Render.Pdf.RenderTransition | src/app/api/boletin/generar-pdf/route.ts:684-746 | The transition as `Layout.TransitionBlock` |
| Render.Pdf.RenderBodyLines | src/app/api/boletin/generar-pdf/route.ts:802-812 | The body-line loop as `Layout.BodyLines` |
| Render.Pdf.RenderArticle | src/app/api/boletin/generar-pdf/route.ts:750-815 | One article as `Layout.ArticleBlock` |
| Render.Pdf.RenderArticles | src/app/api/boletin/generar-pdf/route.ts:749-815 | The article loop, each entry classified, as `Layout.Articles` |
| Render.Pdf.RenderDecision | src/app/api/boletin/generar-pdf/route.ts:684-821 | Transition, articles and closing formula as `Layout.ActDecision` |
| Render.Pdf.RenderAct | src/app/api/boletin/generar-pdf/route.ts:510-821 | One act as `Layout.ActBody` |
| Render.Pdf.DrawLead | src/app/api/boletin/generar-pdf/route.ts:484-508 | The banner and separator decisions from the four flags, as `Sections.Lead` |
| Render.Pdf.RenderActs | src/app/api/boletin/generar-pdf/route.ts:469-829 | The act loop with its four flags leaves the document as `Sections.Body` of the ordered acts |
| Render.GenerarPdf | src/app/api/boletin/generar-pdf/route.ts:7-27 | The route answers exactly `Sections.Document`: 400 for no acts, else cover, body and footers |
| Bulletins.MesNombre | src/app/actions.ts:7-21 | `MESES[mes]` is "" for 0, a month name for 1..12 and undefined outside 0..12 |
| Bulletins.MesNombreUpper | src/app/actions.ts:7-21 | The bulletin month names upper-case to the PDF's month names |
| Bulletins.MesTexto | src/app/actions.ts:139 | The month in the duplicate error upper-cases to the PDF's month name for 1..12. It is empty for 0 and `undefined` outside the array |
| Bulletins.CoverMonthIsListMonth | src/app/actions.ts:7-21 | For 1..12 the PDF cover's month label (route.ts `meses`) is the list's `MESES` name upper-cased, and so is the duplicate error's month; outside 0..12 all print `undefined`; for 0 the cover prints `undefined` where the list prints nothing |
| Bulletins.GroupByYearBuckets | src/app/actions.ts:52-62 | `Bulletins.GroupByYear`: the buckets are exactly the years present, and each bucket is the list filtered by its year, in list order |
| Bulletins.GroupByYearPlacement | src/app/actions.ts:52-62 | Every bulletin is in its own year's bucket and in no other |
| Bulletins.GetBoletines | src/app/actions.ts:25-68 | A failed query gives an empty list and no groups. Otherwise each row gets its month name, flags and act count, and the grouping is the list filtered by year |
| Bulletins.GetBoletin | src/app/actions.ts:70-116 | null iff the bulletin is missing; otherwise its fields and month name |
| Bulletins.GetBoletinPartition | src/app/actions.ts:97-114 | The ordinances, promulgations and resolutions are the acts of each kind in query order, the totals count them, and no act is in two lists |
| Bulletins.CountKinds | src/app/actions.ts:97-114 | The three totals add up to the number of acts iff every act has one of the three kinds |
| Bulletins.Duplicado | src/app/actions.ts:136-141 | The duplicate error names the month and ends with the year |
| Bulletins.SingleActive | src/app/actions.ts:309-318 | With at most one active bulletin, the lookup that wants a single row finds it whenever one exists |
| Bulletins.SingleMonth | src/app/actions.ts:128-141 | With one bulletin per month, the existence check that wants a single row finds it whenever one exists |
| Bulletins.Deactivated | src/app/actions.ts:143-149 | Clearing `activo` leaves no bulletin active and changes nothing else |
| Bulletins.CreateKeepsValid | src/app/actions.ts:128-161 | Creating for a month with no bulletin, under a fresh key, keeps one bulletin per month and at most one active |
| Bulletins.CreateActive | src/app/actions.ts:143-161 | After an active create the new bulletin is the only active one |
| Bulletins.ArchiveSameClosed | src/app/actions.ts:389-402 | The archive depends only on which bulletins are closed |
| Bulletins.Store.CrearBoletin | src/app/actions.ts:120-178 | An existing month fails with the duplicate error and no change. Otherwise others are deactivated when `activo`, and the row is inserted, unless its key is taken, which fails after the deactivation. Afterwards an active new row is the only active one, the invariant is kept and the archive is unchanged |
| Bulletins.Store.ActivarBoletin | src/app/actions.ts:180-201 | Afterwards exactly the target is active (none if it is missing), nothing else changes, and the invariant is kept |
| Bulletins.Store.CerrarBoletin | src/app/actions.ts:203-242 | Fails with no change if the bulletin is missing, active or already closed. Otherwise it sets only `cerrado`, and the bulletin's acts join the archive |
| Bulletins.Store.EliminarBoletin | src/app/actions.ts:244-286 | Fails with no change if the bulletin is closed or has acts. Otherwise it removes only that row |
| Bulletins.Store.CrearResolucion | src/app/actions.ts:290-362 | With no bulletin id, the act goes to the single active bulletin, or to none. A closed target fails with no change. Otherwise the act is inserted, and the archive is unchanged |
| Bulletins.Store.EditarResolucion | src/app/actions.ts:364-428 | Fails with no change when the act's bulletin is closed. Otherwise it replaces every field but the bulletin, so the archive is unchanged |
| Bulletins.Store.EliminarResolucion | src/app/actions.ts:430-466 | Fails with no change when the act's bulletin is closed. Otherwise it removes only that act |

## Left out

- Database access. The act query and its `orderBy`, the bulletin lookup of the route and the Supabase calls of the actions are replaced by parameters and by the two maps of `Store`. The query orders become the order of the input sequences.
- Failures of the database itself: the "Error al activar/cerrar/eliminar boletín", "Error al actualizar/eliminar resolución" and `console.error` paths. The two insert failures are modelled as a taken key.
- `revalidatePath`, `updated_at` and the clock. Today's year and month are parameters of `GenerarPdf`, and the generated keys are parameters of the create actions.
- Logo loading with its fallbacks, the images, colours, line widths, underlines, circles and boxes of the PDF, and the inner texts of the header and footer bands. `Header` and `Footer` items stand for the bands.
- Font metrics: `getTextWidth` and `splitTextToSize` are uninterpreted. Only their use (which text, font and width) is modelled.
- PDF serialisation, the response headers and the 500 answer of the route's `catch`.
- `JSON.parse` of `articulos`: acts carry the parsed list of article strings.
- JavaScript `Date` parsing and time zones: dates are day, month and year integers.
- Font state: the Text items record no font. The source sets the font once before `addText`'s loop and once before the plain CONSIDERANDO loop, and a page break inside those loops calls `drawHeader`, which leaves 9 pt normal. So the lines drawn after such a break come out at 9 pt and not bold, the closing formula included. The model does not capture this change of size and weight.
- Concurrency: each server action is one atomic step of a sequential `Store`. In the source, the check and the writes of an action are separate database calls. Two `crearBoletin` calls for the same month can both pass the month check, and `crearBoletin` with `activo` racing `activarBoletin` can leave two bulletins active. The `Valid()` preservation of `Store.CrearBoletin` and `Store.ActivarBoletin` holds only when actions do not interleave.
- Strings.ToUpper: does not model `toUpperCase` beyond Basic Latin and Latin-1, because the acts' texts are Spanish.
- Bulletins.Store.CrearResolucion: an empty `boletinId` string, which the source treats like a missing one, is represented by `None` rather than modelled as a separate case.
- Bulletins.GetBoletines: the act count comes with each row as the query's aggregate rather than being computed from the act table.
