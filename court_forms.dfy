/**
 * `VercelPDFGenerator` from guardianship-forms/lib/vercel-pdf-generator.ts:
 * the template loader and the four form generators, written as the source
 * writes them — a `y` cursor lowered statement by statement while text is
 * appended to a fresh 612 x 792 page. Each generator is proved to draw
 * exactly the header, body and footer that `CourtLayout` describes; the
 * layout lemmas there then say what the drawn page looks like.
 *
 * The PDF bytes a generator returns are the serialisation of its page; here
 * a generator returns the page's draws. The revision year printed in the
 * footers (`new Date().getFullYear()`) is a parameter.
 */
module CourtForms {
  import opened JsText
  import opened PdfLib
  import opened CourtLayout

  /** What the file system holds at a template path: a PDF with its page count, or bytes pdf-lib cannot load. */
  datatype TemplateFile = Unreadable | Pdf(pageCount: nat)

  /** `PDFDocument`: a fresh empty document, or the template that was loaded. */
  datatype Document = Created | Loaded(path: string, pageCount: nat)

  // ------------------------------------------------------------ drawing steps

  /** `if (value) { drawText(caption, bold); drawText(value); y -= step; }` */
  method DrawOptionalRow(page: Page, caption: string, lx: int, value: string, vx: int, y: int, step: int)
    returns (next: int)
    modifies page`draws
    ensures page.draws == old(page.draws) + OptionalRow(caption, lx, value, vx, y, step).draws
    ensures next == OptionalRow(caption, lx, value, vx, y, step).next
  {
    next := y;
    if value != "" {
      page.DrawText(caption, lx, y, 9, true);
      page.DrawText(value, vx, y, 9, false);
      next := y - step;
    }
  }

  /** `if (answer) { drawText(answer.substring(0, 250)); y -= step; }` */
  method DrawExplanation(page: Page, answer: string, y: int, step: int) returns (next: int)
    modifies page`draws
    ensures page.draws == old(page.draws) + Explanation(answer, y, step).draws
    ensures next == Explanation(answer, y, step).next
  {
    next := y;
    if answer != "" {
      page.DrawText(Prefix(answer, 250), 60, y, 8, false);
      next := y - step;
    }
  }

  /** `if (address) { drawText('Current Address:'); addressLines.forEach(...) }` */
  method DrawAddressBlock(page: Page, address: string, y: int) returns (next: int)
    modifies page`draws
    ensures page.draws == old(page.draws) + AddressBlock(address, y).draws
    ensures next == AddressBlock(address, y).next
  {
    next := y;
    if address != "" {
      page.DrawText("Current Address:", 50, y, 9, true);
      next := DrawAddressLines(page, address, y);
    }
  }

  /** A caption in bold and its value beside it, drawn whether or not the value is empty. */
  method DrawRow(page: Page, caption: string, lx: int, value: string, vx: int, y: int)
    modifies page`draws
    ensures page.draws == old(page.draws) + Row(caption, lx, value, vx, y)
  {
    page.DrawText(caption, lx, y, 9, true);
    page.DrawText(value, vx, y, 9, false);
  }

  /** `if (value) { drawText(value); y -= 12; }`, for one attorney line: `line` is empty when the answer is. */
  method DrawAttorneyLine(page: Page, line: seq<Entry>, y: int) returns (next: int)
    requires |line| <= 1
    modifies page`draws
    ensures page.draws == old(page.draws) + Stack(line, 40, y, 12)
    ensures next == y - 12 * |line|
  {
    next := y;
    if line != [] {
      page.DrawText(line[0].text, 40, y, line[0].size, line[0].bold);
      next := y - 12;
    }
    assert Stack(line, 40, y, 12) == if line == [] then [] else [Text(line[0].text, 40, y, line[0].size, line[0].bold)];
  }

  /** One line per attorney answer present, 12 points apart: the stack `AttorneyBlock` describes. */
  method DrawAttorney(page: Page, data: CourtFormData, y: int) returns (next: int)
    modifies page`draws
    ensures page.draws == old(page.draws) + AttorneyBlock(data, y).draws
    ensures next == AttorneyBlock(data, y).next
  {
    hide Stack, Field, OptionalEntry;
    var name := Field(data, "attorney_name");
    var bar := Field(data, "attorney_bar_number");
    var phone := Field(data, "attorney_phone");
    var email := Field(data, "attorney_email");
    var e1 := OptionalEntry(name, Entry(name, 9, true));
    var e2 := OptionalEntry(bar, Entry("State Bar No. " + bar, 8, false));
    var e3 := OptionalEntry(phone, Entry(phone, 8, false));
    var e4 := OptionalEntry(email, Entry(email, 8, false));
    var y1 := DrawAttorneyLine(page, e1, y);
    var y2 := DrawAttorneyLine(page, e2, y1);
    var y3 := DrawAttorneyLine(page, e3, y2);
    next := DrawAttorneyLine(page, e4, y3);
    StackAppend(e1, e2, 40, y, 12);
    StackAppend(e1 + e2, e3, 40, y, 12);
    StackAppend(e1 + e2 + e3, e4, 40, y, 12);
  }

  /** Item 1 of GC-210, from its heading at `y`. */
  method DrawMinorItem(page: Page, data: CourtFormData, y: int) returns (next: int)
    modifies page`draws
    ensures page.draws == old(page.draws) + MinorItem(data, y).draws
    ensures next == MinorItem(data, y).next
  {
    var y' := y;
    page.DrawText("1. MINOR INFORMATION:", 40, y', 10, true);
    y' := y' - 20;
    DrawRow(page, "a. Name of minor:", 50, MinorNameOf(data), 150, y');
    y' := y' - 15;
    DrawRow(page, "b. Date of birth:", 50, MinorDobOf(data), 150, y');
    var same := DrawOptionalRow(page, "Gender:", 280, Field(data, "minor_gender"), 330, y', 0);
    y' := y' - 15;
    next := DrawOptionalRow(page, "c. Address:", 50, MinorAddressOf(data), 150, y', 15);
  }

  /** Item 2 of GC-210, from its heading at `y`. */
  method DrawGuardianItem(page: Page, data: CourtFormData, y: int) returns (next: int)
    modifies page`draws
    ensures page.draws == old(page.draws) + GuardianItem(data, y).draws
    ensures next == GuardianItem(data, y).next
  {
    page.DrawText("2. PROPOSED GUARDIAN:", 40, y, 10, true);
    next := DrawOptionalRow(page, "a. Name:", 50, Field(data, "guardian_name"), 150, y - 20, 15);
    next := DrawOptionalRow(page, "b. Relationship to minor:", 50, Field(data, "guardian_relationship"), 180, next, 15);
    next := DrawOptionalRow(page, "c. Address:", 50, Field(data, "guardian_address"), 150, next, 15);
  }

  /** Item 3 of GC-210, from its heading at `y`. */
  method DrawParentsItem(page: Page, data: CourtFormData, y: int) returns (next: int)
    modifies page`draws
    ensures page.draws == old(page.draws) + ParentsItem(data, y).draws
    ensures next == ParentsItem(data, y).next
  {
    page.DrawText("3. PARENTS:", 40, y, 10, true);
    next := DrawOptionalRow(page, "a. Mother:", 50, EitherField(data, "mother_name", "mother_full_name"), 150, y - 20, 15);
    next := DrawOptionalRow(page, "b. Father:", 50, EitherField(data, "father_name", "father_full_name"), 150, next, 15);
  }

  /** The rule at y = 60 and the form's revision caption under it. */
  method DrawFooterStart(page: Page, formNumber: string, year: int)
    modifies page`draws
    ensures page.draws == old(page.draws)
      + [Line(40, 60, 572, 60), Text(RevisionCaption(formNumber, year), 40, 45, 7, false)]
  {
    page.DrawLine(40, 60, 572, 60);
    page.DrawText(formNumber + " [Rev. " + IntToString(year) + "]", 40, 45, 7, false);
  }

  /** The address lines of FL-105, one per comma-separated piece, each 15 points below the last. */
  method DrawAddressLines(page: Page, address: string, y: int) returns (next: int)
    modifies page`draws
    ensures page.draws == old(page.draws) + Stack(AddressEntries(AddressLines(address)), 50, y, 15)
    ensures next == y - 15 * |Split(address, ',')|
  {
    hide Split, Trim, TrimStart, TrimEnd, Join;
    var lines := AddressLines(address);
    ghost var entries := AddressEntries(lines);
    ghost var base := page.draws;
    next := y;
    for k := 0 to |lines|
      invariant page.draws == base + Stack(entries, 50, y, 15)[..k]
      invariant next == y - 15 * k
    {
      page.DrawText(lines[k], 50, next, 9, false);
      assert Stack(entries, 50, y, 15)[..k + 1] == Stack(entries, 50, y, 15)[..k] + [Text(lines[k], 50, next, 9, false)];
      next := next - 15;
    }
    assert Stack(entries, 50, y, 15)[..|lines|] == Stack(entries, 50, y, 15);
  }

  lemma Gc210FooterDraws(year: int)
    ensures var f := Gc210Footer(year);
      && |f| == 4
      && f[..2] == [Line(40, 60, 572, 60), Text(RevisionCaption("GC-210", year), 40, 45, 7, false)]
      && f[2] == Text(Gc210Title, 200, 45, 7, false)
      && f[3] == Text("Page 1 of 1", 520, 45, 7, false)
  {
  }

  /** Appending a page's parts one after another is appending their concatenation. */
  lemma Regroup(h: seq<Draw>, a: seq<Draw>, b: seq<Draw>, c: seq<Draw>, d: seq<Draw>, f: seq<Draw>)
    requires |f| == 4
    ensures [] + h + a + b + c + d + f[..2] + [f[2]] + [f[3]] == h + (a + b + c + d) + f
  {
    assert f == f[..2] + [f[2]] + [f[3]];
  }

  lemma HeaderLength(width: int, height: int, formNumber: string, title: string, county: string, caseNumber: string)
    ensures |HeaderDraws(width, height, formNumber, title, county, caseNumber)| == 9
  {
  }

  /** What follows the nine header draws is the body and then the footer. */
  lemma AfterHeader(h: seq<Draw>, body: seq<Draw>, footer: seq<Draw>)
    requires |h| == 9
    ensures (h + body + footer)[9..] == body + footer
  {
  }

  lemma Gc210PageDescends(h: seq<Draw>, data: CourtFormData, year: int)
    requires |h| == 9
    ensures Descending((h + Gc210Body(data) + Gc210Footer(year))[9..])
  {
    hide *;
    AfterHeader(h, Gc210Body(data), Gc210Footer(year));
    Gc210Descends(data, year);
  }

  lemma Gc220PageDescends(h: seq<Draw>, data: CourtFormData)
    requires |h| == 9
    ensures Descending((h + Gc220Body(data))[9..])
  {
    hide *;
    assert (h + Gc220Body(data))[9..] == Gc220Body(data);
    Gc220Descends(data);
    SpanMeaning(Gc220Body(data), 572, 472);
  }

  /** The FL-105 body, between the header and the two-draw footer, descends. */
  lemma Fl105PageDescends(h: seq<Draw>, data: CourtFormData, year: int)
    requires |h| == 9
    ensures |h + Fl105Body(data) + Fl105Footer(year)| >= 11
    ensures Descending((h + Fl105Body(data) + Fl105Footer(year))[9..|h + Fl105Body(data) + Fl105Footer(year)| - 2])
  {
    hide Descending, Span, Fl105Body;
    var body := Fl105Body(data);
    var footer := Fl105Footer(year);
    assert (h + body + footer)[9..|h + body + footer| - 2] == body;
    Fl105Descends(data);
  }

  lemma Gc020PageDescends(h: seq<Draw>, data: CourtFormData, year: int)
    requires |h| == 9
    ensures Descending((h + Gc020Body(data) + Gc020Footer(year))[9..])
  {
    hide *;
    AfterHeader(h, Gc020Body(data), Gc020Footer(year));
    Gc020Descends(data, year);
  }

  lemma RegroupGc220(h: seq<Draw>, head: seq<Draw>, b: seq<Draw>, m: Draw, d: seq<Draw>)
    requires |head| == 4
    ensures [] + h + [head[0]] + [head[1]] + [head[2]] + [head[3]] + b + [m] + d == h + (head + b + [m] + d)
  {
    assert head == [head[0]] + [head[1]] + [head[2]] + [head[3]];
  }

  lemma Gc220HeadDraws(data: CourtFormData)
    ensures var head := Gc220Head(data);
      && |head| == 4
      && head[0] == Text("IN THE MATTER OF:", 40, 572, 10, true)
      && head[1] == Text(MinorNameOf(data), 180, 572, 10, true)
      && head[2] == Text("FINDINGS:", 40, 542, 10, true)
      && head[3] == Text("1. It is in the best interest of the minor that:", 50, 522, 9, true)
  {
  }

  lemma Fl105ChildRowsParts(data: CourtFormData)
    ensures var name := OptionalRow("Name:", 50, MinorNameOf(data), 100, 552, 15);
      var dob := OptionalRow("Date of Birth:", 50, MinorDobOf(data), 130, name.next, 15);
      var country := OptionalRow("Country of Birth:", 50, Field(data, "country_of_birth"), 150, dob.next, 15);
      Fl105ChildRows(data) == Block(name.draws + dob.draws + country.draws, country.next)
  {
  }

  lemma RegroupFl105(h: seq<Draw>, head: Draw, a: seq<Draw>, b: seq<Draw>, c: seq<Draw>, r: Draw, d: seq<Draw>, f: seq<Draw>)
    ensures [] + h + [head] + a + b + c + [r] + d + f == h + ([head] + (a + b + c) + [r] + d) + f
  {
  }

  lemma RegroupGc020(h: seq<Draw>, head: Draw, a: seq<Draw>, b: seq<Draw>, ds: seq<Draw>, f: seq<Draw>)
    requires |ds| == 6
    ensures [] + h + [head] + a + b + [ds[0]] + [ds[1]] + [ds[2]] + [ds[3]] + [ds[4]] + [ds[5]] + f
            == h + ([head] + a + b + ds) + f
  {
    assert ds == [ds[0]] + [ds[1]] + [ds[2]] + [ds[3]] + [ds[4]] + [ds[5]];
  }

  // ------------------------------------------------------------ the generator

  class CourtFormGenerator {
    /** `path.join(process.cwd(), 'public', 'templates')` */
    const templatesPath: string

    constructor(cwd: string)
      ensures templatesPath == cwd + "/public/templates"
    {
      templatesPath := cwd + "/public/templates";
    }

    /**
     * `loadTemplate`: the template at `templatesPath/filename` when the file
     * exists, loads, and has at least one page; a fresh empty document when
     * it is missing, cannot be loaded, or has no pages.
     */
    method LoadTemplate(filename: string, files: map<string, TemplateFile>) returns (doc: Document)
      ensures var path := templatesPath + "/" + filename;
        && (doc.Loaded? <==> path in files && files[path].Pdf? && files[path].pageCount > 0)
        && (doc.Loaded? ==> doc == Loaded(path, files[path].pageCount))
    {
      var templatePath := templatesPath + "/" + filename;
      if templatePath !in files {
        return Created;
      }
      match files[templatePath]
      case Unreadable =>
        return Created;
      case Pdf(pageCount) =>
        if pageCount == 0 {
          return Created;
        }
        return Loaded(templatePath, pageCount);
    }

    /** `drawFormHeader`: draws the header and returns the content line, 200 points below the top. */
    method DrawFormHeader(page: Page, formNumber: string, title: string, county: string, caseNumber: string)
      returns (contentY: int)
      modifies page`draws
      ensures page.draws == old(page.draws) + HeaderDraws(page.width, page.height, formNumber, title, county, caseNumber)
      ensures contentY == page.height - 200
    {
      var width := page.width;
      var height := page.height;
      page.DrawRectangle(30, height - 30, width - 60, 1, true);
      page.DrawText("ATTORNEY OR PARTY WITHOUT ATTORNEY:", 40, height - 50, 7, true);
      var rightBoxX := width - 240;
      page.DrawRectangle(rightBoxX, height - 140, 210, 110, false);
      page.DrawText("SUPERIOR COURT OF CALIFORNIA", rightBoxX + 20, height - 60, 9, true);
      page.DrawText("COUNTY OF " + ToUpper(county), rightBoxX + 45, height - 75, 9, true);
      page.DrawText("CASE NUMBER:", rightBoxX + 10, height - 115, 7, true);
      page.DrawText(caseNumber, rightBoxX + 20, height - 130, 10, false);
      var titleY := height - 170;
      page.DrawText(title, (width - |title| * 6) / 2, titleY, 14, true);
      page.DrawText(formNumber, width - 100, titleY, 10, true);
      contentY := height - 200;
    }

    /** `generateGC210`: the petition for appointment of a guardian of the person. */
    method GenerateGC210(data: CourtFormData, year: int) returns (draws: seq<Draw>)
      ensures draws == HeaderDraws(PageWidth, PageHeight, "GC-210", Gc210Title, CountyOf(data), CaseNumberOf(data))
                       + Gc210Body(data) + Gc210Footer(year)
      ensures Descending(draws[9..])
    {
      hide Descending, Span, HeaderDraws, CountyOf, CaseNumberOf, MinorNameOf, MinorDobOf, MinorAddressOf, Field, EitherField, Ind, RevisionCaption,
           Gc210Body, Gc210Footer, AttorneyBlock, MinorItem, GuardianItem, ParentsItem;
      var page := new Page(612, 792);
      var county := CountyOf(data);
      var caseNumber := CaseNumberOf(data);
      var y := DrawFormHeader(page, "GC-210", Gc210Title, county, caseNumber);
      y := y - 10;
      assert y == 582;
      ghost var attorney := AttorneyBlock(data, 582);
      y := DrawAttorney(page, data, y);
      y := y - 30;
      ghost var minor := MinorItem(data, y);
      y := DrawMinorItem(page, data, y);
      y := y - 10;
      ghost var guardian := GuardianItem(data, y);
      y := DrawGuardianItem(page, data, y);
      y := y - 10;
      ghost var parents := ParentsItem(data, y);
      y := DrawParentsItem(page, data, y);
      DrawFooterStart(page, "GC-210", year);
      page.DrawText(Gc210Title, 200, 45, 7, false);
      page.DrawText("Page 1 of 1", 520, 45, 7, false);
      draws := page.draws;
      Gc210BodyParts(data);
      Gc210FooterDraws(year);
      Regroup(HeaderDraws(612, 792, "GC-210", Gc210Title, county, caseNumber),
              attorney.draws, minor.draws, guardian.draws, parents.draws, Gc210Footer(year));
      HeaderLength(612, 792, "GC-210", Gc210Title, county, caseNumber);
      Gc210PageDescends(HeaderDraws(612, 792, "GC-210", Gc210Title, county, caseNumber), data, year);
    }

    /** `generateGC220`: the special immigrant juvenile findings; this form has no footer. */
    method GenerateGC220(data: CourtFormData) returns (draws: seq<Draw>)
      ensures draws == HeaderDraws(PageWidth, PageHeight, "GC-220", Gc220Title, CountyOf(data), CaseNumberOf(data))
                       + Gc220Body(data)
      ensures Descending(draws[9..])
    {
      hide Descending, Span, HeaderDraws, CountyOf, CaseNumberOf, MinorNameOf, MinorDobOf, MinorAddressOf, Field, EitherField, Ind, RevisionCaption,
           Gc220Body, Gc220Head, Explanation, Prefix;
      var page := new Page(612, 792);
      var county := CountyOf(data);
      var caseNumber := CaseNumberOf(data);
      var y := DrawFormHeader(page, "GC-220", Gc220Title, county, caseNumber);
      y := y - 20;
      var minorName := MinorNameOf(data);
      page.DrawText("IN THE MATTER OF:", 40, y, 10, true);
      page.DrawText(minorName, 180, y, 10, true);
      y := y - 30;
      page.DrawText("FINDINGS:", 40, y, 10, true);
      y := y - 20;
      page.DrawText("1. It is in the best interest of the minor that:", 50, y, 9, true);
      y := y - 15;
      assert y == 507;
      ghost var best := Explanation(Field(data, "best_interest_explanation"), 507, 20);
      y := DrawExplanation(page, Field(data, "best_interest_explanation"), y, 20);
      ghost var mid := Text("2. Reunification with parents is not viable due to:", 50, y, 9, true);
      page.DrawText("2. Reunification with parents is not viable due to:", 50, y, 9, true);
      y := y - 15;
      ghost var harmful := Explanation(Field(data, "return_harmful_explanation"), y, 0);
      y := DrawExplanation(page, Field(data, "return_harmful_explanation"), y, 0);
      draws := page.draws;
      Gc220BodyParts(data);
      Gc220HeadDraws(data);
      RegroupGc220(HeaderDraws(612, 792, "GC-220", Gc220Title, county, caseNumber), Gc220Head(data), best.draws, mid, harmful.draws);
      HeaderLength(612, 792, "GC-220", Gc220Title, county, caseNumber);
      Gc220PageDescends(HeaderDraws(612, 792, "GC-220", Gc220Title, county, caseNumber), data);
    }

    /** `generateFL105`: the UCCJEA declaration. */
    method GenerateFL105(data: CourtFormData, year: int) returns (draws: seq<Draw>)
      ensures draws == HeaderDraws(PageWidth, PageHeight, "FL-105", Fl105Title, CountyOf(data), CaseNumberOf(data))
                       + Fl105Body(data) + Fl105Footer(year)
      ensures Descending(draws[9..|draws| - 2])
    {
      hide Descending, Span, HeaderDraws, CountyOf, CaseNumberOf, MinorNameOf, MinorDobOf, MinorAddressOf, Field, EitherField, Ind, RevisionCaption,
           Fl105Body, Fl105ChildRows, AddressBlock, OptionalRow;
      var page := new Page(612, 792);
      var county := CountyOf(data);
      var caseNumber := CaseNumberOf(data);
      var y := DrawFormHeader(page, "FL-105", Fl105Title, county, caseNumber);
      y := y - 20;
      var head := Text("CHILD INFORMATION:", 40, y, 10, true);
      page.DrawText("CHILD INFORMATION:", 40, y, 10, true);
      y := y - 20;
      assert y == 552;
      ghost var name := OptionalRow("Name:", 50, MinorNameOf(data), 100, y, 15);
      y := DrawOptionalRow(page, "Name:", 50, MinorNameOf(data), 100, y, 15);
      ghost var dob := OptionalRow("Date of Birth:", 50, MinorDobOf(data), 130, y, 15);
      y := DrawOptionalRow(page, "Date of Birth:", 50, MinorDobOf(data), 130, y, 15);
      ghost var country := OptionalRow("Country of Birth:", 50, Field(data, "country_of_birth"), 150, y, 15);
      y := DrawOptionalRow(page, "Country of Birth:", 50, Field(data, "country_of_birth"), 150, y, 15);
      y := y - 10;
      var residence := Text("RESIDENCE INFORMATION:", 40, y, 10, true);
      page.DrawText("RESIDENCE INFORMATION:", 40, y, 10, true);
      y := y - 20;
      ghost var address := AddressBlock(MinorAddressOf(data), y);
      y := DrawAddressBlock(page, MinorAddressOf(data), y);
      DrawFooterStart(page, "FL-105", year);
      draws := page.draws;
      Fl105BodyParts(data);
      Fl105ChildRowsParts(data);
      RegroupFl105(HeaderDraws(612, 792, "FL-105", Fl105Title, county, caseNumber),
                   head, name.draws, dob.draws, country.draws, residence, address.draws, Fl105Footer(year));
      HeaderLength(612, 792, "FL-105", Fl105Title, county, caseNumber);
      Fl105PageDescends(HeaderDraws(612, 792, "FL-105", Fl105Title, county, caseNumber), data, year);
    }

    /** `generateGC020`: the notice of hearing, with the hearing details left blank for the clerk. */
    method GenerateGC020(data: CourtFormData, year: int) returns (draws: seq<Draw>)
      ensures draws == HeaderDraws(PageWidth, PageHeight, "GC-020", Gc020Title, CountyOf(data), CaseNumberOf(data))
                       + Gc020Body(data) + Gc020Footer(year)
      ensures Descending(draws[9..])
    {
      hide Descending, Span, HeaderDraws, CountyOf, CaseNumberOf, MinorNameOf, MinorDobOf, MinorAddressOf, Field, EitherField, Ind, RevisionCaption,
           Gc020Body, OptionalRow;
      var page := new Page(612, 792);
      var county := CountyOf(data);
      var caseNumber := CaseNumberOf(data);
      var y := DrawFormHeader(page, "GC-020", Gc020Title, county, caseNumber);
      y := y - 30;
      var head := Text("NOTICE IS GIVEN THAT:", 40, y, 10, true);
      page.DrawText("NOTICE IS GIVEN THAT:", 40, y, 10, true);
      y := y - 25;
      assert y == 537;
      ghost var minor := OptionalRow("Minor:", 50, MinorNameOf(data), 100, y, 20);
      y := DrawOptionalRow(page, "Minor:", 50, MinorNameOf(data), 100, y, 20);
      ghost var guardian := OptionalRow("Petitioner/Guardian:", 50, Field(data, "guardian_name"), 170, y, 20);
      y := DrawOptionalRow(page, "Petitioner/Guardian:", 50, Field(data, "guardian_name"), 170, y, 20);
      y := y - 20;
      ghost var details := HearingDetails(y);
      page.DrawText("HEARING DETAILS:", 40, y, 10, true);
      y := y - 20;
      page.DrawText("Date: _______________", 50, y, 9, false);
      y := y - 15;
      page.DrawText("Time: _______________", 50, y, 9, false);
      y := y - 15;
      page.DrawText("Department: _________", 50, y, 9, false);
      y := y - 15;
      page.DrawText("Room: _______________", 50, y, 9, false);
      y := y - 30;
      page.DrawText("Note: Hearing date and time will be set by the court clerk.", 50, y, 8, true);
      DrawFooterStart(page, "GC-020", year);
      draws := page.draws;
      Gc020BodyParts(data);
      RegroupGc020(HeaderDraws(612, 792, "GC-020", Gc020Title, county, caseNumber),
                   head, minor.draws, guardian.draws, details, Gc020Footer(year));
      HeaderLength(612, 792, "GC-020", Gc020Title, county, caseNumber);
      Gc020PageDescends(HeaderDraws(612, 792, "GC-020", Gc020Title, county, caseNumber), data, year);
    }
  }
}
