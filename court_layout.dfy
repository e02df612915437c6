/**
 * The page layouts drawn by guardianship-forms/lib/vercel-pdf-generator.ts,
 * as functions of the interview answers: the common court header, and for
 * each form the body below it (a `y` cursor that starts at the header's
 * content line and only moves down) and the footer. The generator methods in
 * `CourtForms` are proved to draw exactly these lists; the lemmas here state
 * what the layouts promise.
 */
module CourtLayout {
  import opened JsText
  import opened PdfLib

  /** `CourtFormData`: the answers by key; a key that is absent reads as undefined. */
  type CourtFormData = map<string, string>

  /** Every generator draws on one US-letter page. */
  const PageWidth: int := 612
  const PageHeight: int := 792

  /** `formData.key || ''`: the answer, or empty when absent. */
  function Field(data: CourtFormData, key: string): string {
    if key in data then data[key] else ""
  }

  /** `formData.first || formData.second || ''`: the first non-empty of two alias keys. */
  function EitherField(data: CourtFormData, first: string, second: string): (r: string)
    ensures r == "" <==> Field(data, first) == "" && Field(data, second) == ""
    ensures Field(data, first) != "" ==> r == Field(data, first)
    ensures Field(data, first) == "" ==> r == Field(data, second)
  {
    if Field(data, first) != "" then Field(data, first) else Field(data, second)
  }

  /** `formData.filing_county || 'LOS ANGELES'` */
  function CountyOf(data: CourtFormData): (county: string)
    ensures county != ""
    ensures Field(data, "filing_county") != "" ==> county == data["filing_county"]
    ensures Field(data, "filing_county") == "" ==> county == "LOS ANGELES"
  {
    if Field(data, "filing_county") != "" then Field(data, "filing_county") else "LOS ANGELES"
  }

  function CaseNumberOf(data: CourtFormData): string {
    Field(data, "case_number")
  }

  function MinorNameOf(data: CourtFormData): string {
    EitherField(data, "minor_name", "minor_full_name")
  }

  function MinorDobOf(data: CourtFormData): string {
    EitherField(data, "minor_date_of_birth", "minor_dob")
  }

  function MinorAddressOf(data: CourtFormData): string {
    EitherField(data, "minor_address", "minor_current_address")
  }

  // ------------------------------------------------------------ the header

  /** `drawFormHeader`: top rule, attorney caption, court box with county and case number, title and form number. */
  function HeaderDraws(width: int, height: int, formNumber: string, title: string,
                       county: string, caseNumber: string): seq<Draw> {
    var right := width - 240;
    [ Rect(30, height - 30, width - 60, 1, true),
      Text("ATTORNEY OR PARTY WITHOUT ATTORNEY:", 40, height - 50, 7, true),
      Rect(right, height - 140, 210, 110, false),
      Text("SUPERIOR COURT OF CALIFORNIA", right + 20, height - 60, 9, true),
      Text("COUNTY OF " + ToUpper(county), right + 45, height - 75, 9, true),
      Text("CASE NUMBER:", right + 10, height - 115, 7, true),
      Text(caseNumber, right + 20, height - 130, 10, false),
      Text(title, (width - |title| * 6) / 2, height - 170, 14, true),
      Text(formNumber, width - 100, height - 170, 10, true) ]
  }

  /**
   * The header occupies the band from 30 to 170 points below the top edge,
   * so everything it draws is above the content line `height - 200`; the
   * county is printed upper-cased; on a page of even width the title is
   * centred at 6 points per character.
   */
  lemma HeaderLayout(width: int, height: int, formNumber: string, title: string, county: string, caseNumber: string)
    ensures var h := HeaderDraws(width, height, formNumber, title, county, caseNumber);
      && |h| == 9
      && (forall i :: 0 <= i < |h| ==> height - 170 <= YOf(h[i]) <= height - 30 && YOf(h[i]) > height - 200)
      && h[4].text == "COUNTY OF " + ToUpper(county)
      && (width % 2 == 0 ==> h[7].x + |title| * 6 == width - h[7].x)
  {
    var h := HeaderDraws(width, height, formNumber, title, county, caseNumber);
    if width % 2 == 0 {
      assert (width - |title| * 6) % 2 == 0;
    }
    forall i | 0 <= i < |h| ensures height - 170 <= YOf(h[i]) <= height - 30 {
      assert i in {0, 1, 2, 3, 4, 5, 6, 7, 8};
    }
  }

  /** The footer caption `${formNumber} [Rev. ${year}]`. */
  function RevisionCaption(formNumber: string, year: int): string {
    formNumber + " [Rev. " + IntToString(year) + "]"
  }

  // ------------------------------------------------------------ layout blocks

  /** What a run of drawing statements leaves: the draws, and the cursor after them. */
  datatype Block = Block(draws: seq<Draw>, next: int)

  /** One line of a stack: its text, font size and whether it is bold. */
  datatype Entry = Entry(text: string, size: int, bold: bool)

  /** Lines drawn one under the other at `x`, starting at `y` and `step` apart. */
  function Stack(entries: seq<Entry>, x: int, y: int, step: int): (ds: seq<Draw>)
    ensures |ds| == |entries|
  {
    seq(|entries|, k requires 0 <= k < |entries| => Text(entries[k].text, x, y - step * k, entries[k].size, entries[k].bold))
  }

  lemma {:induction false} StackTail(entries: seq<Entry>, x: int, y: int, step: int)
    requires entries != []
    ensures Stack(entries, x, y, step)[1..] == Stack(entries[1..], x, y - step, step)
  {
    var ds := Stack(entries, x, y, step);
    var rest := Stack(entries[1..], x, y - step, step);
    forall k | 0 <= k < |rest| ensures ds[1..][k] == rest[k] {
      assert y - step * (k + 1) == (y - step) - step * k;
    }
  }

  /** Stacking two lists of entries is stacking the first, then the second below it. */
  lemma StackAppend(a: seq<Entry>, b: seq<Entry>, x: int, y: int, step: int)
    ensures Stack(a + b, x, y, step) == Stack(a, x, y, step) + Stack(b, x, y - step * |a|, step)
  {
    var lhs := Stack(a + b, x, y, step);
    var rhs := Stack(a, x, y, step) + Stack(b, x, y - step * |a|, step);
    forall k | |a| <= k < |lhs| ensures lhs[k] == rhs[k] {
      assert y - step * k == (y - step * |a|) - step * (k - |a|);
    }
  }

  /** A stack descends from `y` and ends above the cursor `y - step * |entries|` that follows it. */
  lemma {:induction false} StackSpan(entries: seq<Entry>, x: int, y: int, step: int)
    requires step >= 0
    ensures Span(Stack(entries, x, y, step), y, y - step * |entries|)
  {
    if entries != [] {
      var n := |entries|;
      StackSpan(entries[1..], x, y - step, step);
      StackTail(entries, x, y, step);
      assert (y - step) - step * (n - 1) == y - step * n;
      assert y - step * n <= y - step;
      SpanWiden(Stack(entries[1..], x, y - step, step), y - step, y - step * n, y, y - step * n);
    }
  }

  /** A caption in bold and its value beside it, on one line at the body font size. */
  function Row(caption: string, lx: int, value: string, vx: int, y: int): seq<Draw> {
    [Text(caption, lx, y, 9, true), Text(value, vx, y, 9, false)]
  }

  /** `if (value) { drawText(caption); drawText(value); y -= step; }` */
  function OptionalRow(caption: string, lx: int, value: string, vx: int, y: int, step: int): (b: Block)
    ensures |b.draws| == if value != "" then 2 else 0
    ensures b.next == if value != "" then y - step else y
  {
    if value != "" then Block(Row(caption, lx, value, vx, y), y - step) else Block([], y)
  }

  /** 1 for a non-empty (truthy) answer, else 0. */
  function Ind(value: string): nat {
    if value != "" then 1 else 0
  }

  lemma RowSpan(caption: string, lx: int, value: string, vx: int, y: int)
    ensures Span(Row(caption, lx, value, vx, y), y, y)
  {
  }

  lemma OptionalRowSpan(caption: string, lx: int, value: string, vx: int, y: int, step: int)
    requires step >= 0
    ensures Span(OptionalRow(caption, lx, value, vx, y, step).draws, y, OptionalRow(caption, lx, value, vx, y, step).next)
  {
  }

  // ------------------------------------------------------------ GC-210

  const Gc210Title: string := "PETITION FOR APPOINTMENT OF GUARDIAN OF THE PERSON"

  /** One entry for an answer that is present (truthy), none for an empty one. */
  function OptionalEntry(value: string, e: Entry): (r: seq<Entry>)
    ensures |r| == Ind(value)
  {
    if value != "" then [e] else []
  }

  /** The attorney lines, one per answer present: name in bold, then bar number, phone and e-mail. */
  function AttorneyEntries(data: CourtFormData): (entries: seq<Entry>)
    ensures |entries| == Ind(Field(data, "attorney_name")) + Ind(Field(data, "attorney_bar_number"))
                         + Ind(Field(data, "attorney_phone")) + Ind(Field(data, "attorney_email"))
  {
    var name := Field(data, "attorney_name");
    var bar := Field(data, "attorney_bar_number");
    var phone := Field(data, "attorney_phone");
    var email := Field(data, "attorney_email");
    OptionalEntry(name, Entry(name, 9, true))
    + OptionalEntry(bar, Entry("State Bar No. " + bar, 8, false))
    + OptionalEntry(phone, Entry(phone, 8, false))
    + OptionalEntry(email, Entry(email, 8, false))
  }

  function AttorneyBlock(data: CourtFormData, y: int): Block {
    var entries := AttorneyEntries(data);
    Block(Stack(entries, 40, y, 12), y - 12 * |entries|)
  }

  /** Item 1: heading, name and date of birth always; gender beside the birth date and the address when present. */
  function MinorItem(data: CourtFormData, y: int): Block {
    var gender := OptionalRow("Gender:", 280, Field(data, "minor_gender"), 330, y - 35, 0);
    var address := OptionalRow("c. Address:", 50, MinorAddressOf(data), 150, y - 50, 15);
    Block([Text("1. MINOR INFORMATION:", 40, y, 10, true)]
          + Row("a. Name of minor:", 50, MinorNameOf(data), 150, y - 20)
          + Row("b. Date of birth:", 50, MinorDobOf(data), 150, y - 35)
          + gender.draws + address.draws,
          address.next)
  }

  /** Item 2: heading, then name, relationship and address, each when present. */
  function GuardianItem(data: CourtFormData, y: int): Block {
    var name := OptionalRow("a. Name:", 50, Field(data, "guardian_name"), 150, y - 20, 15);
    var relation := OptionalRow("b. Relationship to minor:", 50, Field(data, "guardian_relationship"), 180, name.next, 15);
    var address := OptionalRow("c. Address:", 50, Field(data, "guardian_address"), 150, relation.next, 15);
    Block([Text("2. PROPOSED GUARDIAN:", 40, y, 10, true)] + name.draws + relation.draws + address.draws, address.next)
  }

  /** Item 3: heading, then mother and father, each when known under either alias. */
  function ParentsItem(data: CourtFormData, y: int): Block {
    var mother := OptionalRow("a. Mother:", 50, EitherField(data, "mother_name", "mother_full_name"), 150, y - 20, 15);
    var father := OptionalRow("b. Father:", 50, EitherField(data, "father_name", "father_full_name"), 150, mother.next, 15);
    Block([Text("3. PARENTS:", 40, y, 10, true)] + mother.draws + father.draws, father.next)
  }

  /** The GC-210 body: attorney lines from 10 below the content line, then items 1 to 3. */
  function Gc210Body(data: CourtFormData): seq<Draw> {
    var attorney := AttorneyBlock(data, 582);  // 10 below the content line 792 - 200
    var minor := MinorItem(data, attorney.next - 30);
    var guardian := GuardianItem(data, minor.next - 10);
    var parents := ParentsItem(data, guardian.next - 10);
    attorney.draws + minor.draws + guardian.draws + parents.draws
  }

  function Gc210Footer(year: int): seq<Draw> {
    [ Line(40, 60, 572, 60),
      Text(RevisionCaption("GC-210", year), 40, 45, 7, false),
      Text(Gc210Title, 200, 45, 7, false),
      Text("Page 1 of 1", 520, 45, 7, false) ]
  }

  lemma MinorItemSpan(data: CourtFormData, y: int)
    ensures var b := MinorItem(data, y); Span(b.draws, y, b.next) && y - 65 <= b.next <= y - 50
  {
    var gender := OptionalRow("Gender:", 280, Field(data, "minor_gender"), 330, y - 35, 0);
    var address := OptionalRow("c. Address:", 50, MinorAddressOf(data), 150, y - 50, 15);
    var head := [Text("1. MINOR INFORMATION:", 40, y, 10, true)];
    var name := Row("a. Name of minor:", 50, MinorNameOf(data), 150, y - 20);
    var dob := Row("b. Date of birth:", 50, MinorDobOf(data), 150, y - 35);
    SpanSingle(head[0], y, y);
    RowSpan("a. Name of minor:", 50, MinorNameOf(data), 150, y - 20);
    RowSpan("b. Date of birth:", 50, MinorDobOf(data), 150, y - 35);
    OptionalRowSpan("Gender:", 280, Field(data, "minor_gender"), 330, y - 35, 0);
    OptionalRowSpan("c. Address:", 50, MinorAddressOf(data), 150, y - 50, 15);
    SpanWiden(head, y, y, y, y - 20);
    SpanWiden(name, y - 20, y - 20, y - 20, y - 35);
    SpanWiden(gender.draws, y - 35, y - 35, y - 35, y - 50);
    SpanConcat4(head, name, dob, gender.draws, y, y - 20, y - 35, y - 35, y - 50);
    SpanConcat(head + name + dob + gender.draws, address.draws, y, y - 50, address.next);
  }

  lemma GuardianItemSpan(data: CourtFormData, y: int)
    ensures var b := GuardianItem(data, y); Span(b.draws, y, b.next) && y - 65 <= b.next <= y - 20
  {
    var name := OptionalRow("a. Name:", 50, Field(data, "guardian_name"), 150, y - 20, 15);
    var relation := OptionalRow("b. Relationship to minor:", 50, Field(data, "guardian_relationship"), 180, name.next, 15);
    var address := OptionalRow("c. Address:", 50, Field(data, "guardian_address"), 150, relation.next, 15);
    var head := [Text("2. PROPOSED GUARDIAN:", 40, y, 10, true)];
    SpanSingle(head[0], y, y);
    OptionalRowSpan("a. Name:", 50, Field(data, "guardian_name"), 150, y - 20, 15);
    OptionalRowSpan("b. Relationship to minor:", 50, Field(data, "guardian_relationship"), 180, name.next, 15);
    OptionalRowSpan("c. Address:", 50, Field(data, "guardian_address"), 150, relation.next, 15);
    SpanWiden(head, y, y, y, y - 20);
    SpanConcat(head, name.draws, y, y - 20, name.next);
    SpanConcat(head + name.draws, relation.draws, y, name.next, relation.next);
    SpanConcat(head + name.draws + relation.draws, address.draws, y, relation.next, address.next);
  }

  lemma ParentsItemSpan(data: CourtFormData, y: int)
    ensures var b := ParentsItem(data, y); Span(b.draws, y, b.next) && y - 50 <= b.next <= y - 20
  {
    var mother := OptionalRow("a. Mother:", 50, EitherField(data, "mother_name", "mother_full_name"), 150, y - 20, 15);
    var father := OptionalRow("b. Father:", 50, EitherField(data, "father_name", "father_full_name"), 150, mother.next, 15);
    var head := [Text("3. PARENTS:", 40, y, 10, true)];
    SpanSingle(head[0], y, y);
    OptionalRowSpan("a. Mother:", 50, EitherField(data, "mother_name", "mother_full_name"), 150, y - 20, 15);
    OptionalRowSpan("b. Father:", 50, EitherField(data, "father_name", "father_full_name"), 150, mother.next, 15);
    SpanWiden(head, y, y, y, y - 20);
    SpanConcat(head, mother.draws, y, y - 20, mother.next);
    SpanConcat(head + mother.draws, father.draws, y, mother.next, father.next);
  }

  lemma AttorneyBlockSpan(data: CourtFormData, y: int)
    ensures var b := AttorneyBlock(data, y); Span(b.draws, y, b.next) && y - 48 <= b.next <= y
  {
    StackSpan(AttorneyEntries(data), 40, y, 12);
  }

  /** Each GC-210 part descends and ends above where the next one starts. */
  lemma Gc210PartsSpan(data: CourtFormData)
    ensures var attorney := AttorneyBlock(data, 582);
      var minor := MinorItem(data, attorney.next - 30);
      var guardian := GuardianItem(data, minor.next - 10);
      var parents := ParentsItem(data, guardian.next - 10);
      && Span(attorney.draws, 582, attorney.next - 30) && 534 <= attorney.next <= 582
      && Span(minor.draws, attorney.next - 30, minor.next - 10) && attorney.next - 95 <= minor.next <= attorney.next - 80
      && Span(guardian.draws, minor.next - 10, guardian.next - 10) && minor.next - 75 <= guardian.next <= minor.next - 30
      && Span(parents.draws, guardian.next - 10, parents.next) && guardian.next - 60 <= parents.next <= guardian.next - 30
  {
    var attorney := AttorneyBlock(data, 582);
    var minor := MinorItem(data, attorney.next - 30);
    var guardian := GuardianItem(data, minor.next - 10);
    var parents := ParentsItem(data, guardian.next - 10);
    AttorneyBlockSpan(data, 582);
    MinorItemSpan(data, attorney.next - 30);
    GuardianItemSpan(data, minor.next - 10);
    ParentsItemSpan(data, guardian.next - 10);
    hide AttorneyBlock, MinorItem, GuardianItem, ParentsItem;
    SpanWiden(attorney.draws, 582, attorney.next, 582, attorney.next - 30);
    SpanWiden(minor.draws, attorney.next - 30, minor.next, attorney.next - 30, minor.next - 10);
    SpanWiden(guardian.draws, minor.next - 10, guardian.next, minor.next - 10, guardian.next - 10);
  }

  lemma Gc210BodyParts(data: CourtFormData)
    ensures var attorney := AttorneyBlock(data, 582);
      var minor := MinorItem(data, attorney.next - 30);
      var guardian := GuardianItem(data, minor.next - 10);
      var parents := ParentsItem(data, guardian.next - 10);
      Gc210Body(data) == attorney.draws + minor.draws + guardian.draws + parents.draws
  {
  }

  lemma Gc210BodySpan(data: CourtFormData)
    ensures Span(Gc210Body(data), 582, 304)
  {
    var attorney := AttorneyBlock(data, 582);
    var minor := MinorItem(data, attorney.next - 30);
    var guardian := GuardianItem(data, minor.next - 10);
    var parents := ParentsItem(data, guardian.next - 10);
    Gc210BodyParts(data);
    Gc210PartsSpan(data);
    hide AttorneyBlock, MinorItem, GuardianItem, ParentsItem, Gc210Body;
    SpanConcat4(attorney.draws, minor.draws, guardian.draws, parents.draws,
                582, attorney.next - 30, minor.next - 10, guardian.next - 10, parents.next);
    SpanWiden(attorney.draws + minor.draws + guardian.draws + parents.draws, 582, parents.next, 582, 304);
  }

  /** A footer: the rule at y = 60 and its captions at y = 45 beneath it. */
  lemma FooterSpan(rule: Draw, captions: seq<Draw>)
    requires rule == Line(40, 60, 572, 60)
    requires forall i :: 0 <= i < |captions| ==> captions[i].Text? && captions[i].y == 45
    ensures Span([rule] + captions, 60, 45)
  {
    assert Span(captions, 45, 45) by {
      var k := |captions|;
      while k > 0
        invariant 0 <= k <= |captions|
        invariant Span(captions[k..], 45, 45)
      {
        SpanCons(captions[k - 1], captions[k..], 45, 45);
        assert [captions[k - 1]] + captions[k..] == captions[k - 1..];
        k := k - 1;
      }
    }
    SpanCons(rule, captions, 60, 45);
  }

  lemma Gc210FooterSpan(year: int)
    ensures Span(Gc210Footer(year), 60, 45)
  {
    var footer := Gc210Footer(year);
    FooterSpan(footer[0], footer[1..]);
    assert [footer[0]] + footer[1..] == footer;
  }

  /**
   * The GC-210 cursor only moves down: the body descends from 10 points
   * below the content line and stays above y = 304 whatever is answered, so
   * it never reaches the footer rule at y = 60.
   */
  lemma Gc210Descends(data: CourtFormData, year: int)
    ensures Span(Gc210Body(data), 582, 304)
    ensures Descending(Gc210Body(data) + Gc210Footer(year))
  {
    Gc210BodySpan(data);
    Gc210FooterSpan(year);
    hide Gc210Body, Gc210Footer;
    SpanWiden(Gc210Body(data), 582, 304, 582, 60);
    SpanConcat(Gc210Body(data), Gc210Footer(year), 582, 60, 45);
    SpanMeaning(Gc210Body(data) + Gc210Footer(year), 582, 45);
  }

  lemma AttorneyBlockShape(data: CourtFormData, y: int)
    ensures var b := AttorneyBlock(data, y); var n := |AttorneyEntries(data)|;
      && n <= 4 && b.draws == Stack(AttorneyEntries(data), 40, y, 12) && b.next == y - 12 * n
  {
  }

  lemma MinorItemShape(data: CourtFormData, y: int)
    ensures var b := MinorItem(data, y);
      && |b.draws| >= 5
      && b.draws[0] == Text("1. MINOR INFORMATION:", 40, y, 10, true)
      && b.draws[1..5] == Row("a. Name of minor:", 50, MinorNameOf(data), 150, y - 20)
                          + Row("b. Date of birth:", 50, MinorDobOf(data), 150, y - 35)
  {
  }

  /** In `a + rest`, the draws right after `a` are those at the head of `rest`. */
  lemma AfterPrefix(a: seq<Draw>, rest: seq<Draw>, k: nat)
    requires k <= |rest|
    ensures (a + rest)[..|a|] == a
    ensures (a + rest)[|a|..|a| + k] == rest[..k]
  {
  }

  /**
   * The attorney lines come first, 12 points apart from y = 582, one per
   * answer present; item 1's heading follows 30 points below them, with the
   * minor's name and birth date on the next two rows.
   */
  lemma Gc210AttorneyThenMinor(data: CourtFormData)
    ensures var n := |AttorneyEntries(data)|; var body := Gc210Body(data);
      && n <= 4
      && |body| >= n + 5
      && body[..n] == Stack(AttorneyEntries(data), 40, 582, 12)
      && body[n] == Text("1. MINOR INFORMATION:", 40, 552 - 12 * n, 10, true)
      && body[n + 1..n + 5] == Row("a. Name of minor:", 50, MinorNameOf(data), 150, 532 - 12 * n)
                              + Row("b. Date of birth:", 50, MinorDobOf(data), 150, 517 - 12 * n)
  {
    hide *;
    var n := |AttorneyEntries(data)|;
    var attorney := AttorneyBlock(data, 582);
    var minor := MinorItem(data, attorney.next - 30);
    var guardian := GuardianItem(data, minor.next - 10);
    var parents := ParentsItem(data, guardian.next - 10);
    Gc210BodyParts(data);
    AttorneyBlockShape(data, 582);
    MinorItemShape(data, attorney.next - 30);
    var rest := minor.draws + guardian.draws + parents.draws;
    var body := Gc210Body(data);
    assert body == attorney.draws + rest;
    AfterPrefix(attorney.draws, rest, 5);
    assert rest[..5] == minor.draws[..5];
    assert body[n..n + 5] == minor.draws[..5];
    assert body[n] == minor.draws[0];
    assert body[n + 1..n + 5] == minor.draws[1..5];
  }

  lemma Gc210PartsLength(data: CourtFormData, y: int)
    ensures |AttorneyBlock(data, y).draws| == |AttorneyEntries(data)|
    ensures |MinorItem(data, y).draws| == 5 + 2 * (Ind(Field(data, "minor_gender")) + Ind(MinorAddressOf(data)))
    ensures |GuardianItem(data, y).draws| == 1 + 2 * (Ind(Field(data, "guardian_name")) + Ind(Field(data, "guardian_relationship")) + Ind(Field(data, "guardian_address")))
    ensures |ParentsItem(data, y).draws| == 1 + 2 * (Ind(EitherField(data, "mother_name", "mother_full_name")) + Ind(EitherField(data, "father_name", "father_full_name")))
  {
  }

  /** An unanswered optional row draws nothing: the body holds 7 fixed draws, one per attorney answer and two per optional answer. */
  lemma Gc210AbsentRowsDrawNothing(data: CourtFormData)
    ensures |Gc210Body(data)| == |AttorneyEntries(data)| + 7
      + 2 * (Ind(Field(data, "minor_gender")) + Ind(MinorAddressOf(data))
             + Ind(Field(data, "guardian_name")) + Ind(Field(data, "guardian_relationship")) + Ind(Field(data, "guardian_address"))
             + Ind(EitherField(data, "mother_name", "mother_full_name")) + Ind(EitherField(data, "father_name", "father_full_name")))
  {
    var attorney := AttorneyBlock(data, 582);
    var minor := MinorItem(data, attorney.next - 30);
    var guardian := GuardianItem(data, minor.next - 10);
    Gc210BodyParts(data);
    Gc210PartsLength(data, 582);
    Gc210PartsLength(data, attorney.next - 30);
    Gc210PartsLength(data, minor.next - 10);
    Gc210PartsLength(data, guardian.next - 10);
    hide AttorneyBlock, MinorItem, GuardianItem, ParentsItem, Gc210Body, AttorneyEntries, Ind, Field, EitherField, MinorAddressOf;
  }

  // ------------------------------------------------------------ GC-220

  const Gc220Title: string := "FINDINGS AND ORDERS - SPECIAL IMMIGRANT JUVENILE STATUS"

  /** An explanation paragraph: its first 250 characters at x = 60, when answered. */
  function Explanation(answer: string, y: int, step: int): (b: Block)
    ensures |b.draws| == Ind(answer)
    ensures b.next == if answer != "" then y - step else y
  {
    if answer != "" then Block([Text(Prefix(answer, 250), 60, y, 8, false)], y - step) else Block([], y)
  }

  /** The GC-220 lines that are always drawn before the first explanation. */
  function Gc220Head(data: CourtFormData): seq<Draw> {
    [ Text("IN THE MATTER OF:", 40, 572, 10, true),
      Text(MinorNameOf(data), 180, 572, 10, true),
      Text("FINDINGS:", 40, 542, 10, true),
      Text("1. It is in the best interest of the minor that:", 50, 522, 9, true) ]
  }

  /** The GC-220 body: the minor's name, the findings heading, and the two findings with their explanations. */
  function Gc220Body(data: CourtFormData): seq<Draw> {
    var best := Explanation(Field(data, "best_interest_explanation"), 507, 20);
    var harmful := Explanation(Field(data, "return_harmful_explanation"), best.next - 15, 0);
    Gc220Head(data)
    + best.draws
    + [Text("2. Reunification with parents is not viable due to:", 50, best.next, 9, true)]
    + harmful.draws
  }

  lemma ExplanationShape(answer: string, y: int, step: int)
    requires step >= 0
    ensures var b := Explanation(answer, y, step);
      && Span(b.draws, y, b.next)
      && (forall i :: 0 <= i < |b.draws| ==> b.draws[i] == Text(Prefix(answer, 250), 60, y, 8, false))
  {
  }

  lemma Gc220HeadShape(data: CourtFormData)
    ensures var head := Gc220Head(data);
      && |head| == 4 && Span(head, 572, 522)
      && forall i :: 0 <= i < 4 ==> head[i].Text? && head[i].x != 60
  {
    var head := Gc220Head(data);
    SpanSingle(head[3], 522, 522);
    SpanCons(head[2], head[3..], 542, 522);
    SpanCons(head[1], head[2..], 572, 522);
    SpanCons(head[0], head[1..], 572, 522);
    assert [head[2]] + head[3..] == head[2..] && [head[1]] + head[2..] == head[1..] && [head[0]] + head[1..] == head;
  }

  lemma Gc220BodyParts(data: CourtFormData)
    ensures var best := Explanation(Field(data, "best_interest_explanation"), 507, 20);
      var harmful := Explanation(Field(data, "return_harmful_explanation"), best.next - 15, 0);
      Gc220Body(data) == Gc220Head(data) + best.draws
        + [Text("2. Reunification with parents is not viable due to:", 50, best.next, 9, true)] + harmful.draws
  {
  }

  /** Where a draw sits among four consecutive parts. */
  lemma IndexInParts(a: seq<Draw>, b: seq<Draw>, c: seq<Draw>, d: seq<Draw>, i: int)
    requires 0 <= i < |a + b + c + d|
    ensures i < |a| ==> (a + b + c + d)[i] == a[i]
    ensures |a| <= i < |a| + |b| ==> (a + b + c + d)[i] == b[i - |a|]
    ensures |a| + |b| <= i < |a| + |b| + |c| ==> (a + b + c + d)[i] == c[i - |a| - |b|]
    ensures |a| + |b| + |c| <= i ==> (a + b + c + d)[i] == d[i - |a| - |b| - |c|]
  {
  }

  /**
   * Each explanation is drawn, at x = 60, exactly when it was answered, as
   * at most its first 250 characters (all of it when shorter); nothing else
   * in the body is drawn at x = 60.
   */
  lemma Gc220ExplanationsTruncated(data: CourtFormData)
    ensures var body := Gc220Body(data);
      var best := Field(data, "best_interest_explanation");
      var harmful := Field(data, "return_harmful_explanation");
      && |body| == 5 + Ind(best) + Ind(harmful)
      && (forall i :: 0 <= i < |body| && body[i].x == 60 ==>
            body[i].Text? && |body[i].text| <= 250
            && (body[i].text <= best || body[i].text <= harmful))
      && (best != "" ==> body[4] == Text(Prefix(best, 250), 60, 507, 8, false))
      && (harmful != "" ==> body[|body| - 1].text == Prefix(harmful, 250) && body[|body| - 1].x == 60)
      && (|best| <= 250 && best != "" ==> body[4].text == best)
  {
    hide Gc220Body, Gc220Head, Explanation, Prefix;
    var best := Field(data, "best_interest_explanation");
    var harmful := Field(data, "return_harmful_explanation");
    var b := Explanation(best, 507, 20);
    var mid := [Text("2. Reunification with parents is not viable due to:", 50, b.next, 9, true)];
    var h := Explanation(harmful, b.next - 15, 0);
    var head := Gc220Head(data);
    var body := Gc220Body(data);
    Gc220BodyParts(data);
    Gc220HeadShape(data);
    ExplanationShape(best, 507, 20);
    ExplanationShape(harmful, b.next - 15, 0);
    forall i | 0 <= i < |body| && body[i].x == 60
      ensures body[i].Text? && |body[i].text| <= 250 && (body[i].text <= best || body[i].text <= harmful)
    {
      IndexInParts(head, b.draws, mid, h.draws, i);
    }
    if best != "" {
      IndexInParts(head, b.draws, mid, h.draws, 4);
    }
    if harmful != "" {
      IndexInParts(head, b.draws, mid, h.draws, |body| - 1);
    }
  }

  /** The GC-220 body descends from y = 572 and ends no lower than y = 472. */
  lemma Gc220Descends(data: CourtFormData)
    ensures Span(Gc220Body(data), 572, 472)
  {
    hide Gc220Body, Gc220Head, Explanation;
    var b := Explanation(Field(data, "best_interest_explanation"), 507, 20);
    var mid := Text("2. Reunification with parents is not viable due to:", 50, b.next, 9, true);
    var h := Explanation(Field(data, "return_harmful_explanation"), b.next - 15, 0);
    Gc220BodyParts(data);
    Gc220HeadShape(data);
    ExplanationShape(Field(data, "best_interest_explanation"), 507, 20);
    ExplanationShape(Field(data, "return_harmful_explanation"), b.next - 15, 0);
    SpanWiden(Gc220Head(data), 572, 522, 572, 507);
    SpanSingle(mid, b.next, b.next - 15);
    SpanConcat4(Gc220Head(data), b.draws, [mid], h.draws, 572, 507, b.next, b.next - 15, b.next - 15);
    SpanWiden(Gc220Body(data), 572, b.next - 15, 572, 472);
  }

  // ------------------------------------------------------------ FL-105

  const Fl105Title: string := "DECLARATION UNDER UNIFORM CHILD CUSTODY JURISDICTION AND ENFORCEMENT ACT (UCCJEA)"

  /** `address.split(',').map(line => line.trim())` */
  function AddressLines(address: string): (lines: seq<string>)
    ensures |lines| == |Split(address, ',')|
    ensures forall k :: 0 <= k < |lines| ==> lines[k] == Trim(Split(address, ',')[k])
  {
    var pieces := Split(address, ',');
    seq(|pieces|, k requires 0 <= k < |pieces| => Trim(pieces[k]))
  }

  function AddressEntries(lines: seq<string>): (entries: seq<Entry>)
    ensures |entries| == |lines|
    ensures forall k :: 0 <= k < |lines| ==> entries[k] == Entry(lines[k], 9, false)
  {
    seq(|lines|, k requires 0 <= k < |lines| => Entry(lines[k], 9, false))
  }

  /** The residence block: when an address is known, its caption and then one line per comma-separated piece. */
  function AddressBlock(address: string, y: int): Block {
    if address != "" then
      var entries := AddressEntries(AddressLines(address));
      Block([Text("Current Address:", 50, y, 9, true)] + Stack(entries, 50, y, 15), y - 15 * |entries|)
    else Block([], y)
  }

  /** The cursor where the FL-105 residence block starts: 20 below its heading, 10 below the child rows. */
  function Fl105ChildRows(data: CourtFormData): Block {
    var name := OptionalRow("Name:", 50, MinorNameOf(data), 100, 552, 15);
    var dob := OptionalRow("Date of Birth:", 50, MinorDobOf(data), 130, name.next, 15);
    var country := OptionalRow("Country of Birth:", 50, Field(data, "country_of_birth"), 150, dob.next, 15);
    Block(name.draws + dob.draws + country.draws, country.next)
  }

  function Fl105Body(data: CourtFormData): seq<Draw> {
    var child := Fl105ChildRows(data);
    var residence := child.next - 10;
    [Text("CHILD INFORMATION:", 40, 572, 10, true)]
    + child.draws
    + [Text("RESIDENCE INFORMATION:", 40, residence, 10, true)]
    + AddressBlock(MinorAddressOf(data), residence - 20).draws
  }

  function Fl105Footer(year: int): seq<Draw> {
    [Line(40, 60, 572, 60), Text(RevisionCaption("FL-105", year), 40, 45, 7, false)]
  }

  lemma Fl105ChildRowsSpan(data: CourtFormData)
    ensures var b := Fl105ChildRows(data); Span(b.draws, 552, b.next) && 507 <= b.next <= 552
  {
    hide OptionalRow;
    var name := OptionalRow("Name:", 50, MinorNameOf(data), 100, 552, 15);
    var dob := OptionalRow("Date of Birth:", 50, MinorDobOf(data), 130, name.next, 15);
    var country := OptionalRow("Country of Birth:", 50, Field(data, "country_of_birth"), 150, dob.next, 15);
    OptionalRowSpan("Name:", 50, MinorNameOf(data), 100, 552, 15);
    OptionalRowSpan("Date of Birth:", 50, MinorDobOf(data), 130, name.next, 15);
    OptionalRowSpan("Country of Birth:", 50, Field(data, "country_of_birth"), 150, dob.next, 15);
    SpanConcat(name.draws, dob.draws, 552, name.next, dob.next);
    SpanConcat(name.draws + dob.draws, country.draws, 552, dob.next, country.next);
  }

  lemma Fl105BodyParts(data: CourtFormData)
    ensures var child := Fl105ChildRows(data);
      Fl105Body(data) == [Text("CHILD INFORMATION:", 40, 572, 10, true)] + child.draws
        + [Text("RESIDENCE INFORMATION:", 40, child.next - 10, 10, true)]
        + AddressBlock(MinorAddressOf(data), child.next - 30).draws
  {
  }

  /**
   * The address is split at every comma and each piece is trimmed and drawn
   * at x = 50, 15 points apart, below the "Current Address:" caption; the
   * untrimmed pieces rejoin to the address and contain no comma. The first
   * piece lands exactly on the caption, and the cursor ends 15 points lower
   * per piece.
   */
  lemma AddressBlockLines(address: string, y: int)
    requires address != ""
    ensures var pieces := Split(address, ',');
      var b := AddressBlock(address, y);
      && Join(pieces, ',') == address
      && (forall k :: 0 <= k < |pieces| ==> ',' !in pieces[k])
      && |b.draws| == 1 + |pieces|
      && b.draws[0] == Text("Current Address:", 50, y, 9, true)
      && (forall k :: 0 <= k < |pieces| ==> b.draws[1 + k] == Text(Trim(pieces[k]), 50, y - 15 * k, 9, false))
      && b.draws[1].x == b.draws[0].x && b.draws[1].y == b.draws[0].y
      && b.next == y - 15 * |pieces|
  {
    hide Split, Trim, TrimStart, TrimEnd, Join;
    var pieces := Split(address, ',');
    var entries := AddressEntries(AddressLines(address));
    var stack := Stack(entries, 50, y, 15);
    var b := AddressBlock(address, y);
    assert b.draws == [Text("Current Address:", 50, y, 9, true)] + stack;
    forall k | 0 <= k < |pieces| ensures b.draws[1 + k] == Text(Trim(pieces[k]), 50, y - 15 * k, 9, false) {
      assert b.draws[1 + k] == stack[k];
    }
  }

  lemma AddressBlockSpan(address: string, y: int)
    ensures var b := AddressBlock(address, y); Span(b.draws, y, b.next) && b.next <= y
  {
    hide Split, Trim, TrimStart, TrimEnd, Join, AddressLines, AddressEntries, Stack;
    if address != "" {
      var entries := AddressEntries(AddressLines(address));
      var caption := Text("Current Address:", 50, y, 9, true);
      StackSpan(entries, 50, y, 15);
      SpanSingle(caption, y, y);
      SpanConcat([caption], Stack(entries, 50, y, 15), y, y, y - 15 * |entries|);
    }
  }

  /** The FL-105 body only moves down the page, from y = 572. */
  lemma Fl105Descends(data: CourtFormData)
    ensures Span(Fl105Body(data), 572, AddressBlock(MinorAddressOf(data), Fl105ChildRows(data).next - 30).next)
    ensures Descending(Fl105Body(data))
  {
    hide Fl105Body, Fl105ChildRows, AddressBlock;
    var child := Fl105ChildRows(data);
    var residence := child.next - 10;
    var head := Text("CHILD INFORMATION:", 40, 572, 10, true);
    var mid := Text("RESIDENCE INFORMATION:", 40, residence, 10, true);
    var address := AddressBlock(MinorAddressOf(data), residence - 20);
    Fl105BodyParts(data);
    Fl105ChildRowsSpan(data);
    AddressBlockSpan(MinorAddressOf(data), residence - 20);
    SpanSingle(head, 572, 552);
    SpanWiden(child.draws, 552, child.next, 552, residence);
    SpanSingle(mid, residence, residence - 20);
    SpanConcat4([head], child.draws, [mid], address.draws, 572, 552, residence, residence - 20, address.next);
    SpanMeaning(Fl105Body(data), 572, address.next);
  }

  /** An empty address splits into one empty piece. */
  lemma SplitEmpty()
    ensures Split("", ',') == [""]
  {
  }

  /**
   * Nothing bounds the number of address lines: an address of 32 or more
   * comma-separated pieces puts its last line below the footer rule at y = 60.
   */
  lemma Fl105LongAddressCrossesFooter(data: CourtFormData)
    requires |Split(MinorAddressOf(data), ',')| >= 32
    ensures var body := Fl105Body(data); YOf(body[|body| - 1]) < 60
  {
    hide Fl105Body, Fl105ChildRows, AddressBlock, Split, Trim, TrimStart, TrimEnd, Join, Stack, AddressLines, AddressEntries, MinorAddressOf;
    var address := MinorAddressOf(data);
    var child := Fl105ChildRows(data);
    var n := |Split(address, ',')|;
    var b := AddressBlock(address, child.next - 30);
    var front := [Text("CHILD INFORMATION:", 40, 572, 10, true)] + child.draws
                 + [Text("RESIDENCE INFORMATION:", 40, child.next - 10, 10, true)];
    Fl105BodyParts(data);
    Fl105ChildRowsSpan(data);
    SplitEmpty();
    AddressBlockLines(address, child.next - 30);
    var body := Fl105Body(data);
    assert body == front + b.draws;
    assert body[|body| - 1] == b.draws[1 + (n - 1)];
    assert b.draws[1 + (n - 1)] == Text(Trim(Split(address, ',')[n - 1]), 50, child.next - 30 - 15 * (n - 1), 9, false);
  }

  // ------------------------------------------------------------ GC-020

  const Gc020Title: string := "NOTICE OF HEARING—GUARDIANSHIP"

  /** The fixed hearing block below "HEARING DETAILS:": four blank lines to fill in and the clerk's note. */
  function HearingDetails(y: int): seq<Draw> {
    [ Text("HEARING DETAILS:", 40, y, 10, true),
      Text("Date: _______________", 50, y - 20, 9, false),
      Text("Time: _______________", 50, y - 35, 9, false),
      Text("Department: _________", 50, y - 50, 9, false),
      Text("Room: _______________", 50, y - 65, 9, false),
      Text("Note: Hearing date and time will be set by the court clerk.", 50, y - 95, 8, true) ]
  }

  function Gc020Body(data: CourtFormData): seq<Draw> {
    var minor := OptionalRow("Minor:", 50, MinorNameOf(data), 100, 537, 20);
    var guardian := OptionalRow("Petitioner/Guardian:", 50, Field(data, "guardian_name"), 170, minor.next, 20);
    [Text("NOTICE IS GIVEN THAT:", 40, 562, 10, true)] + minor.draws + guardian.draws + HearingDetails(guardian.next - 20)
  }

  function Gc020Footer(year: int): seq<Draw> {
    [Line(40, 60, 572, 60), Text(RevisionCaption("GC-020", year), 40, 45, 7, false)]
  }

  lemma HearingDetailsSpan(y: int)
    ensures |HearingDetails(y)| == 6 && Span(HearingDetails(y), y, y - 95)
  {
    var ds := HearingDetails(y);
    var s5 := [ds[5]];
    SpanSingle(ds[5], y - 65, y - 95);
    var s4 := [ds[4]] + s5;
    SpanCons(ds[4], s5, y - 50, y - 95);
    var s3 := [ds[3]] + s4;
    SpanCons(ds[3], s4, y - 35, y - 95);
    var s2 := [ds[2]] + s3;
    SpanCons(ds[2], s3, y - 20, y - 95);
    var s1 := [ds[1]] + s2;
    SpanCons(ds[1], s2, y, y - 95);
    SpanCons(ds[0], s1, y, y - 95);
    assert ds == [ds[0]] + s1;
  }

  lemma Gc020FooterSpan(year: int)
    ensures Span(Gc020Footer(year), 60, 45)
  {
  }

  lemma Gc020BodyParts(data: CourtFormData)
    ensures var minor := OptionalRow("Minor:", 50, MinorNameOf(data), 100, 537, 20);
      var guardian := OptionalRow("Petitioner/Guardian:", 50, Field(data, "guardian_name"), 170, minor.next, 20);
      Gc020Body(data) == [Text("NOTICE IS GIVEN THAT:", 40, 562, 10, true)] + minor.draws + guardian.draws + HearingDetails(guardian.next - 20)
  {
  }

  /**
   * The hearing block is always drawn, as the last six draws, and starts 20
   * points lower for each of the minor and the petitioner that is named.
   */
  lemma Gc020HearingBlock(data: CourtFormData)
    ensures var body := Gc020Body(data);
      var named := Ind(MinorNameOf(data)) + Ind(Field(data, "guardian_name"));
      && |body| == 7 + 2 * named
      && body[|body| - 6..] == HearingDetails(517 - 20 * named)
  {
    hide Gc020Body, HearingDetails, OptionalRow, Span, Descending, MinorNameOf, Field;
    var minor := OptionalRow("Minor:", 50, MinorNameOf(data), 100, 537, 20);
    var guardian := OptionalRow("Petitioner/Guardian:", 50, Field(data, "guardian_name"), 170, minor.next, 20);
    var front := [Text("NOTICE IS GIVEN THAT:", 40, 562, 10, true)] + minor.draws + guardian.draws;
    var details := HearingDetails(guardian.next - 20);
    Gc020BodyParts(data);
    HearingDetailsSpan(guardian.next - 20);
    assert Gc020Body(data) == front + details;
    assert (front + details)[|front + details| - 6..] == details;
  }

  /** The GC-020 body descends from y = 562 and the footer follows below it. */
  lemma Gc020Descends(data: CourtFormData, year: int)
    ensures Descending(Gc020Body(data) + Gc020Footer(year))
  {
    hide Gc020Body, Gc020Footer, HearingDetails, OptionalRow, Span, Descending;
    var minor := OptionalRow("Minor:", 50, MinorNameOf(data), 100, 537, 20);
    var guardian := OptionalRow("Petitioner/Guardian:", 50, Field(data, "guardian_name"), 170, minor.next, 20);
    var head := Text("NOTICE IS GIVEN THAT:", 40, 562, 10, true);
    var details := HearingDetails(guardian.next - 20);
    var body := Gc020Body(data);
    Gc020BodyParts(data);
    HearingDetailsSpan(guardian.next - 20);
    Gc020FooterSpan(year);
    OptionalRowSpan("Minor:", 50, MinorNameOf(data), 100, 537, 20);
    OptionalRowSpan("Petitioner/Guardian:", 50, Field(data, "guardian_name"), 170, minor.next, 20);
    SpanSingle(head, 562, 537);
    SpanWiden(guardian.draws, minor.next, guardian.next, minor.next, guardian.next - 20);
    SpanConcat4([head], minor.draws, guardian.draws, details, 562, 537, minor.next, guardian.next - 20, guardian.next - 115);
    SpanWiden(body, 562, guardian.next - 115, 562, 60);
    SpanConcat(body, Gc020Footer(year), 562, 60, 45);
    SpanMeaning(body + Gc020Footer(year), 562, 45);
  }
}
