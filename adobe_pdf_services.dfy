/**
 * lib/adobe-pdf-services.ts: the per-form-type field tables that map a case's
 * form data to the fields of each California form, and the batch that fills
 * every form and keeps going when one of them fails. The fill call itself is
 * an abstract, fallible function of its request.
 */
module AdobePdfServices {
  import opened Wrappers
  import opened JsText
  import opened JsValue

  /** How one target field is computed from the form data. */
  datatype Rule =
    | Copy(source: string, fallback: string)          // formData.source || fallback
    | Fixed(text: string)                             // a constant
    | YesNo(source: string)                           // formData.source === true ? 'Yes' : 'No'
    | JsonList(source: string)                        // JSON.stringify(formData.source || [])
    | Address(street: string, city: string, state: string, zip: string, defaultState: string)
                                                      // `${street || ''}, ${city || ''}, ${state || defaultState} ${zip || ''}`

  datatype FieldRule = FieldRule(target: string, rule: Rule)

  /** `PDFFormData`: the filled fields of one form, in table order. */
  type FormFields = seq<Member>

  datatype FormEntry = FormEntry(formType: string, fields: FormFields)

  /** `CALIFORNIA_FORMS`: form number and title. */
  const CaliforniaForms: seq<(string, string)> := [
    ("GC-210", "Petition for Appointment of Guardian"),
    ("GC-220", "SIJS Petition"),
    ("GC-210CA", "Child Information Attachment"),
    ("FL-105", "UCCJEA Declaration"),
    ("GC-020", "Notice of Hearing")
  ]

  function CaliforniaFormTypes(): seq<string> {
    seq(|CaliforniaForms|, i requires 0 <= i < |CaliforniaForms| => CaliforniaForms[i].0)
  }

  const Gc210Rules: seq<FieldRule> := [
    FieldRule("minor_name", Copy("minor_name", "")),
    FieldRule("minor_dob", Copy("minor_dob", "")),
    FieldRule("minor_gender", Copy("minor_gender", "")),
    FieldRule("minor_address", Copy("minor_address", "")),
    FieldRule("minor_city", Copy("minor_city", "")),
    FieldRule("minor_state", Copy("minor_state", "CA")),
    FieldRule("minor_zip", Copy("minor_zip", "")),
    FieldRule("guardian_name", Copy("guardian_name", "")),
    FieldRule("guardian_relationship", Copy("guardian_relationship", "")),
    FieldRule("guardian_address", Copy("guardian_address", "")),
    FieldRule("guardian_city", Copy("guardian_city", "")),
    FieldRule("guardian_state", Copy("guardian_state", "CA")),
    FieldRule("guardian_zip", Copy("guardian_zip", "")),
    FieldRule("guardian_phone", Copy("guardian_phone", ""))
  ]

  const Gc220Rules: seq<FieldRule> := [
    FieldRule("minor_name", Copy("minor_name", "")),
    FieldRule("minor_dob", Copy("minor_dob", "")),
    FieldRule("minor_current_country", Copy("minor_current_country", "United States")),
    FieldRule("sijs_best_interest_explanation", Copy("sijs_best_interest_explanation", "")),
    FieldRule("mother_reunification", Copy("mother_reunification", "")),
    FieldRule("father_reunification", Copy("father_reunification", "")),
    FieldRule("mother_reunification_explanation", Copy("mother_reunification_explanation", "")),
    FieldRule("father_reunification_explanation", Copy("father_reunification_explanation", "")),
    FieldRule("sijs_harm_explanation", Copy("sijs_harm_explanation", ""))
  ]

  const Gc210caRules: seq<FieldRule> := [
    FieldRule("minor_name", Copy("minor_name", "")),
    FieldRule("minor_dob", Copy("minor_dob", "")),
    FieldRule("minor_birthplace", Copy("minor_birthplace", "")),
    FieldRule("minor_previous_addresses", JsonList("minor_previous_addresses")),
    FieldRule("is_citizen", YesNo("is_citizen")),
    FieldRule("immigration_status", Copy("immigration_status", "")),
    FieldRule("a_number", Copy("a_number", "")),
    FieldRule("minor_school", Copy("minor_school", "")),
    FieldRule("grade_level", Copy("grade_level", ""))
  ]

  const Fl105Rules: seq<FieldRule> := [
    FieldRule("minor_name", Copy("minor_name", "")),
    FieldRule("minor_current_address", Address("minor_address", "minor_city", "minor_state", "minor_zip", "CA")),
    FieldRule("residence_duration", Copy("residence_duration", "")),
    FieldRule("previous_addresses", JsonList("minor_previous_addresses")),
    FieldRule("other_court_cases", Copy("other_court_cases", "None")),
    FieldRule("domestic_violence", Copy("domestic_violence", "None"))
  ]

  const Gc020Rules: seq<FieldRule> := [
    FieldRule("court_name", Fixed("Superior Court of California, County of Alameda")),
    FieldRule("court_address", Fixed("1225 Fallon Street, Oakland, CA 94612")),
    FieldRule("case_number", Fixed("")),
    FieldRule("minor_name", Copy("minor_name", "")),
    FieldRule("hearing_date", Fixed("")),
    FieldRule("hearing_time", Fixed("")),
    FieldRule("department", Fixed("")),
    FieldRule("petitioner_name", Copy("guardian_name", ""))
  ]

  /** The value of one target field: a missing or falsy source gives the fallback, never an error. */
  function Apply(rule: Rule, formData: Value): Value {
    match rule
    case Copy(source, fallback) => Or(Prop(formData, source), Str(fallback))
    case Fixed(text) => Str(text)
    case YesNo(source) => Str(if Prop(formData, source) == Bool(true) then "Yes" else "No")
    case JsonList(source) => Str(Json(Or(Prop(formData, source), Arr([]))))
    case Address(street, city, state, zip, defaultState) =>
      Str(ToStr(Or(Prop(formData, street), Str(""))) + ", "
        + ToStr(Or(Prop(formData, city), Str(""))) + ", "
        + ToStr(Or(Prop(formData, state), Str(defaultState))) + " "
        + ToStr(Or(Prop(formData, zip), Str(""))))
  }

  /** One form's object literal: every target of the table, in order, with its computed value. */
  function MapForm(rules: seq<FieldRule>, formData: Value): (fields: FormFields)
    ensures |fields| == |rules|
    ensures forall i :: 0 <= i < |rules| ==> fields[i] == Member(rules[i].target, Apply(rules[i].rule, formData))
  {
    if rules == [] then []
    else [Member(rules[0].target, Apply(rules[0].rule, formData))] + MapForm(rules[1..], formData)
  }

  /** A field of a mapped form reads back the value its rule computes (the first rule for that target). */
  lemma {:induction false} MappedFieldValue(rules: seq<FieldRule>, formData: Value, k: nat)
    requires k < |rules|
    requires forall j :: 0 <= j < k ==> rules[j].target != rules[k].target
    ensures Get(MapForm(rules, formData), rules[k].target) == Apply(rules[k].rule, formData)
    decreases k
  {
    if k > 0 {
      MappedFieldValue(rules[1..], formData, k - 1);
    }
  }

  /** `caseData.form_data || {}`; reading a member of null or undefined is a TypeError (None). */
  function CaseFormData(caseData: Value): Option<Value> {
    if caseData == Null || caseData == Undefined then None
    else Some(Or(Prop(caseData, "form_data"), Obj([])))
  }

  /** The object literal of `mapCaseDataToForms`: every form type with its table applied to the same form data. */
  function MapTables(formData: Value): seq<FormEntry> {
    [ FormEntry("GC-210", MapForm(Gc210Rules, formData)),
      FormEntry("GC-220", MapForm(Gc220Rules, formData)),
      FormEntry("GC-210CA", MapForm(Gc210caRules, formData)),
      FormEntry("FL-105", MapForm(Fl105Rules, formData)),
      FormEntry("GC-020", MapForm(Gc020Rules, formData)) ]
  }

  function FormTypes(entries: seq<FormEntry>): seq<string> {
    seq(|entries|, i requires 0 <= i < |entries| => entries[i].formType)
  }

  /** The mapping covers the California forms, in the same order. */
  lemma TablesCoverCaliforniaForms(formData: Value)
    ensures FormTypes(MapTables(formData)) == CaliforniaFormTypes()
  {
    hide MapForm, Get, Apply, Prop, Or;
    assert FormTypes(MapTables(formData)) == ["GC-210", "GC-220", "GC-210CA", "FL-105", "GC-020"];
  }

  /** No two California forms share a form number. */
  lemma CaliforniaTypesDistinct()
    ensures forall a, b :: 0 <= a < b < |CaliforniaFormTypes()| ==> CaliforniaFormTypes()[a] != CaliforniaFormTypes()[b]
  {
    var t := CaliforniaFormTypes();
    assert t == ["GC-210", "GC-220", "GC-210CA", "FL-105", "GC-020"];
    assert t[0][4] != t[1][4] && t[0][4] != t[4][4] && t[1][3] != t[4][3];
    assert t[0][0] != t[3][0] && t[1][0] != t[3][0] && t[3][0] != t[4][0];
    assert |t[2]| != |t[0]| && |t[2]| != |t[1]| && |t[2]| != |t[3]| && |t[2]| != |t[4]|;
  }

  lemma Gc210MinorName(formData: Value)
    ensures Get(MapForm(Gc210Rules, formData), "minor_name") == Or(Prop(formData, "minor_name"), Str(""))
  {
    MappedFieldValue(Gc210Rules, formData, 0);
  }

  lemma Gc220MinorName(formData: Value)
    ensures Get(MapForm(Gc220Rules, formData), "minor_name") == Or(Prop(formData, "minor_name"), Str(""))
  {
    MappedFieldValue(Gc220Rules, formData, 0);
  }

  lemma Gc210caMinorName(formData: Value)
    ensures Get(MapForm(Gc210caRules, formData), "minor_name") == Or(Prop(formData, "minor_name"), Str(""))
  {
    MappedFieldValue(Gc210caRules, formData, 0);
  }

  lemma Fl105MinorName(formData: Value)
    ensures Get(MapForm(Fl105Rules, formData), "minor_name") == Or(Prop(formData, "minor_name"), Str(""))
  {
    MappedFieldValue(Fl105Rules, formData, 0);
  }

  lemma Gc020MinorName(formData: Value)
    ensures Get(MapForm(Gc020Rules, formData), "minor_name") == Or(Prop(formData, "minor_name"), Str(""))
  {
    MappedFieldValue(Gc020Rules, formData, 3);
  }

  /** The minor's name appears under `minor_name` in all five forms. */
  lemma MinorNameInEveryForm(formData: Value)
    ensures forall i :: 0 <= i < |MapTables(formData)| ==>
      Get(MapTables(formData)[i].fields, "minor_name") == Or(Prop(formData, "minor_name"), Str(""))
  {
    hide MapForm, Get, Apply, Prop, Or;
    var t := MapTables(formData);
    Gc210MinorName(formData);
    Gc220MinorName(formData);
    Gc210caMinorName(formData);
    Fl105MinorName(formData);
    Gc020MinorName(formData);
    forall i | 0 <= i < |t| ensures Get(t[i].fields, "minor_name") == Or(Prop(formData, "minor_name"), Str("")) {
      if i == 0 { assert t[i].fields == MapForm(Gc210Rules, formData); }
      else if i == 1 { assert t[i].fields == MapForm(Gc220Rules, formData); }
      else if i == 2 { assert t[i].fields == MapForm(Gc210caRules, formData); }
      else if i == 3 { assert t[i].fields == MapForm(Fl105Rules, formData); }
      else { assert t[i].fields == MapForm(Gc020Rules, formData); }
    }
  }

  /**
   * `mapCaseDataToForms`: the five California form types, in the order of
   * `CALIFORNIA_FORMS`, each with its table's fields; `minor_name` is copied
   * into every one of them.
   */
  function MapCaseDataToForms(caseData: Value): (r: Option<seq<FormEntry>>)
    ensures r.None? <==> caseData == Null || caseData == Undefined
    ensures r.Some? ==> FormTypes(r.value) == CaliforniaFormTypes()
    ensures r.Some? ==> forall i :: 0 <= i < |r.value| ==>
      Get(r.value[i].fields, "minor_name") == Or(Prop(CaseFormData(caseData).value, "minor_name"), Str(""))
  {
    match CaseFormData(caseData)
    case None => None
    case Some(formData) =>
      TablesCoverCaliforniaForms(formData);
      MinorNameInEveryForm(formData);
      Some(MapTables(formData))
  }

  /** GC-210's `minor_state` defaults to 'CA'. */
  lemma Gc210MinorState(formData: Value)
    ensures Get(MapForm(Gc210Rules, formData), "minor_state") == Or(Prop(formData, "minor_state"), Str("CA"))
  {
    MappedFieldValue(Gc210Rules, formData, 5);
  }

  /** GC-210's `guardian_state` defaults to 'CA'. */
  lemma Gc210GuardianState(formData: Value)
    ensures Get(MapForm(Gc210Rules, formData), "guardian_state") == Or(Prop(formData, "guardian_state"), Str("CA"))
  {
    MappedFieldValue(Gc210Rules, formData, 11);
  }

  /** GC-220's `minor_current_country` defaults to 'United States'. */
  lemma Gc220Country(formData: Value)
    ensures Get(MapForm(Gc220Rules, formData), "minor_current_country")
      == Or(Prop(formData, "minor_current_country"), Str("United States"))
  {
    MappedFieldValue(Gc220Rules, formData, 2);
  }

  /** `is_citizen` is 'Yes' exactly when the answer is the boolean true; any other value gives 'No'. */
  lemma CitizenIsYesOnlyForTrue(formData: Value)
    ensures var v := Get(MapForm(Gc210caRules, formData), "is_citizen");
      && (v == Str("Yes") <==> Prop(formData, "is_citizen") == Bool(true))
      && (v != Str("Yes") ==> v == Str("No"))
  {
    MappedFieldValue(Gc210caRules, formData, 4);
  }

  /** `${street || ''}, ${city || ''}, ${state || 'CA'} ${zip || ''}` over the minor's address fields. */
  function CurrentAddressText(formData: Value): string {
    ToStr(Or(Prop(formData, "minor_address"), Str(""))) + ", "
    + ToStr(Or(Prop(formData, "minor_city"), Str(""))) + ", "
    + ToStr(Or(Prop(formData, "minor_state"), Str("CA"))) + " "
    + ToStr(Or(Prop(formData, "minor_zip"), Str("")))
  }

  /** FL-105's current address keeps both separators even when parts are empty; the state defaults to 'CA'. */
  lemma Fl105Address(formData: Value)
    ensures Get(MapForm(Fl105Rules, formData), "minor_current_address") == Str(CurrentAddressText(formData))
  {
    MappedFieldValue(Fl105Rules, formData, 1);
  }

  /** FL-105's `other_court_cases` defaults to 'None'. */
  lemma Fl105OtherCases(formData: Value)
    ensures Get(MapForm(Fl105Rules, formData), "other_court_cases") == Or(Prop(formData, "other_court_cases"), Str("None"))
  {
    MappedFieldValue(Fl105Rules, formData, 4);
  }

  /** FL-105's `domestic_violence` defaults to 'None'. */
  lemma Fl105Violence(formData: Value)
    ensures Get(MapForm(Fl105Rules, formData), "domestic_violence") == Or(Prop(formData, "domestic_violence"), Str("None"))
  {
    MappedFieldValue(Fl105Rules, formData, 5);
  }

  /** An empty case still maps: FL-105's address reads ", , CA ". */
  lemma EmptyAddressKeepsSeparators()
    ensures Get(MapForm(Fl105Rules, Obj([])), "minor_current_address") == Str(", , CA ")
  {
    hide MapForm;
    Fl105Address(Obj([]));
    var empty := Obj([]);
    assert Prop(empty, "minor_address") == Undefined && Prop(empty, "minor_city") == Undefined;
    assert Prop(empty, "minor_state") == Undefined && Prop(empty, "minor_zip") == Undefined;
    assert ToStr(Str("")) == "" && ToStr(Str("CA")) == "CA";
  }

  /** GC-020 names a fixed court, whatever the answers. */
  lemma Gc020CourtName(formData: Value)
    ensures Get(MapForm(Gc020Rules, formData), "court_name") == Str("Superior Court of California, County of Alameda")
  {
    MappedFieldValue(Gc020Rules, formData, 0);
  }

  /** GC-020's court address is fixed. */
  lemma Gc020CourtAddress(formData: Value)
    ensures Get(MapForm(Gc020Rules, formData), "court_address") == Str("1225 Fallon Street, Oakland, CA 94612")
  {
    MappedFieldValue(Gc020Rules, formData, 1);
  }

  /** GC-020's case number is left blank for the clerk. */
  lemma Gc020CaseNumber(formData: Value)
    ensures Get(MapForm(Gc020Rules, formData), "case_number") == Str("")
  {
    MappedFieldValue(Gc020Rules, formData, 2);
  }

  /** GC-020's hearing date is left blank for the clerk. */
  lemma Gc020HearingDate(formData: Value)
    ensures Get(MapForm(Gc020Rules, formData), "hearing_date") == Str("")
  {
    MappedFieldValue(Gc020Rules, formData, 4);
  }

  /** GC-020's hearing time is left blank for the clerk. */
  lemma Gc020HearingTime(formData: Value)
    ensures Get(MapForm(Gc020Rules, formData), "hearing_time") == Str("")
  {
    MappedFieldValue(Gc020Rules, formData, 5);
  }

  /** GC-020's department is left blank for the clerk. */
  lemma Gc020Department(formData: Value)
    ensures Get(MapForm(Gc020Rules, formData), "department") == Str("")
  {
    MappedFieldValue(Gc020Rules, formData, 6);
  }

  /** GC-020's petitioner is the proposed guardian. */
  lemma Gc020Petitioner(formData: Value)
    ensures Get(MapForm(Gc020Rules, formData), "petitioner_name") == Or(Prop(formData, "guardian_name"), Str(""))
  {
    MappedFieldValue(Gc020Rules, formData, 7);
  }

  // ------------------------------------------------------------ the batch

  type Buffer = seq<bv8>

  /** The options `fillPDFForm` receives. */
  datatype FillRequest = FillRequest(templatePath: string, formData: FormFields, outputFileName: string)

  /** The request for one mapped form: its template by type, its fields, and an output name of type and case id. */
  function RequestFor(entry: FormEntry, caseId: Value): (req: FillRequest)
    ensures req.templatePath == "./public/templates/" + entry.formType + ".pdf"
    ensures req.formData == entry.fields
    ensures req.outputFileName == entry.formType + "_" + ToStr(caseId) + ".pdf"
  {
    FillRequest("./public/templates/" + entry.formType + ".pdf", entry.fields,
      entry.formType + "_" + ToStr(caseId) + ".pdf")
  }

  /** Each form's fill outcome: its buffer, or None where the fill threw. */
  function Attempts(entries: seq<FormEntry>, caseId: Value, fill: FillRequest -> Option<Buffer>): (r: seq<Option<Buffer>>)
    ensures |r| == |entries|
    ensures forall i :: 0 <= i < |entries| ==> r[i] == fill(RequestFor(entries[i], caseId))
  {
    seq(|entries|, i requires 0 <= i < |entries| => fill(RequestFor(entries[i], caseId)))
  }

  /** The dictionary built by assigning, in order, each successful outcome under its form type. */
  function Collect(types: seq<string>, outcomes: seq<Option<Buffer>>): map<string, Buffer>
    requires |types| == |outcomes|
    decreases |types|
  {
    if types == [] then map[]
    else
      var forms := Collect(types[..|types| - 1], outcomes[..|outcomes| - 1]);
      match outcomes[|outcomes| - 1]
      case Some(buffer) => forms[types[|types| - 1] := buffer]
      case None => forms
  }

  predicate Distinct(types: seq<string>) {
    forall a, b :: 0 <= a < b < |types| ==> types[a] != types[b]
  }

  /** Every key of the dictionary is one of the form types. */
  lemma {:induction false} CollectKeys(types: seq<string>, outcomes: seq<Option<Buffer>>)
    requires |types| == |outcomes|
    ensures forall k :: k in Collect(types, outcomes) ==> k in types
    decreases |types|
  {
    if types != [] {
      var n := |types| - 1;
      CollectKeys(types[..n], outcomes[..n]);
      forall k | k in Collect(types, outcomes) ensures k in types {
        if k != types[n] {
          assert k in types[..n];
        }
      }
    }
  }

  /** With distinct form types, a form is in the dictionary exactly when its own outcome succeeded, with that buffer. */
  lemma {:induction false} CollectCharacterised(types: seq<string>, outcomes: seq<Option<Buffer>>)
    requires |types| == |outcomes|
    requires Distinct(types)
    ensures forall i :: 0 <= i < |types| ==> (types[i] in Collect(types, outcomes) <==> outcomes[i].Some?)
    ensures forall i :: 0 <= i < |types| && outcomes[i].Some? ==> Collect(types, outcomes)[types[i]] == outcomes[i].value
    decreases |types|
  {
    if types != [] {
      var n := |types| - 1;
      CollectCharacterised(types[..n], outcomes[..n]);
      var before := Collect(types[..n], outcomes[..n]);
      assert Collect(types, outcomes) == if outcomes[n].Some? then before[types[n] := outcomes[n].value] else before;
      assert Distinct(types[..n]) by {
        forall a, b | 0 <= a < b < n ensures types[..n][a] != types[..n][b] {
          assert types[..n][a] == types[a] && types[..n][b] == types[b];
        }
      }
      assert types[n] !in before by {
        CollectKeys(types[..n], outcomes[..n]);
        assert forall j :: 0 <= j < n ==> types[..n][j] != types[n];
      }
      forall i | 0 <= i < |types|
        ensures types[i] in Collect(types, outcomes) <==> outcomes[i].Some?
        ensures outcomes[i].Some? ==> Collect(types, outcomes)[types[i]] == outcomes[i].value
      {
        if i < n {
          assert types[..n][i] == types[i] && outcomes[..n][i] == outcomes[i];
          assert types[i] != types[n];
        }
      }
    }
  }

  /** The California form types are distinct, so the dictionary holds one entry per successful form. */
  lemma MappedTypesDistinct(entries: seq<FormEntry>)
    requires FormTypes(entries) == CaliforniaFormTypes()
    ensures Distinct(FormTypes(entries))
  {
    CaliforniaTypesDistinct();
  }

  /** The loop of `generateGuardianshipForms`: fill each mapped form in turn, keeping the buffers of those that succeed. */
  method FillEach(entries: seq<FormEntry>, caseId: Value, fill: FillRequest -> Option<Buffer>)
    returns (forms: map<string, Buffer>)
    ensures forms == Collect(FormTypes(entries), Attempts(entries, caseId, fill))
  {
    ghost var types := FormTypes(entries);
    ghost var outcomes := Attempts(entries, caseId, fill);
    forms := map[];
    var i := 0;
    while i < |entries|
      invariant 0 <= i <= |entries|
      invariant forms == Collect(types[..i], outcomes[..i])
    {
      assert types[..i + 1][..i] == types[..i];
      assert outcomes[..i + 1][..i] == outcomes[..i];
      var outcome := fill(RequestFor(entries[i], caseId));
      if outcome.Some? {
        forms := forms[entries[i].formType := outcome.value];
      }
      i := i + 1;
    }
    assert types[..i] == types && outcomes[..i] == outcomes;
  }

  /**
   * `generateGuardianshipForms`: map the case, then fill each form in turn;
   * a fill that fails is left out and the loop goes on. None when the case
   * itself is null or undefined (the mapping throws).
   */
  method GenerateGuardianshipForms(caseData: Value, fill: FillRequest -> Option<Buffer>)
    returns (result: Option<map<string, Buffer>>)
    ensures result.None? <==> caseData == Null || caseData == Undefined
    ensures result.Some? ==> var entries := MapCaseDataToForms(caseData).value;
      && FormTypes(entries) == CaliforniaFormTypes()
      && result.value == Collect(FormTypes(entries), Attempts(entries, Prop(caseData, "id"), fill))
  {
    var mappings := MapCaseDataToForms(caseData);
    if mappings.None? {
      return None;
    }
    var forms := FillEach(mappings.value, Prop(caseData, "id"), fill);
    result := Some(forms);
  }

  /** Only the mapped form types appear, and each exactly when its own fill succeeded, with that fill's buffer. */
  lemma FilledFormsCharacterised(entries: seq<FormEntry>, caseId: Value, fill: FillRequest -> Option<Buffer>)
    requires Distinct(FormTypes(entries))
    ensures var outcomes := Attempts(entries, caseId, fill);
      var forms := Collect(FormTypes(entries), outcomes);
      && (forall k :: k in forms ==> k in FormTypes(entries))
      && (forall i :: 0 <= i < |entries| ==> (entries[i].formType in forms <==> outcomes[i].Some?))
      && (forall i :: 0 <= i < |entries| && outcomes[i].Some? ==> forms[entries[i].formType] == outcomes[i].value)
  {
    var types := FormTypes(entries);
    var outcomes := Attempts(entries, caseId, fill);
    CollectKeys(types, outcomes);
    CollectCharacterised(types, outcomes);
    forall i | 0 <= i < |entries| ensures entries[i].formType == types[i] { }
  }

  /**
   * For the mapped California forms (as `GenerateGuardianshipForms` fills
   * them): only California form types appear, and each exactly when its own
   * fill succeeded.
   */
  lemma CaliforniaFormsCharacterised(entries: seq<FormEntry>, caseId: Value, fill: FillRequest -> Option<Buffer>)
    requires FormTypes(entries) == CaliforniaFormTypes()
    ensures var outcomes := Attempts(entries, caseId, fill);
      var forms := Collect(FormTypes(entries), outcomes);
      && (forall k :: k in forms ==> k in CaliforniaFormTypes())
      && (forall i :: 0 <= i < |entries| ==> (CaliforniaFormTypes()[i] in forms <==> outcomes[i].Some?))
  {
    MappedTypesDistinct(entries);
    FilledFormsCharacterised(entries, caseId, fill);
    forall i | 0 <= i < |entries| ensures entries[i].formType == CaliforniaFormTypes()[i] {
      assert FormTypes(entries)[i] == entries[i].formType;
    }
  }

  /** When exactly one form's fill fails, every other form is still produced and only that one is missing. */
  lemma OneFailureOmitsOnlyThatForm(types: seq<string>, outcomes: seq<Option<Buffer>>, failing: nat)
    requires |types| == |outcomes| && Distinct(types) && failing < |types|
    requires forall i :: 0 <= i < |outcomes| ==> (outcomes[i].None? <==> i == failing)
    ensures Collect(types, outcomes).Keys == (set k | k in types) - {types[failing]}
  {
    CollectKeys(types, outcomes);
    CollectCharacterised(types, outcomes);
    forall k ensures k in Collect(types, outcomes) <==> k in types && k != types[failing] {
      if k in types && k != types[failing] {
        var j :| 0 <= j < |types| && types[j] == k;
      }
    }
  }
}
