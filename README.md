# Entrada guardianship intake: a verified model of its core

Entrada helps a family fill in the California guardianship forms for a minor
(GC-210, GC-220, GC-210CA, FL-105 and GC-020). An interview stores the answers
in a case record. This project models four pieces of logic in Dafny and proves
what they promise:

- `Cases` (`cases.dfy`) covers lib/cases.ts:
  - the completion estimate of a case (answered fields out of 95, rounded, capped at 100);
  - the dashboard's status badge;
  - case search, case-insensitive and order-preserving, over the minor's name and the serialised form data;
  - relative-time text.
- `AutoSave` (`auto_save.dfy`) covers hooks/useAutoSave.ts. It is a class driven by discrete events at given clock times:
  - a re-render with new form data;
  - the debounce timer firing;
  - a retry timer firing;
  - `saveNow`;
  - the store answering an issued update;
  - unmounting.

  Its fields are the hook's refs (the timer and the last saved snapshot) plus the observable history: status callbacks, updates sent, the stored update. Each method states its whole new state. Scenario methods prove the behaviour over event sequences: coalesced bursts, retry after failure, the skip rule, overlapping writes.
- `AdobePdfServices` (`adobe_pdf_services.dfy`) covers lib/adobe-pdf-services.ts:
  - the per-form field tables, as a rule table per form type;
  - the batch that fills every mapped form. It keeps going when one fill fails; the fill is a fallible function parameter.
- `CourtLayout` and `CourtForms` (`court_layout.dfy`, `court_forms.dfy`) cover guardianship-forms/lib/vercel-pdf-generator.ts.
  - `CourtForms.CourtFormGenerator` is written as the source writes it. A `y` cursor is lowered statement by statement while draws are appended to a `PdfLib.Page`.
  - Each generator is proved to draw exactly the header, body and footer that `CourtLayout` defines as functions of the answers.
  - `CourtLayout`'s lemmas state what those layouts promise: the cursor only moves down, optional rows draw nothing when unanswered, explanations are cut to 250 characters, addresses are split at commas.

Supporting modules:

- `JsText`: JavaScript string operations (case mapping, `includes`, `trim`, `split`/`join`, `substring`, integer formatting).
- `JsValue`: loosely typed values with truthiness, `||`, property access, `String(v)` and `JSON.stringify`.
- `PdfLib`: a page as a list of draw records, with the `Descending` and `Span` predicates over their `y` positions.
- `Wrappers`: `Option`.

Behaviours of the source that the model keeps as they are:

- hooks/useAutoSave.ts counts the string `'null'` as filled; lib/cases.ts does not. `AutoSave.CountFilledCoversAnswered` relates the two counts.
- Retry timers are never cleared, and the skip rule compares only with the last *confirmed* snapshot. Two identical writes can therefore be in flight at once (`AutoSave.OverlappingWrites`).
- `getStatusConfig` gives 'Ready' for a percentage of exactly 100 only. Percentages above 100 fall into 'In Progress'.
- GC-220 has no footer.
- On FL-105, the first address line is drawn at the same point as the "Current Address:" caption (`CourtLayout.AddressBlockLines`).
- Nothing bounds the number of FL-105 address lines. An address of 32 or more comma-separated pieces reaches below the footer rule (`CourtLayout.Fl105LongAddressCrossesFooter`). The FL-105 descending property therefore covers its body, not body and footer.

## Model

| member | source | states |
|---|---|---|
| Cases.RoundedPercent | lib/cases.ts:115 | `Math.round(c/95*100)` as an integer: the result p satisfies 190p − 95 ≤ 200c < 190p + 95, i.e. p is the nearest integer to 100c/95 |
| Cases.CappedPercent | lib/cases.ts:115 | at most 100; exactly 100 from 95 answered fields on; below that the rounded share, under 100 |
| Cases.CappedPercentMonotone | lib/cases.ts:115 | more answered fields never give a lower capped percentage |
| Cases.CountAnsweredAppend | lib/cases.ts:111-113 | adding an entry raises the count by one exactly when its value is not null, undefined, `''` or `'null'` |
| Cases.CompletionPercentage | lib/cases.ts:98-117 | absent or key-less form data gives 0; the result is in [0,100]; 95 or more answered entries give 100 |
| Cases.CompletionIsRoundedShare | lib/cases.ts:110-116 | the estimate is min(100, round(100·count/95)) over the answered entries |
| Cases.CompletionMonotone | lib/cases.ts:111-115 | adding an entry never lowers the estimate |
| Cases.StatusConfig | lib/cases.ts:137-151 | 'Generated' iff status is 'generated'; otherwise 'Ready' iff status 'ready' or percentage exactly 100; otherwise >70 'In Progress', >30 'Partial', else 'Started' (strict thresholds); variant 'default' iff Generated or Ready; colour purple, green, blue, yellow and red exactly for Generated, Ready, In Progress, Partial and Started |
| Cases.DraftBadgeByAnsweredCount | lib/cases.ts:141-150 | for a case that is neither generated nor ready, with its stored estimate: Ready iff ≥95 answered fields, In Progress iff 67–94, Partial iff 29–66, Started iff <29 |
| Cases.FilterMatching | lib/cases.ts:160-164 | the result is an order-preserving subsequence that keeps every copy of each case whose lowercased name or lowercased serialised form data contains the term, and no other case |
| Cases.SearchCases | lib/cases.ts:154-165 | an empty or whitespace-only term returns the list unchanged; otherwise an order-preserving subsequence keeping every copy of each case that matches the lowercased term, and no other case |
| Cases.FormatRelativeTime | lib/cases.ts:120-134 | under 1 min 'just now'; under 60 min 'N min ago'; under 24 h 'N hour(s) ago'; under 7 days 'N day(s) ago', N the whole units elapsed and 's' exactly when N ≠ 1; from 7 days the locale date |
| JsText.ToLower | lib/cases.ts:159-162 | same length, each character mapped by the ASCII lower-case mapping |
| JsText.ToUpper | guardianship-forms/lib/vercel-pdf-generator.ts:104 | same length, each character mapped by the ASCII upper-case mapping |
| JsText.Includes | lib/cases.ts:163 | true iff the term occurs at some position of the string |
| JsText.TrimEmptyIffAllSpace | lib/cases.ts:155 | `trim()` is empty exactly when every character is white space |
| JsText.Split | guardianship-forms/lib/vercel-pdf-generator.ts:386 | at least one piece, no piece contains the separator, and the pieces joined with the separator give back the string |
| JsText.SplitJoin | guardianship-forms/lib/vercel-pdf-generator.ts:386 | splitting pieces without the separator after joining them returns the pieces |
| JsText.Prefix | guardianship-forms/lib/vercel-pdf-generator.ts:318 | `substring(0, n)`: a prefix of the string, of length min(n, length) |
| JsText.ParseNatToString | lib/cases.ts:129-131 | the decimal text of a count reads back as that count |
| JsValue.JsonRecord | hooks/useAutoSave.ts:23 | `JSON.stringify` of a record is an object text starting with `{` |
| AutoSave.CountFilled | hooks/useAutoSave.ts:33-35 | the hook's count of filled values is at most the number of entries |
| AutoSave.CountFilledCoversAnswered | hooks/useAutoSave.ts:33-35 | the hook's count is never below `calculateCompletionPercentage`'s and equals it exactly when no value is the string 'null' |
| AutoSave.SavePercentage | hooks/useAutoSave.ts:31-36 | the written percentage is at most 100, and 100 from 95 filled values on |
| AutoSave.SavePercentageAgrees | hooks/useAutoSave.ts:31-36 | for non-empty data without the string 'null', the hook writes the same percentage that lib/cases.ts computes |
| AutoSave.UpdateFor | hooks/useAutoSave.ts:39-45 | the update carries exactly the given data, the percentage the hook derives from it, and the save time; for non-empty data it is well formed |
| AutoSave.AutoSaver.constructor | hooks/useAutoSave.ts:76-85 | mounting arms exactly one debounce timer, `debounceMs` after mount, for the current data; nothing saved, sent or reported yet |
| AutoSave.AutoSaver.StartSave | hooks/useAutoSave.ts:21-46 | no keys, or the same serialisation as the last saved one: nothing reported, sent or put in flight; otherwise 'saving' is reported and the update (data, percentage, time) is sent |
| AutoSave.AutoSaver.Render | hooks/useAutoSave.ts:76-85 | a new form data object replaces the pending debounce timer by one timer `debounceMs` later for that data; nothing else changes |
| AutoSave.AutoSaver.DebounceFires | hooks/useAutoSave.ts:83-85 | the timer fires at its deadline, is gone, and its data is saved under the skip rule |
| AutoSave.AutoSaver.SaveNow | hooks/useAutoSave.ts:96-101 | the pending debounce timer is cleared and the current data is saved at once, under the same skip rule |
| AutoSave.AutoSaver.RetryFires | hooks/useAutoSave.ts:69-71 | a retry timer fires at its deadline, is removed, and saves its data under the skip rule |
| AutoSave.AutoSaver.Settle | hooks/useAutoSave.ts:39-72 | success records the snapshot as last saved, stores the update and reports 'saved'; failure keeps the last saved snapshot, reports 'error' and arms a retry of the same data 5000 ms later |
| AutoSave.AutoSaver.Unmount | hooks/useAutoSave.ts:88-92 | the cleanup clears the debounce timer (retries stay) |
| AutoSave.BurstIsCoalesced | hooks/useAutoSave.ts:76-85 | three edits each within `debounceMs` of the previous produce one write, of the last data, one interval after the last edit, and one 'saving' |
| AutoSave.FirstAttempt | hooks/useAutoSave.ts:21-46 | after mount and the debounce, one write of the data is in flight and 'saving' was reported once |
| AutoSave.FailThenRetry | hooks/useAutoSave.ts:59-72 | a failed write reports 'error' and, 5 s later, the retry reports 'saving' and sends the same data again |
| AutoSave.RetryConverges | hooks/useAutoSave.ts:59-72 | two failures then a success report saving, error, saving, error, saving, saved; three writes of the same data; the store holds the third, written 10 s after the first |
| AutoSave.UnchangedDataIsSavedOnce | hooks/useAutoSave.ts:23-26 | once data is saved, `saveNow` with the same data sends nothing and reports nothing |
| AutoSave.OverlappingWrites | hooks/useAutoSave.ts:21-53 | two `saveNow` calls before the store answers put two identical writes in flight |
| AdobePdfServices.MapForm | lib/adobe-pdf-services.ts:105-171 | one field per table rule, in table order: field i has rule i's target and the value rule i computes from the form data |
| AdobePdfServices.MappedFieldValue | lib/adobe-pdf-services.ts:105-171 | a mapped field reads back the value its rule computes |
| AdobePdfServices.TablesCoverCaliforniaForms | lib/adobe-pdf-services.ts:199-205 | the mapping's form types are those of `CALIFORNIA_FORMS`, in the same order |
| AdobePdfServices.CaliforniaTypesDistinct | lib/adobe-pdf-services.ts:199-205 | the five form numbers are pairwise distinct |
| AdobePdfServices.MinorNameInEveryForm | lib/adobe-pdf-services.ts:105-171 | each of the five forms carries `minor_name` as `formData.minor_name \|\| ''` |
| AdobePdfServices.MapCaseDataToForms | lib/adobe-pdf-services.ts:102-172 | fails exactly for a null or undefined case; otherwise the five California form types in order, each with `minor_name` copied from the form data (missing `form_data` read as `{}`) |
| AdobePdfServices.Gc210MinorState | lib/adobe-pdf-services.ts:113 | GC-210 `minor_state` defaults to 'CA' |
| AdobePdfServices.Gc210GuardianState | lib/adobe-pdf-services.ts:119 | GC-210 `guardian_state` defaults to 'CA' |
| AdobePdfServices.Gc220Country | lib/adobe-pdf-services.ts:128 | GC-220 `minor_current_country` defaults to 'United States' |
| AdobePdfServices.CitizenIsYesOnlyForTrue | lib/adobe-pdf-services.ts:143 | `is_citizen` is 'Yes' iff the answer is the boolean true, and 'No' otherwise |
| AdobePdfServices.Fl105Address | lib/adobe-pdf-services.ts:153 | FL-105 `minor_current_address` is street, ", ", city, ", ", state (default 'CA'), " ", zip |
| AdobePdfServices.Fl105OtherCases | lib/adobe-pdf-services.ts:156 | `other_court_cases` defaults to 'None' |
| AdobePdfServices.Fl105Violence | lib/adobe-pdf-services.ts:157 | `domestic_violence` defaults to 'None' |
| AdobePdfServices.EmptyAddressKeepsSeparators | lib/adobe-pdf-services.ts:153 | with no answers the address still reads ", , CA " |
| AdobePdfServices.Gc020CourtName | lib/adobe-pdf-services.ts:162 | `court_name` is the Alameda court constant |
| AdobePdfServices.Gc020CourtAddress | lib/adobe-pdf-services.ts:163 | `court_address` is the Fallon Street constant |
| AdobePdfServices.Gc020CaseNumber | lib/adobe-pdf-services.ts:164 | `case_number` is always `''` |
| AdobePdfServices.Gc020HearingDate | lib/adobe-pdf-services.ts:166 | `hearing_date` is always `''` |
| AdobePdfServices.Gc020HearingTime | lib/adobe-pdf-services.ts:167 | `hearing_time` is always `''` |
| AdobePdfServices.Gc020Department | lib/adobe-pdf-services.ts:168 | `department` is always `''` |
| AdobePdfServices.Gc020Petitioner | lib/adobe-pdf-services.ts:169 | `petitioner_name` comes from `guardian_name` |
| AdobePdfServices.RequestFor | lib/adobe-pdf-services.ts:75-82 | the request names the template `./public/templates/<type>.pdf`, passes the mapped fields, and names the output `<type>_<case id>.pdf` |
| AdobePdfServices.Attempts | lib/adobe-pdf-services.ts:74-82 | one outcome per mapped form, in order: outcome i is the fill of form i's request |
| AdobePdfServices.CollectKeys | lib/adobe-pdf-services.ts:74-89 | every key of the result is a mapped form type |
| AdobePdfServices.CollectCharacterised | lib/adobe-pdf-services.ts:74-89 | with distinct form types, a form is in the result iff its own fill succeeded, with that fill's buffer |
| AdobePdfServices.MappedTypesDistinct | lib/adobe-pdf-services.ts:199-205 | the mapped form types are distinct |
| AdobePdfServices.FillEach | lib/adobe-pdf-services.ts:74-89 | the loop's dictionary is the in-order collection of the successful fills |
| AdobePdfServices.GenerateGuardianshipForms | lib/adobe-pdf-services.ts:66-97 | fails exactly for a null or undefined case; otherwise fills every California form and keeps the successful ones |
| AdobePdfServices.FilledFormsCharacterised | lib/adobe-pdf-services.ts:73-89 | the result's keys are mapped form types, each present iff its fill succeeded, with its buffer |
| AdobePdfServices.CaliforniaFormsCharacterised | lib/adobe-pdf-services.ts:73-89 | for the California mapping: only California form types appear, each iff its fill succeeded |
| AdobePdfServices.OneFailureOmitsOnlyThatForm | lib/adobe-pdf-services.ts:85-88 | when exactly one fill fails, the result holds every other form type and only that one is missing |
| CourtLayout.EitherField | guardianship-forms/lib/vercel-pdf-generator.ts:191 | `a \|\| b \|\| ''`: the first alias when answered, else the second; empty iff both are |
| CourtLayout.CountyOf | guardianship-forms/lib/vercel-pdf-generator.ts:157 | never empty; the filing county when answered, otherwise 'LOS ANGELES' |
| CourtLayout.HeaderLayout | guardianship-forms/lib/vercel-pdf-generator.ts:65-143 | nine draws, all between 30 and 170 points below the top and above the content line; the county upper-cased after "COUNTY OF "; the title centred at 6 points per character on an even page width |
| CourtLayout.OptionalRow | guardianship-forms/lib/vercel-pdf-generator.ts:218-222 | two draws and the cursor lowered by the step when answered; nothing drawn and the cursor kept otherwise |
| CourtLayout.OptionalEntry | guardianship-forms/lib/vercel-pdf-generator.ts:167-170 | one attorney line when answered, none otherwise |
| CourtLayout.AttorneyEntries | guardianship-forms/lib/vercel-pdf-generator.ts:166-182 | one line per attorney answer present |
| CourtLayout.StackSpan | guardianship-forms/lib/vercel-pdf-generator.ts:166-182 | lines stacked `step` apart descend from the start to the cursor after them |
| CourtLayout.AttorneyBlockSpan | guardianship-forms/lib/vercel-pdf-generator.ts:166-182 | the attorney lines descend, lowering the cursor by 12 per line present (at most 48) |
| CourtLayout.MinorItemSpan | guardianship-forms/lib/vercel-pdf-generator.ts:187-211 | item 1 descends and lowers the cursor by 50 or 65 |
| CourtLayout.GuardianItemSpan | guardianship-forms/lib/vercel-pdf-generator.ts:213-234 | item 2 descends and lowers the cursor by 20 to 65 |
| CourtLayout.ParentsItemSpan | guardianship-forms/lib/vercel-pdf-generator.ts:236-253 | item 3 descends and lowers the cursor by 20 to 50 |
| CourtLayout.Gc210PartsSpan | guardianship-forms/lib/vercel-pdf-generator.ts:165-253 | each GC-210 part descends and ends above where the next begins |
| CourtLayout.Gc210BodySpan | guardianship-forms/lib/vercel-pdf-generator.ts:165-253 | the GC-210 body descends from 582 and stays at or above 304 |
| CourtLayout.Gc210FooterSpan | guardianship-forms/lib/vercel-pdf-generator.ts:255-282 | the footer rule at 60 and its captions at 45 |
| CourtLayout.Gc210Descends | guardianship-forms/lib/vercel-pdf-generator.ts:161-282 | the GC-210 cursor never moves up after the header, through to the footer |
| CourtLayout.AttorneyBlockShape | guardianship-forms/lib/vercel-pdf-generator.ts:166-182 | at most four attorney lines, 12 apart, and the cursor lowered 12 per line |
| CourtLayout.MinorItemShape | guardianship-forms/lib/vercel-pdf-generator.ts:187-198 | item 1 begins with its heading and the name and birth-date rows |
| CourtLayout.Gc210AttorneyThenMinor | guardianship-forms/lib/vercel-pdf-generator.ts:165-198 | the attorney lines come first from 582, and item 1's heading follows 30 below, with the name (alias fallback) and birth date (alias fallback) rows under it |
| CourtLayout.Gc210PartsLength | guardianship-forms/lib/vercel-pdf-generator.ts:165-253 | each part's draw count is its fixed draws plus one or two per answered optional field |
| CourtLayout.Gc210AbsentRowsDrawNothing | guardianship-forms/lib/vercel-pdf-generator.ts:165-253 | the GC-210 body holds 7 fixed draws plus one per attorney answer and two per answered optional row: an unanswered row draws nothing |
| CourtLayout.Explanation | guardianship-forms/lib/vercel-pdf-generator.ts:317-321 | one draw and the cursor lowered when answered; nothing otherwise |
| CourtLayout.ExplanationShape | guardianship-forms/lib/vercel-pdf-generator.ts:317-328 | an explanation is drawn at x = 60 as its first 250 characters |
| CourtLayout.Gc220HeadShape | guardianship-forms/lib/vercel-pdf-generator.ts:306-316 | the four fixed GC-220 lines descend from 572 to 522 |
| CourtLayout.Gc220ExplanationsTruncated | guardianship-forms/lib/vercel-pdf-generator.ts:317-328 | each explanation is drawn exactly when answered, as at most its first 250 characters (all of it when shorter); nothing else is at x = 60 |
| CourtLayout.Gc220Descends | guardianship-forms/lib/vercel-pdf-generator.ts:306-328 | the GC-220 body descends from 572 and ends no lower than 472 |
| CourtLayout.AddressLines | guardianship-forms/lib/vercel-pdf-generator.ts:386 | one trimmed line per comma-separated piece |
| CourtLayout.AddressEntries | guardianship-forms/lib/vercel-pdf-generator.ts:387-390 | each address line drawn in the body font |
| CourtLayout.AddressBlockLines | guardianship-forms/lib/vercel-pdf-generator.ts:382-391 | the address splits at every comma into pieces that rejoin to it; each trimmed piece is drawn at x = 50, 15 points apart, the first on the caption's own position; the cursor drops 15 per piece |
| CourtLayout.AddressBlockSpan | guardianship-forms/lib/vercel-pdf-generator.ts:382-391 | the residence block descends |
| CourtLayout.Fl105ChildRowsSpan | guardianship-forms/lib/vercel-pdf-generator.ts:358-376 | the child rows descend from 552 and lower the cursor by at most 45 |
| CourtLayout.Fl105Descends | guardianship-forms/lib/vercel-pdf-generator.ts:354-391 | the FL-105 body descends from 572 to the cursor after the last address line |
| CourtLayout.Fl105LongAddressCrossesFooter | guardianship-forms/lib/vercel-pdf-generator.ts:382-399 | an address of 32 or more pieces draws its last line below the footer rule at 60 |
| CourtLayout.HearingDetailsSpan | guardianship-forms/lib/vercel-pdf-generator.ts:449-467 | the six hearing lines descend over 95 points |
| CourtLayout.Gc020FooterSpan | guardianship-forms/lib/vercel-pdf-generator.ts:469-482 | the footer rule at 60 and the caption at 45 |
| CourtLayout.Gc020HearingBlock | guardianship-forms/lib/vercel-pdf-generator.ts:432-467 | the hearing block is always the last six draws and starts 20 lower per named minor or petitioner |
| CourtLayout.Gc020Descends | guardianship-forms/lib/vercel-pdf-generator.ts:432-482 | the GC-020 cursor never moves up after the header, through to the footer |
| CourtForms.DrawOptionalRow | guardianship-forms/lib/vercel-pdf-generator.ts:218-222 | appends exactly the optional row and returns its cursor |
| CourtForms.DrawRow | guardianship-forms/lib/vercel-pdf-generator.ts:192-193 | appends the caption and the value on one line |
| CourtForms.DrawAttorneyLine | guardianship-forms/lib/vercel-pdf-generator.ts:167-170 | appends one attorney line and lowers the cursor by 12 when answered; nothing otherwise |
| CourtForms.DrawAttorney | guardianship-forms/lib/vercel-pdf-generator.ts:166-182 | appends exactly the attorney lines and returns the cursor after them |
| CourtForms.DrawMinorItem | guardianship-forms/lib/vercel-pdf-generator.ts:187-211 | appends exactly item 1 |
| CourtForms.DrawGuardianItem | guardianship-forms/lib/vercel-pdf-generator.ts:213-234 | appends exactly item 2 |
| CourtForms.DrawParentsItem | guardianship-forms/lib/vercel-pdf-generator.ts:236-253 | appends exactly item 3 |
| CourtForms.DrawFooterStart | guardianship-forms/lib/vercel-pdf-generator.ts:256-268 | appends the rule at 60 and the revision caption at 45 |
| CourtForms.DrawExplanation | guardianship-forms/lib/vercel-pdf-generator.ts:317-321 | appends exactly the truncated explanation when answered |
| CourtForms.DrawAddressLines | guardianship-forms/lib/vercel-pdf-generator.ts:386-390 | the `forEach` loop appends one line per piece, 15 apart, and lowers the cursor 15 per piece |
| CourtForms.DrawAddressBlock | guardianship-forms/lib/vercel-pdf-generator.ts:382-391 | appends exactly the residence block |
| CourtForms.Gc210FooterDraws | guardianship-forms/lib/vercel-pdf-generator.ts:255-282 | the four GC-210 footer draws |
| CourtForms.Gc220HeadDraws | guardianship-forms/lib/vercel-pdf-generator.ts:306-316 | the GC-220 page opens with "IN THE MATTER OF:" and the minor's name at 572, then the findings heading at 542 and the first finding at 522 |
| CourtForms.Gc210PageDescends | guardianship-forms/lib/vercel-pdf-generator.ts:161-282 | after the nine header draws, the GC-210 page descends |
| CourtForms.Gc220PageDescends | guardianship-forms/lib/vercel-pdf-generator.ts:302-328 | after the nine header draws, the GC-220 page descends |
| CourtForms.Fl105PageDescends | guardianship-forms/lib/vercel-pdf-generator.ts:350-391 | between the header and the two footer draws, the FL-105 page descends |
| CourtForms.Gc020PageDescends | guardianship-forms/lib/vercel-pdf-generator.ts:428-482 | after the nine header draws, the GC-020 page descends |
| CourtForms.CourtFormGenerator.constructor | guardianship-forms/lib/vercel-pdf-generator.ts:21-24 | the templates directory is `public/templates` under the working directory |
| CourtForms.CourtFormGenerator.LoadTemplate | guardianship-forms/lib/vercel-pdf-generator.ts:29-58 | the loaded template iff the file exists, loads and has a page; a fresh document when it is missing, cannot be loaded or has no pages |
| CourtForms.CourtFormGenerator.DrawFormHeader | guardianship-forms/lib/vercel-pdf-generator.ts:65-144 | appends exactly the header draws and returns height − 200 (592 on the generators' page) |
| CourtForms.CourtFormGenerator.GenerateGC210 | guardianship-forms/lib/vercel-pdf-generator.ts:150-286 | the page holds the GC-210 header (default county, case number), body and footer, and descends after the header |
| CourtForms.CourtFormGenerator.GenerateGC220 | guardianship-forms/lib/vercel-pdf-generator.ts:292-332 | the page holds the GC-220 header and body, and descends after the header |
| CourtForms.CourtFormGenerator.GenerateFL105 | guardianship-forms/lib/vercel-pdf-generator.ts:338-410 | the page holds the FL-105 header, body and footer; the body descends |
| CourtForms.CourtFormGenerator.GenerateGC020 | guardianship-forms/lib/vercel-pdf-generator.ts:416-486 | the page holds the GC-020 header, body and footer, and descends after the header |

## Left out

- The Supabase calls in lib/cases.ts (`createCase`, `getUserCases`, `getCase`, `updateCase`, `deleteCase`) are network I/O. lib/supabase.ts is not part of this model beyond the shape of a case record.
- The clock is a parameter:
  - `formatRelativeTime` takes the elapsed milliseconds, and the locale's date text when a week or more has passed (`toLocaleDateString` is locale-dependent);
  - the auto-save events carry their times;
  - the footer year is a parameter.

  Invalid date strings (NaN arithmetic) are not modelled.
- Numbers are integers. Floating-point arithmetic is not modelled; the completion percentage is computed exactly, which agrees with the floating-point original because 100·c/95 is never a half.
- Case mapping is ASCII-only, and string lengths count characters. JavaScript's full Unicode case mapping and UTF-16 code units are not modelled.
- In hooks/useAutoSave.ts, the following are not modelled:
  - the `toast` and console output;
  - the `caseId` filter of the update;
  - React's re-render identity: every `formData` object is treated as a change;
  - a `formData` that is not an object: `!data` is never true for a record.
- The `fillPDFForm` mock and `generateMockPDFContent` are left out: the fill is a fallible function parameter. `validateCredentials` reads environment variables and is left out.
- Form values in the court-form generator are strings (`map<string, string>`): the generators call string methods on them. Non-string answers are not modelled.
- PdfLib.Page.DrawText: each text is taken as one line the standard font can encode. pdf-lib throws on characters its WinAnsi encoding cannot represent, and draws text containing line breaks as several lines below `y`; neither is modelled.
- CourtForms.CourtFormGenerator.GenerateGC210: produces a page for every input, where pdf-lib would throw on an answer it cannot encode; an answer with line breaks is one draw record here but several lines on the real page, so the descending property speaks of the draw calls.
- CourtForms.CourtFormGenerator.GenerateGC220: the same as GenerateGC210, which matters most for the free-text explanations.
- CourtForms.CourtFormGenerator.GenerateFL105: the same as GenerateGC210, including the address pieces.
- CourtForms.CourtFormGenerator.GenerateGC020: the same as GenerateGC210.
- pdf-lib is reduced to a list of draw records. Fonts, colours, border widths, line thickness and the saved PDF bytes are not modelled; each generator returns the draws of its page.
- `path.join` normalisation is not modelled: the template path is the directory, "/" and the file name.
- `loadTemplate` has no caller among the generators. It is modelled on its own, with the file system as a map from path to what the file holds.
- The other renderers (lib/html-pdf-generator.ts, lib/serverless-pdf-generator.ts, lib/vercel-pdf-generator.ts), the routes, the e-mail service, the pages, the components and the field-mapping data file are not part of this model.
