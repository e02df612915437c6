/**
 * The pure helpers of lib/cases.ts: the completion estimate of a case's form
 * data, the dashboard's status badge, case search, and relative-time text.
 */
module Cases {
  import opened Wrappers
  import opened JsText
  import opened JsValue

  /** The size of the full field inventory a complete intake answers. */
  const TotalFields: nat := 95

  /** A case record, as far as the modelled helpers read it. */
  datatype Case = Case(
    id: string,
    userEmail: string,
    status: string,
    formData: Record,
    completionPercentage: int,
    minorName: Option<string>,
    updatedAt: string)

  // ------------------------------------------------------------ completion

  /**
   * `Math.round(count / TotalFields * 100)` in exact arithmetic: the integer
   * nearest to 100·count/95, halves rounded up. 100·count/95 = 20·count/19 is
   * never a half, so the floating-point original rounds the same way.
   */
  function RoundedPercent(count: nat): (p: nat)
    ensures 2 * TotalFields * p - TotalFields <= 200 * count < 2 * TotalFields * p + TotalFields
  {
    (200 * count + TotalFields) / (2 * TotalFields)
  }

  /** `Math.min(100, Math.round(count / TotalFields * 100))` */
  function CappedPercent(count: nat): (p: nat)
    ensures p <= 100
    ensures count >= TotalFields ==> p == 100
    ensures count < TotalFields ==> p == RoundedPercent(count) && p < 100
  {
    var p := RoundedPercent(count);
    if p < 100 then p else 100
  }

  lemma CappedPercentMonotone(a: nat, b: nat)
    requires a <= b
    ensures CappedPercent(a) <= CappedPercent(b)
  {
    var pa, pb := RoundedPercent(a), RoundedPercent(b);
    assert 2 * TotalFields * pa - TotalFields <= 200 * a <= 200 * b < 2 * TotalFields * pb + TotalFields;
  }

  /** A value counts as answered unless it is null, undefined, `''` or the string `'null'`. */
  predicate IsAnswered(v: Value) {
    v != Null && v != Undefined && v != Str("") && v != Str("null")
  }

  function CountAnswered(r: Record): (n: nat)
    ensures n <= |r|
  {
    if r == [] then 0 else (if IsAnswered(r[0].val) then 1 else 0) + CountAnswered(r[1..])
  }

  lemma {:induction false} CountAnsweredAppend(r: Record, m: Member)
    ensures CountAnswered(r + [m]) == CountAnswered(r) + (if IsAnswered(m.val) then 1 else 0)
    decreases |r|
  {
    if r != [] {
      assert (r + [m])[1..] == r[1..] + [m];
      CountAnsweredAppend(r[1..], m);
    }
  }

  /** `calculateCompletionPercentage`: absent or key-less form data is 0 % complete. */
  function CompletionPercentage(formData: Option<Record>): (p: nat)
    ensures p <= 100
    ensures formData.None? || formData.value == [] ==> p == 0
    ensures formData.Some? && CountAnswered(formData.value) >= TotalFields ==> p == 100
  {
    if formData.None? || |formData.value| == 0 then 0
    else CappedPercent(CountAnswered(formData.value))
  }

  /** The estimate is the answered share of the inventory, rounded to the nearest percent and capped at 100. */
  lemma CompletionIsRoundedShare(r: Record)
    ensures var c, p := CountAnswered(r), CompletionPercentage(Some(r));
      && (c >= TotalFields ==> p == 100)
      && (c < TotalFields ==> 2 * TotalFields * p - TotalFields <= 200 * c < 2 * TotalFields * p + TotalFields)
  {
  }

  /**
   * Answering one more field never lowers the estimate. The appended member
   * may repeat a key already present: the count looks only at values, so the
   * property holds without asking for a fresh key.
   */
  lemma CompletionMonotone(r: Record, m: Member)
    ensures CompletionPercentage(Some(r)) <= CompletionPercentage(Some(r + [m]))
  {
    CountAnsweredAppend(r, m);
    if r != [] {
      CappedPercentMonotone(CountAnswered(r), CountAnswered(r + [m]));
    }
  }

  // ---------------------------------------------------------- status badge

  datatype Variant = Default | Secondary

  datatype Badge = Badge(color: string, text: string, variant: Variant)

  /** `getStatusConfig`: the badge shown for a case on the dashboard. */
  function StatusConfig(percentage: int, status: string): (b: Badge)
    ensures b.text == "Generated" <==> status == "generated"
    ensures b.text == "Ready" <==> status != "generated" && (status == "ready" || percentage == 100)
    ensures b.text == "In Progress" <==> status != "generated" && status != "ready" && percentage != 100 && percentage > 70
    ensures b.text == "Partial" <==> status != "generated" && status != "ready" && 30 < percentage <= 70
    ensures b.text == "Started" <==> status != "generated" && status != "ready" && percentage <= 30
    ensures b.variant == Default <==> b.text == "Generated" || b.text == "Ready"
    ensures b.color == "bg-purple-500" <==> b.text == "Generated"
    ensures b.color == "bg-green-500" <==> b.text == "Ready"
    ensures b.color == "bg-blue-500" <==> b.text == "In Progress"
    ensures b.color == "bg-yellow-500" <==> b.text == "Partial"
    ensures b.color == "bg-red-500" <==> b.text == "Started"
  {
    if status == "generated" then Badge("bg-purple-500", "Generated", Default)
    else if status == "ready" || percentage == 100 then Badge("bg-green-500", "Ready", Default)
    else if percentage > 70 then Badge("bg-blue-500", "In Progress", Secondary)
    else if percentage > 30 then Badge("bg-yellow-500", "Partial", Secondary)
    else Badge("bg-red-500", "Started", Secondary)
  }

  /**
   * For a draft case whose stored percentage is the estimate of its form data,
   * the badge follows the number of answered fields: 95 or more Ready, 67 to 94
   * In Progress, 29 to 66 Partial, fewer Started.
   */
  lemma {:induction false} DraftBadgeByAnsweredCount(formData: Record, status: string)
    requires status != "generated" && status != "ready"
    ensures var c, b := CountAnswered(formData), StatusConfig(CompletionPercentage(Some(formData)), status);
      && (b.text == "Ready" <==> c >= 95)
      && (b.text == "In Progress" <==> 67 <= c < 95)
      && (b.text == "Partial" <==> 29 <= c < 67)
      && (b.text == "Started" <==> c < 29)
  {
    var c := CountAnswered(formData);
    var p := CompletionPercentage(Some(formData));
    if formData == [] {
      assert c == 0 && p == 0;
    } else if c < TotalFields {
      assert p == RoundedPercent(c);
      assert p > 70 <==> c >= 67;
      assert p > 30 <==> c >= 29;
    }
  }

  // ---------------------------------------------------------------- search

  /** `a` is `b` with some elements left out, in the original order. */
  predicate IsSubsequence<T(==)>(a: seq<T>, b: seq<T>) {
    if a == [] then true
    else if b == [] then false
    else if a[0] == b[0] then IsSubsequence(a[1..], b[1..])
    else IsSubsequence(a, b[1..])
  }

  /** The lowercased display name: `case_.minor_name?.toLowerCase() || ''`. */
  function LowerMinorName(c: Case): string {
    if c.minorName.None? then "" else ToLower(c.minorName.value)
  }

  /** A case matches a lowercased term through its name or its serialised form data. */
  predicate Matches(c: Case, term: string) {
    Includes(LowerMinorName(c), term) || Includes(ToLower(JsonRecord(c.formData)), term)
  }

  /** `cases.filter(...)` with the matching predicate. */
  function FilterMatching(cases: seq<Case>, term: string): (r: seq<Case>)
    ensures IsSubsequence(r, cases)
    ensures forall c :: c in r <==> c in cases && Matches(c, term)
    ensures forall c :: multiset(r)[c] == if Matches(c, term) then multiset(cases)[c] else 0
  {
    if cases == [] then []
    else
      var rest := FilterMatching(cases[1..], term);
      assert cases == [cases[0]] + cases[1..];
      assert multiset(cases) == multiset{cases[0]} + multiset(cases[1..]);
      if Matches(cases[0], term) then
        assert multiset([cases[0]] + rest) == multiset{cases[0]} + multiset(rest);
        [cases[0]] + rest
      else rest
  }

  /** `searchCases`: a blank term keeps every case; otherwise keep the matching ones, in order. */
  function SearchCases(cases: seq<Case>, searchTerm: string): (r: seq<Case>)
    ensures AllSpace(searchTerm) ==> r == cases
    ensures !AllSpace(searchTerm) ==> IsSubsequence(r, cases)
    ensures !AllSpace(searchTerm) ==> forall c :: c in r <==> c in cases && Matches(c, ToLower(searchTerm))
    ensures !AllSpace(searchTerm) ==>
      forall c :: multiset(r)[c] == if Matches(c, ToLower(searchTerm)) then multiset(cases)[c] else 0
  {
    TrimEmptyIffAllSpace(searchTerm);
    if Trim(searchTerm) == "" then cases
    else FilterMatching(cases, ToLower(searchTerm))
  }

  // --------------------------------------------------------- relative time

  const MsPerMinute: nat := 60000
  const MsPerHour: nat := 3600000
  const MsPerDay: nat := 86400000

  /** `n` whole units of `unit` milliseconds have elapsed, and not `n + 1`. */
  predicate Elapsed(elapsedMs: int, unit: nat, n: nat) {
    n * unit <= elapsedMs < (n + 1) * unit
  }

  /** "N min ago", "N hour(s) ago", "N day(s) ago" */
  function Ago(n: nat, unit: string, plural: bool): string {
    NatToString(n) + " " + unit + (if plural && n != 1 then "s" else "") + " ago"
  }

  /**
   * `formatRelativeTime`, given the milliseconds elapsed since the time stamp
   * and the locale's rendering of its date (used from a week on).
   */
  function FormatRelativeTime(elapsedMs: int, localeDate: string): (r: string)
    ensures elapsedMs < MsPerMinute ==> r == "just now"
    ensures MsPerMinute <= elapsedMs < MsPerHour ==>
      exists n: nat :: 1 <= n < 60 && Elapsed(elapsedMs, MsPerMinute, n) && r == Ago(n, "min", false)
    ensures MsPerHour <= elapsedMs < 24 * MsPerHour ==>
      exists n: nat :: 1 <= n < 24 && Elapsed(elapsedMs, MsPerHour, n) && r == Ago(n, "hour", true)
    ensures 24 * MsPerHour <= elapsedMs < 7 * MsPerDay ==>
      exists n: nat :: 1 <= n < 7 && Elapsed(elapsedMs, MsPerDay, n) && r == Ago(n, "day", true)
    ensures elapsedMs >= 7 * MsPerDay ==> r == localeDate
  {
    var minutes := elapsedMs / MsPerMinute;
    var hours := elapsedMs / MsPerHour;
    var days := elapsedMs / MsPerDay;
    if minutes < 1 then "just now"
    else if minutes < 60 then
      assert Elapsed(elapsedMs, MsPerMinute, minutes);
      Ago(minutes, "min", false)
    else if hours < 24 then
      assert Elapsed(elapsedMs, MsPerHour, hours);
      Ago(hours, "hour", true)
    else if days < 7 then
      assert Elapsed(elapsedMs, MsPerDay, days);
      Ago(days, "day", true)
    else localeDate
  }
}
