/** The formatting helpers of the job card (src/app/components/VacanteCard.js):
    list normalisation, joining location parts, description truncation,
    code-to-label tables, the salary line and the company fallbacks. */
module VacanteCard {
  import opened Js

  // ---------------------------------------------------------------------------
  // normalizeList

  /** The jobs of a response that is either an array or `{data: [...]}`. */
  function NormalizeList(payload: JsValue): (r: seq<JsValue>)
    ensures payload.Arr? ==> r == payload.items
    ensures !payload.Arr? && Get(payload, "data").Arr? ==> r == Get(payload, "data").items
    ensures !payload.Arr? && !Get(payload, "data").Arr? ==> r == []
  {
    if payload.Arr? then payload.items
    else if Truthy(payload) && Get(payload, "data").Arr? then Get(payload, "data").items
    else []
  }

  // ---------------------------------------------------------------------------
  // joinNonEmpty

  /** A part survives the filter when it is a string whose trimmed content is not empty. */
  predicate KeepsPart(x: JsValue) {
    x.Str? && Trim(x.s) != ""
  }

  /** `parts.filter((x) => typeof x === "string" && x.trim())`, as strings. */
  function KeptParts(parts: seq<JsValue>): (r: seq<string>)
    ensures |r| <= |parts|
    ensures forall x :: x in r ==> KeepsPart(Str(x)) && Str(x) in parts
    ensures forall x :: x in parts && KeepsPart(x) ==> x.s in r
  {
    if parts == [] then []
    else
      var rest := KeptParts(parts[1..]);
      assert parts == [parts[0]] + parts[1..];
      if KeepsPart(parts[0]) then [parts[0].s] + rest else rest
  }

  /** The filter keeps the original order: it distributes over concatenation. */
  lemma {:induction false} KeptPartsOfConcat(a: seq<JsValue>, b: seq<JsValue>)
    ensures KeptParts(a + b) == KeptParts(a) + KeptParts(b)
  {
    if a == [] {
      assert a + b == b;
    } else {
      assert (a + b)[0] == a[0];
      assert (a + b)[1..] == a[1..] + b;
      KeptPartsOfConcat(a[1..], b);
    }
  }

  /** `joinNonEmpty(parts, sep)` */
  function JoinNonEmpty(parts: seq<JsValue>, sep: string): string {
    Join(KeptParts(parts), sep)
  }

  /** No empty segment is ever joined: the line is blank exactly when no part
      is a non-blank string (the card then shows no location). */
  lemma JoinNonEmptyIsEmptyIff(parts: seq<JsValue>, sep: string)
    ensures JoinNonEmpty(parts, sep) == "" <==> forall x :: x in parts ==> !KeepsPart(x)
  {
    var kept := KeptParts(parts);
    assert Trim("") == "";
    assert forall i :: 0 <= i < |kept| ==> kept[i] in kept;
    JoinOfNonEmptyParts(kept, sep);
    if kept != [] {
      assert kept[0] in kept;
    }
  }

  /** A single part is kept as its string, or dropped. */
  lemma KeptPartsOfSingleton(x: JsValue)
    ensures KeptParts([x]) == if KeepsPart(x) then [x.s] else []
  {
    assert [x][1..] == [];
  }

  // ---------------------------------------------------------------------------
  // truncate

  const DefaultMaxChars: int := 160
  const Ellipsis: char := '…'

  /** `t.slice(0, end)` for `0 <= end`, or counting from the end when `end < 0`. */
  function SliceTo(t: string, end: int): (r: string)
    ensures r <= t
  {
    if end >= 0 then (if end <= |t| then t[..end] else t)
    else if |t| + end >= 0 then t[..|t| + end]
    else []
  }

  /** `t[..k]` is what `t.slice(0, n).trimEnd()` leaves: it does not end in
      whitespace, and only whitespace follows it up to position `n`. */
  predicate CutAt(t: string, n: nat, k: nat)
    requires k <= n <= |t|
  {
    (k == 0 || !IsJsSpace(t[k - 1])) && forall j :: k <= j < n ==> IsJsSpace(t[j])
  }

  /** `t.slice(0, n).trimEnd()` is the prefix of `t` cut as `CutAt` says. */
  lemma TrimEndOfPrefix(t: string, n: nat)
    requires n <= |t|
    ensures var p := TrimEnd(t[..n]); |p| <= n && p == t[..|p|] && CutAt(t, n, |p|)
  {
    var s := t[..n];
    var p := TrimEnd(s);
    assert p == s[..|p|];
    forall j | |p| <= j < n ensures IsJsSpace(t[j]) {
      assert t[j] == s[|p|..][j - |p|];
    }
  }

  /** `truncate(text, max)` */
  function Truncate(text: JsValue, max: int): (r: string)
    ensures !text.Str? ==> r == ""
    ensures text.Str? && |Trim(text.s)| <= max ==> r == Trim(text.s)
    ensures text.Str? && |Trim(text.s)| > max && max >= 0 ==>
      var t := Trim(text.s);
      exists k: nat :: k <= max && CutAt(t, max, k) && r == t[..k] + [Ellipsis]
    ensures max >= 0 ==> |r| <= max + 1
  {
    if !Truthy(text) || !text.Str? then ""
    else
      var t := Trim(text.s);
      if |t| <= max then t
      else
        var p := TrimEnd(SliceTo(t, max));
        assert max >= 0 ==> |p| <= max && p == t[..|p|] && CutAt(t, max, |p|) by {
          if max >= 0 {
            assert SliceTo(t, max) == t[..max];
            TrimEndOfPrefix(t, max);
          }
        }
        p + [Ellipsis]
  }

  /** With the card's default limit a description shows at most 160
      characters of text before the ellipsis, and a short one is only trimmed. */
  lemma TruncateDefault(text: string)
    ensures |Truncate(Str(text), DefaultMaxChars)| <= DefaultMaxChars + 1
    ensures |Trim(text)| <= DefaultMaxChars ==> Truncate(Str(text), DefaultMaxChars) == Trim(text)
  {
  }

  // ---------------------------------------------------------------------------
  // formatModalidad, formatWorkType, formatPayPeriod

  datatype Chip = Chip(caption: string, cls: string)

  const ModalidadChips: map<string, Chip> := map[
    "REMOTE" := Chip("Remoto", "jc-chip--remote"),
    "HYBRID" := Chip("Híbrido", "jc-chip--hybrid"),
    "ONSITE" := Chip("Presencial", "jc-chip--onsite")
  ]

  /** `formatModalidad(m)`: None stands for the empty string it returns on falsy input. */
  function FormatModalidad(m: JsValue): (r: Option<Chip>)
    ensures r.None? <==> !Truthy(m)
    ensures m.Str? && m.s in ModalidadChips ==> r == Some(ModalidadChips[m.s])
    ensures Truthy(m) && !(m.Str? && m.s in ModalidadChips) ==>
      r.Some? && r.value.cls == "" && |r.value.caption| == |ToJsString(m)|
      && forall i :: 0 <= i < |r.value.caption| ==>
           r.value.caption[i] == if ToJsString(m)[i] == '_' then ' ' else ToJsString(m)[i]
  {
    if !Truthy(m) then None
    else if m == Str("REMOTE") then Some(Chip("Remoto", "jc-chip--remote"))
    else if m == Str("HYBRID") then Some(Chip("Híbrido", "jc-chip--hybrid"))
    else if m == Str("ONSITE") then Some(Chip("Presencial", "jc-chip--onsite"))
    else Some(Chip(ReplaceChar(ToJsString(m), '_', ' '), ""))
  }

  const WorkTypeLabels: map<string, string> := map[
    "FULL_TIME" := "Tiempo completo",
    "PART_TIME" := "Medio tiempo",
    "CONTRACT" := "Contrato",
    "INTERNSHIP" := "Prácticas",
    "TEMPORARY" := "Temporal"
  ]

  /** `formatWorkType(w)`: the table entry for the property key `String(w)`,
      else that key with every `_` turned into a space. */
  function FormatWorkType(w: JsValue): (r: string)
    ensures !Truthy(w) ==> r == ""
    ensures Truthy(w) && ToJsString(w) in WorkTypeLabels ==> r == WorkTypeLabels[ToJsString(w)]
    ensures Truthy(w) && ToJsString(w) !in WorkTypeLabels ==>
      |r| == |ToJsString(w)|
      && forall i :: 0 <= i < |r| ==> r[i] == if ToJsString(w)[i] == '_' then ' ' else ToJsString(w)[i]
    ensures r == "" <==> !Truthy(w) || ToJsString(w) == ""
  {
    if !Truthy(w) then ""
    else
      var key := ToJsString(w);
      if key in WorkTypeLabels then WorkTypeLabels[key] else ReplaceChar(key, '_', ' ')
  }

  const PayPeriodLabels: map<string, string> := map[
    "HOURLY" := "hora",
    "DAILY" := "día",
    "WEEKLY" := "semana",
    "BIWEEKLY" := "quincena",
    "MONTHLY" := "mes",
    "YEARLY" := "año"
  ]

  /** `formatPayPeriod(p)`: the table entry, else the code lower-cased. */
  function FormatPayPeriod(p: JsValue): (r: string)
    ensures !Truthy(p) ==> r == ""
    ensures Truthy(p) && ToJsString(p) in PayPeriodLabels ==> r == PayPeriodLabels[ToJsString(p)]
    ensures Truthy(p) && ToJsString(p) !in PayPeriodLabels ==>
      |r| == |ToJsString(p)| && (forall i :: 0 <= i < |r| ==> r[i] == LowerChar(ToJsString(p)[i]))
      && forall i :: 0 <= i < |r| ==> !('A' <= r[i] <= 'Z')
    ensures r == "" <==> !Truthy(p) || ToJsString(p) == ""
  {
    if !Truthy(p) then ""
    else
      var key := ToJsString(p);
      if key in PayPeriodLabels then PayPeriodLabels[key] else ToLower(key)
  }

  // ---------------------------------------------------------------------------
  // formatSalario

  /** `v != null && v !== "" && !Number.isNaN(Number(v))` */
  predicate HasAmount(v: JsValue) {
    !v.Null? && !v.Undefined? && v != Str("") && !ToNumber(v).NaN?
  }

  /** `" / " + period` when the formatted pay period is not empty. */
  function PeriodSuffix(payPeriod: JsValue): (r: string)
    ensures r == "" <==> FormatPayPeriod(payPeriod) == ""
  {
    var period := FormatPayPeriod(payPeriod);
    if period != "" then " / " + period else ""
  }

  /** `formatSalario(min, max, currency, payPeriod)`; `money` stands for the
      locale-dependent `formatMoney`. */
  function FormatSalario(min: JsValue, max: JsValue, currency: JsValue, payPeriod: JsValue,
                         money: (JsValue, JsValue) -> string): (r: string)
    ensures r == "" <==> !HasAmount(min) && !HasAmount(max)
    ensures HasAmount(min) && HasAmount(max) ==>
      r == money(min, currency) + " - " + money(max, currency) + PeriodSuffix(payPeriod)
    ensures HasAmount(min) && !HasAmount(max) ==>
      r == money(min, currency) + "+" + PeriodSuffix(payPeriod)
    ensures !HasAmount(min) && HasAmount(max) ==>
      r == "Hasta " + money(max, currency) + PeriodSuffix(payPeriod)
  {
    var hasMin := HasAmount(min);
    var hasMax := HasAmount(max);
    if !hasMin && !hasMax then ""
    else
      var suffix := PeriodSuffix(payPeriod);
      if hasMin && hasMax then money(min, currency) + " - " + money(max, currency) + suffix
      else if hasMin then money(min, currency) + "+" + suffix
      else "Hasta " + money(max, currency) + suffix
  }

  /** The salary line ends with the pay-period suffix whenever it is shown. */
  lemma SalarioEndsWithPeriod(min: JsValue, max: JsValue, currency: JsValue, payPeriod: JsValue,
                              money: (JsValue, JsValue) -> string)
    requires HasAmount(min) || HasAmount(max)
    requires FormatPayPeriod(payPeriod) != ""
    ensures var r := FormatSalario(min, max, currency, payPeriod, money);
            var suffix := " / " + FormatPayPeriod(payPeriod);
            |suffix| <= |r| && r[|r| - |suffix|..] == suffix
  {
    var r := FormatSalario(min, max, currency, payPeriod, money);
    var suffix := " / " + FormatPayPeriod(payPeriod);
    assert PeriodSuffix(payPeriod) == suffix;
    var body := if HasAmount(min) && HasAmount(max) then money(min, currency) + " - " + money(max, currency)
                else if HasAmount(min) then money(min, currency) + "+"
                else "Hasta " + money(max, currency);
    assert r == body + suffix;
  }

  // ---------------------------------------------------------------------------
  // getCompanyName, getCompanyLogo, getCompanyId

  /** The name candidates, in the order the card tries them. */
  function NameCandidates(job: JsValue, companyOverride: JsValue): seq<JsValue> {
    [Get(companyOverride, "name"), Get(Get(job, "company"), "name"), Get(job, "company_name")]
  }

  /** `getCompanyName(job, companyOverride)`: the first truthy of the override's
      name, the nested company's name and the job's flat `company_name`, else "". */
  function GetCompanyName(job: JsValue, companyOverride: JsValue): (r: JsValue)
    ensures PicksFirstTruthy(NameCandidates(job, companyOverride), Str(""), r)
  {
    OrChainPicksFirstTruthy(NameCandidates(job, companyOverride), Str(""));
    OrChain(NameCandidates(job, companyOverride) + [Str("")])
  }

  /** The logo candidates, in the order the card tries them. */
  function LogoCandidates(job: JsValue, companyOverride: JsValue): seq<JsValue> {
    [ Get(companyOverride, "logo_full_path"), Get(companyOverride, "logo"),
      Get(Get(job, "company"), "logo_full_path"), Get(Get(job, "company"), "logo"),
      Get(job, "logo_full_path") ]
  }

  /** `getCompanyLogo(job, companyOverride)`: the first truthy candidate, else "". */
  function GetCompanyLogo(job: JsValue, companyOverride: JsValue): (r: JsValue)
    ensures PicksFirstTruthy(LogoCandidates(job, companyOverride), Str(""), r)
  {
    OrChainPicksFirstTruthy(LogoCandidates(job, companyOverride), Str(""));
    OrChain(LogoCandidates(job, companyOverride) + [Str("")])
  }

  /** The company-id candidates, in the order the card tries them. */
  function IdCandidates(job: JsValue, companyOverride: JsValue): seq<JsValue> {
    [Get(companyOverride, "company_id"), Get(Get(job, "company"), "company_id"), Get(job, "company_id")]
  }

  /** `getCompanyId(job, companyOverride)`: the first truthy candidate, else `null`. */
  function GetCompanyId(job: JsValue, companyOverride: JsValue): (r: JsValue)
    ensures PicksFirstTruthy(IdCandidates(job, companyOverride), Null, r)
  {
    OrChainPicksFirstTruthy(IdCandidates(job, companyOverride), Null);
    OrChain(IdCandidates(job, companyOverride) + [Null])
  }

  /** The company id the card links with is either truthy or `null`, and the
      override wins whenever its id is truthy. */
  lemma CompanyIdPriority(job: JsValue, companyOverride: JsValue)
    ensures var r := GetCompanyId(job, companyOverride);
      && (Truthy(r) || r == Null)
      && (Truthy(Get(companyOverride, "company_id")) ==> r == Get(companyOverride, "company_id"))
  {
    var c := IdCandidates(job, companyOverride);
    var r := GetCompanyId(job, companyOverride);
    if !(forall j :: 0 <= j < |c| ==> !Truthy(c[j])) {
      var i := if Truthy(c[0]) then 0 else if Truthy(c[1]) then 1 else 2;
      assert Truthy(c[i]) && forall j :: 0 <= j < i ==> !Truthy(c[j]);
    }
    assert Truthy(c[0]) ==> r == c[0];
  }
}
