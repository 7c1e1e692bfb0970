/** Publishing a vacancy (src/app/components/Vacantes.js): the form state, the
    country/state/city cascade of its selects, the required-field gate, the
    salary-range parser and the payload posted to the backend. */
module Vacantes {
  import opened Js

  datatype JobForm = JobForm(
    titulo: string,
    descripcion: string,
    salario: string,
    country: string,
    state: string,
    city: string,
    work_type: string,
    work_location_type: string)

  const EmptyJobForm: JobForm := JobForm("", "", "", "", "", "", "", "")

  /** Any of the seven required fields is empty (the salary text is optional). */
  predicate MissingRequired(f: JobForm) {
    f.titulo == "" || f.descripcion == "" || f.country == "" || f.state == "" || f.city == ""
    || f.work_type == "" || f.work_location_type == ""
  }

  // ---------------------------------------------------------------------------
  // Salary parsing: salario.replace(/,/g, "").match(/(\d+)\s*-\s*(\d+)/)

  /** `s.replace(/,/g, "")` */
  function StripCommas(s: string): (r: string)
    ensures !Contains(r, ',')
    ensures |r| <= |s|
    ensures !Contains(s, ',') ==> r == s
  {
    if s == [] then []
    else
      var rest := StripCommas(s[1..]);
      assert !Contains(s, ',') ==> !Contains(s[1..], ',') by {
        if Contains(s[1..], ',') {
          var k :| 0 <= k < |s[1..]| && s[1..][k] == ',';
          assert s[k + 1] == ',';
        }
      }
      assert s == [s[0]] + s[1..];
      if s[0] == ',' then rest
      else
        var r := [s[0]] + rest;
        assert forall k :: 1 <= k < |r| ==> r[k] == rest[k - 1];
        r
  }

  /** A single character is dropped when it is a comma and kept otherwise. */
  lemma StripCommasOfChar(c: char)
    ensures StripCommas([c]) == if c == ',' then [] else [c]
  {
    assert [c][1..] == [];
  }

  /** The strip works character by character: it distributes over
      concatenation, so every other character survives, in order. */
  lemma {:induction false} StripCommasOfConcat(a: string, b: string)
    ensures StripCommas(a + b) == StripCommas(a) + StripCommas(b)
  {
    if a == [] {
      assert a + b == b;
    } else {
      assert (a + b)[0] == a[0];
      assert (a + b)[1..] == a[1..] + b;
      StripCommasOfConcat(a[1..], b);
    }
  }

  /** The end of the longest run of digits starting at `i`. */
  function DigitRun(s: string, i: nat): (j: nat)
    requires i <= |s|
    ensures i <= j <= |s|
    ensures forall k :: i <= k < j ==> IsDigit(s[k])
    ensures j == |s| || !IsDigit(s[j])
    decreases |s| - i
  {
    if i == |s| || !IsDigit(s[i]) then i else DigitRun(s, i + 1)
  }

  /** The end of the longest run of whitespace (`\s`) starting at `i`. */
  function SpaceRun(s: string, i: nat): (j: nat)
    requires i <= |s|
    ensures i <= j <= |s|
    ensures forall k :: i <= k < j ==> IsJsSpace(s[k])
    ensures j == |s| || !IsJsSpace(s[j])
    decreases |s| - i
  {
    if i == |s| || !IsJsSpace(s[i]) then i else SpaceRun(s, i + 1)
  }

  /** The regular expression `(\d+)\s*-\s*(\d+)` matches `s[i..d]`, with the
      groups `s[i..a]` and `s[c..d]` and the dash at `m`. */
  predicate RangeMatch(s: string, i: nat, a: nat, m: nat, c: nat, d: nat) {
    && i < a <= m < c < d <= |s|
    && (forall k :: i <= k < a ==> IsDigit(s[k]))
    && (forall k :: a <= k < m ==> IsJsSpace(s[k]))
    && s[m] == '-'
    && (forall k :: m < k < c ==> IsJsSpace(s[k]))
    && (forall k :: c <= k < d ==> IsDigit(s[k]))
  }

  /** No match of the pattern starts at `i`. */
  ghost predicate NoMatchAt(s: string, i: nat) {
    forall a: nat, m: nat, c: nat, d: nat :: !RangeMatch(s, i, a, m, c, d)
  }

  /** A match: it starts at `start`, the first group ends at `a`, the dash is
      at `m`, the second group is `s[c..end]`. */
  datatype Match = Match(start: nat, a: nat, m: nat, c: nat, end: nat)

  /** A match the engine can report: it is a match, and its second group
      cannot be extended (the quantifier is greedy). */
  predicate IsGreedyMatch(s: string, g: Match) {
    RangeMatch(s, g.start, g.a, g.m, g.c, g.end) && (g.end == |s| || !IsDigit(s[g.end]))
  }

  /** The match the regular-expression engine finds at `i`, greedy in every part. */
  function MatchAt(s: string, i: nat): (r: Option<Match>)
    requires i <= |s|
    ensures r.Some? ==> r.value.start == i && IsGreedyMatch(s, r.value)
    ensures r.None? ==> NoMatchAt(s, i)
  {
    var a := DigitRun(s, i);
    var m := SpaceRun(s, a);
    if a == i || m == |s| || s[m] != '-' then
      MatchAtComplete(s, i);
      None
    else
      var c := SpaceRun(s, m + 1);
      var d := DigitRun(s, c);
      if d == c then
        MatchAtComplete(s, i);
        None
      else Some(Match(i, a, m, c, d))
  }

  /** Every match at `i` has the groups the greedy runs find. */
  lemma MatchAtComplete(s: string, i: nat)
    requires i <= |s|
    ensures forall a: nat, m: nat, c: nat, d: nat :: RangeMatch(s, i, a, m, c, d) ==>
      && a == DigitRun(s, i)
      && m == SpaceRun(s, a)
      && c == SpaceRun(s, m + 1)
      && d <= DigitRun(s, c)
  {
    forall a: nat, m: nat, c: nat, d: nat | RangeMatch(s, i, a, m, c, d)
      ensures && a == DigitRun(s, i)
              && m == SpaceRun(s, a)
              && c == SpaceRun(s, m + 1)
              && d <= DigitRun(s, c)
    {
      assert !IsDigit(s[a]) by { assert a < m ==> IsJsSpace(s[a]); }
      assert !IsJsSpace(s[m]);
      assert !IsJsSpace(s[c]) by { assert IsDigit(s[c]); }
    }
  }

  /** The leftmost match starting at or after `i`. */
  function Search(s: string, i: nat): (r: Option<Match>)
    requires i <= |s|
    ensures r.Some? ==> i <= r.value.start && IsGreedyMatch(s, r.value)
                        && forall j :: i <= j < r.value.start ==> NoMatchAt(s, j)
    ensures r.None? ==> forall j :: i <= j < |s| ==> NoMatchAt(s, j)
    decreases |s| - i
  {
    if i == |s| then None
    else
      match MatchAt(s, i)
      case Some(g) => Some(g)
      case None => Search(s, i + 1)
  }

  /** The two numbers of the leftmost `digits - digits` in the salary text,
      commas removed first; None (both `null`) when there is no such text. */
  function ParseSalaryRange(salario: string): (r: Option<(int, int)>)
    ensures var t := StripCommas(salario);
      r.None? <==> forall j :: 0 <= j < |t| ==> NoMatchAt(t, j)
    ensures var t := StripCommas(salario);
      r.Some? ==> exists g :: IsGreedyMatch(t, g) && (forall j :: 0 <= j < g.start ==> NoMatchAt(t, j))
                              && r.value == (DigitsValue(t[g.start..g.a]), DigitsValue(t[g.c..g.end]))
  {
    var t := StripCommas(salario);
    match Search(t, 0)
    case None => None
    case Some(g) =>
      var r := (DigitsValue(t[g.start..g.a]), DigitsValue(t[g.c..g.end]));
      assert !NoMatchAt(t, g.start) by { assert RangeMatch(t, g.start, g.a, g.m, g.c, g.end); }
      assert IsGreedyMatch(t, g) && (forall j :: 0 <= j < g.start ==> NoMatchAt(t, j))
             && r == (DigitsValue(t[g.start..g.a]), DigitsValue(t[g.c..g.end]));
      Some(r)
  }

  /** The bounds are taken as written: nothing checks that the minimum does
      not exceed the maximum, so "9-1" yields a minimum of 9 and a maximum of 1. */
  lemma ParseSalaryRangeKeepsOrder()
    ensures ParseSalaryRange("9-1") == Some((9, 1))
  {
    var t := "9-1";
    assert !Contains(t, ',');
    assert DigitRun(t, 1) == 1;
    assert DigitRun(t, 0) == 1;
    assert SpaceRun(t, 1) == 1;
    assert SpaceRun(t, 2) == 2;
    assert DigitRun(t, 3) == 3;
    assert DigitRun(t, 2) == 3;
    assert MatchAt(t, 0) == Some(Match(0, 1, 1, 2, 3));
    assert t[0..1] == "9";
    assert t[2..3] == "1";
  }

  // ---------------------------------------------------------------------------
  // The payload

  datatype JobPayload = JobPayload(
    title: string,
    description: string,
    work_type: string,
    work_location_type: string,
    country: string,
    state: string,
    city: string,
    min_salary: Option<int>,
    max_salary: Option<int>,
    pay_period: string,
    currency: string,
    company_id: int)

  /** The body `publicarVacante` posts: the form copied verbatim, the salary
      bounds parsed from the salary text (both or neither), and fixed
      `MONTHLY`, `MXN` and company 1. */
  function BuildJobPayload(f: JobForm): (r: JobPayload)
    ensures r.title == f.titulo && r.description == f.descripcion
    ensures r.work_type == f.work_type && r.work_location_type == f.work_location_type
    ensures r.country == f.country && r.state == f.state && r.city == f.city
    ensures r.pay_period == "MONTHLY" && r.currency == "MXN" && r.company_id == 1
    ensures r.min_salary.Some? <==> r.max_salary.Some?
    ensures r.min_salary.None? <==> ParseSalaryRange(f.salario).None?
    ensures r.min_salary.Some? ==> (r.min_salary.value, r.max_salary.value) == ParseSalaryRange(f.salario).value
  {
    var range := ParseSalaryRange(f.salario);
    var minSalary := if range.Some? then Some(range.value.0) else None;
    var maxSalary := if range.Some? then Some(range.value.1) else None;
    JobPayload(f.titulo, f.descripcion, f.work_type, f.work_location_type,
               f.country, f.state, f.city, minSalary, maxSalary, "MONTHLY", "MXN", 1)
  }

  // ---------------------------------------------------------------------------
  // The screen

  /** The fields edited by plain text inputs and the two type selects. */
  datatype TextField = Titulo | Descripcion | Salario | WorkType | WorkLocationType

  /** The publishing screen: its `form` state, replaced on every change. */
  class VacantesScreen {
    var form: JobForm

    constructor ()
      ensures form == EmptyJobForm
    {
      form := EmptyJobForm;
    }

    /** A text input or a type select changes its own field only. */
    method Edit(field: TextField, value: string)
      modifies this
      ensures form == match field
        case Titulo => old(form).(titulo := value)
        case Descripcion => old(form).(descripcion := value)
        case Salario => old(form).(salario := value)
        case WorkType => old(form).(work_type := value)
        case WorkLocationType => old(form).(work_location_type := value)
    {
      match field
      case Titulo => form := form.(titulo := value);
      case Descripcion => form := form.(descripcion := value);
      case Salario => form := form.(salario := value);
      case WorkType => form := form.(work_type := value);
      case WorkLocationType => form := form.(work_location_type := value);
    }

    /** Choosing a country clears the state and the city. */
    method SelectCountry(value: string)
      modifies this
      ensures form == old(form).(country := value, state := "", city := "")
    {
      form := form.(country := value, state := "", city := "");
    }

    /** Choosing a state clears the city. */
    method SelectState(value: string)
      modifies this
      ensures form == old(form).(state := value, city := "")
    {
      form := form.(state := value, city := "");
    }

    /** Choosing a city changes the city only. */
    method SelectCity(value: string)
      modifies this
      ensures form == old(form).(city := value)
    {
      form := form.(city := value);
    }

    /** `publicarVacante()`. `postSucceeds` is the outcome of the POST (a
        network failure, a non-ok status or an unreadable body all count as
        failure). Returns the payload sent, if any. */
    method Publish(postSucceeds: bool) returns (sent: Option<JobPayload>)
      modifies this
      ensures sent.None? <==> MissingRequired(old(form))
      ensures sent.Some? ==> sent.value == BuildJobPayload(old(form))
      ensures form == if sent.Some? && postSucceeds then EmptyJobForm else old(form)
    {
      if MissingRequired(form) {
        return None;
      }
      var minSalary: Option<int> := None;
      var maxSalary: Option<int> := None;
      var range := ParseSalaryRange(form.salario);
      if range.Some? {
        minSalary := Some(range.value.0);
        maxSalary := Some(range.value.1);
      }
      var payload := JobPayload(form.titulo, form.descripcion, form.work_type, form.work_location_type,
                                form.country, form.state, form.city, minSalary, maxSalary, "MONTHLY", "MXN", 1);
      sent := Some(payload);
      if postSucceeds {
        form := EmptyJobForm;
      }
    }
  }
}
