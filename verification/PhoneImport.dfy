/** Importing the phone CSV: each data row becomes a plan or an error, and never both. */
module PhoneImport {
  import opened Wrappers
  import opened PyStrings
  import opened PhoneCells

  /** The cells of one data row; an absent cell is empty. */
  datatype Row = Row(location: string, mac: string, model: string, caption: string, active: string,
                     lines: string, dials: string)

  datatype Phone = Phone(model: string, active: bool)

  datatype Lookups = Lookups(locations: set<string>, phones: map<string, Phone>, extensions: map<string, set<string>>,
                             models: set<string>)

  datatype Plan = Plan(row: nat, mac: string, update: bool, location: string, model: string, caption: string,
                       active: bool,
                       lines: seq<LinePlan>, dials: seq<DialPlan>)

  datatype RowError = RowError(row: nat, problems: seq<Problem>)

  // ----- one row --------------------------------------------------------------------------------------------------

  /** `str.upper` of the ASCII letters. */
  function UpperChar(c: char): char { if 'a' <= c <= 'z' then (c as int - 32) as char else c }

  function Upper(s: string): string { seq(|s|, i requires 0 <= i < |s| => UpperChar(s[i])) }

  function WithoutSeparators(s: string): string {
    if s == "" then ""
    else (if IsSpace(s[0]) || s[0] in {':', '.', '-'} then "" else [s[0]]) + WithoutSeparators(s[1..])
  }

  predicate IsMac(s: string) {
    |s| == 12 && forall c | c in s :: '0' <= c <= '9' || 'A' <= c <= 'F'
  }

  /** `normalize_mac_address`: None where it raises. */
  function NormalizedMac(value: string): (r: Option<string>)
    ensures r.Some? ==> IsMac(r.value)
  {
    var raw := Upper(Strip(value));
    var mac := WithoutSeparators(if "SEP" <= raw then raw[3..] else raw);
    if IsMac(mac) then Some(mac) else None
  }

  /** The row's MAC address, when it has a valid one. */
  function MacOf(row: Row): Option<string> {
    if Strip(row.mac) == "" then None else NormalizedMac(row.mac)
  }

  function ExistingPhone(lookups: Lookups, mac: Option<string>): Option<Phone> {
    if mac.Some? && mac.value in lookups.phones then Some(lookups.phones[mac.value]) else None
  }

  function LocationProblems(row: Row, lookups: Lookups): seq<Problem> {
    var slug := Strip(row.location);
    if slug == "" then [LocationMissing] else if slug !in lookups.locations then [LocationUnknown(slug)] else []
  }

  function MacProblems(row: Row, seen: set<string>): seq<Problem> {
    if Strip(row.mac) == "" then [MacMissing]
    else
      var mac := NormalizedMac(row.mac);
      if mac.None? then [MacInvalid] else if mac.value in seen then [MacDuplicate(mac.value)] else []
  }

  function ModelOf(row: Row, lookups: Lookups): string {
    var existing := ExistingPhone(lookups, MacOf(row));
    if Strip(row.model) != "" then Strip(row.model) else if existing.Some? then existing.value.model else "CP-9971"
  }

  /** The extensions lines are checked against; without a location there are none to check. */
  function KnownExtensions(row: Row, lookups: Lookups): Option<set<string>> {
    var slug := Strip(row.location);
    if slug == "" then None else Some(if slug in lookups.extensions then lookups.extensions[slug] else {})
  }

  const TRUE_VALUES := {"1", "true", "t", "yes", "y", "enabled", "active"}
  const FALSE_VALUES := {"0", "false", "f", "no", "n", "disabled", "inactive"}

  /** `_parse_bool`: the value, or the default and a problem. */
  function ActiveOf(row: Row, lookups: Lookups): (bool, seq<Problem>) {
    var existing := ExistingPhone(lookups, MacOf(row));
    var default := if existing.Some? then existing.value.active else true;
    var text := Lower(Strip(row.active));
    if text == "" then (default, [])
    else if text in TRUE_VALUES then (true, [])
    else if text in FALSE_VALUES then (false, [])
    else (default, [ActiveInvalid])
  }

  /** Everything wrong with a row, in the order it is found. */
  function Problems(row: Row, lookups: Lookups, seen: set<string>): seq<Problem> {
    LocationProblems(row, lookups) + MacProblems(row, seen)
    + (if ModelOf(row, lookups) !in lookups.models then [ModelInvalid(ModelOf(row, lookups))] else [])
    + ReadLines(Items(row.lines), KnownExtensions(row, lookups)).problems
    + ReadDials(Items(row.dials)).problems
    + ActiveOf(row, lookups).1
  }

  function PlanOf(row: Row, number: nat, lookups: Lookups, mac: string): Plan {
    Plan(number, mac, mac in lookups.phones, Strip(row.location), ModelOf(row, lookups), Strip(row.caption),
         ActiveOf(row, lookups).0, ReadLines(Items(row.lines), KnownExtensions(row, lookups)).plans,
         ReadDials(Items(row.dials)).plans)
  }

  /** The row's plan, or what is wrong with it. */
  function Judge(row: Row, number: nat, seen: set<string>, lookups: Lookups): Result<Plan, seq<Problem>> {
    var problems := Problems(row, lookups, seen);
    if problems == [] && MacOf(row).Some? then Ok(PlanOf(row, number, lookups, MacOf(row).value)) else Err(problems)
  }

  lemma NoMacIsAProblem(row: Row, lookups: Lookups, seen: set<string>)
    ensures MacProblems(row, seen) != [] ==> Problems(row, lookups, seen) != []
  {
    assert |Problems(row, lookups, seen)| >= |MacProblems(row, seen)|;
  }

  lemma MacProblemsMean(row: Row, seen: set<string>)
    ensures MacProblems(row, seen) == [] <==> MacOf(row).Some? && MacOf(row).value !in seen
    ensures MacOf(row).Some? ==> IsMac(MacOf(row).value)
  {
  }

  /** A plan is made exactly when nothing is wrong, and then for a valid MAC address no earlier row had. */
  lemma JudgeMeans(row: Row, number: nat, seen: set<string>, lookups: Lookups)
    ensures Judge(row, number, seen, lookups).Ok? <==> Problems(row, lookups, seen) == []
    ensures Judge(row, number, seen, lookups).Ok? ==>
              var plan := Judge(row, number, seen, lookups).value;
              plan.row == number && MacOf(row) == Some(plan.mac) && plan.mac !in seen && IsMac(plan.mac)
  {
    NoMacIsAProblem(row, lookups, seen);
    MacProblemsMean(row, seen);
  }

  /** The row's problems, appended as the checks find them. */
  method FindProblems(row: Row, seen: set<string>, lookups: Lookups, lineProblems: seq<Problem>,
                      dialProblems: seq<Problem>)
    returns (problems: seq<Problem>)
    requires lineProblems == ReadLines(Items(row.lines), KnownExtensions(row, lookups)).problems
    requires dialProblems == ReadDials(Items(row.dials)).problems
    ensures problems == Problems(row, lookups, seen)
  {
    problems := LocationProblems(row, lookups) + MacProblems(row, seen);
    var model := ModelOf(row, lookups);
    problems := problems + (if model !in lookups.models then [ModelInvalid(model)] else []);
    problems := problems + lineProblems;
    problems := problems + dialProblems;
    problems := problems + ActiveOf(row, lookups).1;
  }

  method JudgeRow(row: Row, number: nat, seen: set<string>, lookups: Lookups) returns (r: Result<Plan, seq<Problem>>)
    ensures r == Judge(row, number, seen, lookups)
  {
    var lines, lineProblems := ParseLineAppearances(row.lines, KnownExtensions(row, lookups));
    var dials, dialProblems := ParseSpeedDials(row.dials);
    var problems := FindProblems(row, seen, lookups, lineProblems, dialProblems);
    JudgeMeans(row, number, seen, lookups);
    if problems != [] { return Err(problems); }
    var mac := MacOf(row).value;
    r := Ok(Plan(number, mac, mac in lookups.phones, Strip(row.location), ModelOf(row, lookups), Strip(row.caption),
                 ActiveOf(row, lookups).0, lines, dials));
  }

  // ----- all rows ----------------------------------------------------------------------------------------------------

  datatype Import = Import(plans: seq<Plan>, errors: seq<RowError>, seen: set<string>)

  type Judging = (Row, nat, set<string>) -> Result<Plan, seq<Problem>>

  function Noted(seen: set<string>, row: Row, macOf: Row -> Option<string>): set<string> {
    if macOf(row).Some? then seen + {macOf(row).value} else seen
  }

  function Recorded(s: Import, number: nat, verdict: Result<Plan, seq<Problem>>, seen: set<string>): Import {
    match verdict
    case Ok(plan) => Import(s.plans + [plan], s.errors, seen)
    case Err(problems) => Import(s.plans, s.errors + [RowError(number, problems)], seen)
  }

  /** Data rows are numbered from 2, the header being row 1; each is judged by the MAC addresses before it. */
  function Judged(rows: seq<Row>, judge: Judging, macOf: Row -> Option<string>): Import {
    if rows == [] then Import([], [], {})
    else
      var before := Judged(rows[..|rows| - 1], judge, macOf);
      var row := rows[|rows| - 1];
      Recorded(before, |rows| + 1, judge(row, |rows| + 1, before.seen), Noted(before.seen, row, macOf))
  }

  function ByLookups(lookups: Lookups): Judging {
    (row: Row, number: nat, seen: set<string>) => Judge(row, number, seen, lookups)
  }

  function Imported(rows: seq<Row>, lookups: Lookups): Import { Judged(rows, ByLookups(lookups), MacOf) }

  /** The loop of `parse_phone_import_csv`. */
  method ImportPhones(rows: seq<Row>, lookups: Lookups) returns (plans: seq<Plan>, errors: seq<RowError>)
    ensures plans == Imported(rows, lookups).plans && errors == Imported(rows, lookups).errors
  {
    plans, errors := [], [];
    var seen: set<string> := {};
    for k := 0 to |rows|
      invariant Import(plans, errors, seen) == Judged(rows[..k], ByLookups(lookups), MacOf)
    {
      JudgedNext(rows, ByLookups(lookups), MacOf, k);
      var verdict := JudgeRow(rows[k], k + 2, seen, lookups);
      var mac := MacOf(rows[k]);
      if mac.Some? { seen := seen + {mac.value}; }
      match verdict
      case Ok(plan) => plans := plans + [plan];
      case Err(problems) => errors := errors + [RowError(k + 2, problems)];
    }
    WholePrefix(rows);
  }

  lemma JudgedNext(rows: seq<Row>, judge: Judging, macOf: Row -> Option<string>, k: nat)
    requires k < |rows|
    ensures var before := Judged(rows[..k], judge, macOf);
            Judged(rows[..k + 1], judge, macOf)
              == Recorded(before, k + 2, judge(rows[k], k + 2, before.seen), Noted(before.seen, rows[k], macOf))
  {
    PrefixGrows(rows, k);
  }

  // ----- what any such import says ---------------------------------------------------------------------------------

  /** Plans are for the row judged, and for a valid MAC address no earlier row had. */
  ghost predicate Careful(judge: Judging, macOf: Row -> Option<string>) {
    forall row, number, seen :: judge(row, number, seen).Ok? ==>
      var plan := judge(row, number, seen).value;
      plan.row == number && macOf(row) == Some(plan.mac) && plan.mac !in seen && IsMac(plan.mac)
  }

  lemma LookupsAreCareful(lookups: Lookups)
    ensures Careful(ByLookups(lookups), MacOf)
  {
    forall row: Row, number: nat, seen: set<string> | ByLookups(lookups)(row, number, seen).Ok?
      ensures var plan := ByLookups(lookups)(row, number, seen).value;
              plan.row == number && MacOf(row) == Some(plan.mac) && plan.mac !in seen && IsMac(plan.mac)
    {
      JudgeMeans(row, number, seen, lookups);
    }
  }

  /** Some earlier row, accepted or not, has this MAC address. */
  ghost predicate SeenBefore(rows: seq<Row>, k: nat, mac: string, macOf: Row -> Option<string>) {
    exists j :: 0 <= j < k <= |rows| && macOf(rows[j]) == Some(mac)
  }

  lemma {:induction false} SeenMeans(rows: seq<Row>, judge: Judging, macOf: Row -> Option<string>, k: nat, mac: string)
    requires k <= |rows|
    ensures mac in Judged(rows[..k], judge, macOf).seen <==> SeenBefore(rows, k, mac, macOf)
  {
    if k > 0 {
      assert rows[..k][..k - 1] == rows[..k - 1];
      SeenMeans(rows, judge, macOf, k - 1, mac);
      if macOf(rows[k - 1]) == Some(mac) { assert SeenBefore(rows, k, mac, macOf); }
      if SeenBefore(rows, k - 1, mac, macOf) {
        var j :| 0 <= j < k - 1 && macOf(rows[j]) == Some(mac);
        assert SeenBefore(rows, k, mac, macOf);
      }
    }
  }

  predicate PlansRow(plans: seq<Plan>, number: nat) { exists i :: 0 <= i < |plans| && plans[i].row == number }

  predicate ErrsRow(errors: seq<RowError>, number: nat) { exists i :: 0 <= i < |errors| && errors[i].row == number }

  predicate PlansNumbered(plans: seq<Plan>, n: nat) {
    (forall i | 0 <= i < |plans| :: 2 <= plans[i].row <= n + 1)
    && (forall i, j | 0 <= i < j < |plans| :: plans[i].row < plans[j].row)
  }

  predicate ErrorsNumbered(errors: seq<RowError>, n: nat) {
    (forall i | 0 <= i < |errors| :: 2 <= errors[i].row <= n + 1)
    && (forall i, j | 0 <= i < j < |errors| :: errors[i].row < errors[j].row)
  }

  /** The rows come out in their order, each under its number. */
  lemma {:induction false} RowsAreNumbered(rows: seq<Row>, judge: Judging, macOf: Row -> Option<string>)
    requires Careful(judge, macOf)
    ensures var s := Judged(rows, judge, macOf);
            PlansNumbered(s.plans, |rows|) && ErrorsNumbered(s.errors, |rows|) && |s.plans| + |s.errors| == |rows|
  {
    if rows != [] { RowsAreNumbered(rows[..|rows| - 1], judge, macOf); }
  }

  lemma PlansGrow(plans: seq<Plan>, p: Plan, number: nat)
    ensures PlansRow(plans + [p], number) <==> PlansRow(plans, number) || p.row == number
  {
    var more := plans + [p];
    if p.row == number { assert more[|plans|].row == number; }
    if PlansRow(plans, number) { var i :| 0 <= i < |plans| && plans[i].row == number; assert more[i].row == number; }
  }

  lemma ErrorsGrow(errors: seq<RowError>, e: RowError, number: nat)
    ensures ErrsRow(errors + [e], number) <==> ErrsRow(errors, number) || e.row == number
  {
    var more := errors + [e];
    if e.row == number { assert more[|errors|].row == number; }
    if ErrsRow(errors, number) { var i :| 0 <= i < |errors| && errors[i].row == number; assert more[i].row == number; }
  }

  lemma {:induction false} EachRowJudged(rows: seq<Row>, judge: Judging, macOf: Row -> Option<string>, k: nat)
    requires Careful(judge, macOf) && k < |rows|
    ensures var s := Judged(rows, judge, macOf);
            var verdict := judge(rows[k], k + 2, Judged(rows[..k], judge, macOf).seen);
            (PlansRow(s.plans, k + 2) <==> verdict.Ok?) && (ErrsRow(s.errors, k + 2) <==> verdict.Err?)
  {
    var n := |rows| - 1;
    PrefixOfPrefix(rows, k, n);
    if k < n {
      EachRowJudged(rows[..n], judge, macOf, k);
    }
    LastJudged(rows, judge, macOf, k);
  }

  lemma LastJudged(rows: seq<Row>, judge: Judging, macOf: Row -> Option<string>, k: nat)
    requires Careful(judge, macOf) && k < |rows|
    ensures var n := |rows| - 1; var before := Judged(rows[..n], judge, macOf); var s := Judged(rows, judge, macOf);
            var verdict := judge(rows[n], n + 2, before.seen);
            && (PlansRow(s.plans, k + 2) <==> if k < n then PlansRow(before.plans, k + 2) else verdict.Ok?)
            && (ErrsRow(s.errors, k + 2) <==> if k < n then ErrsRow(before.errors, k + 2) else verdict.Err?)
  {
    var n := |rows| - 1;
    var before := Judged(rows[..n], judge, macOf);
    RowsAreNumbered(rows[..n], judge, macOf);
    LastRecorded(before, n, judge(rows[n], n + 2, before.seen), Noted(before.seen, rows[n], macOf), k);
  }

  lemma PrefixOfPrefix(rows: seq<Row>, k: nat, n: nat)
    requires k <= n <= |rows|
    ensures rows[..n][..k] == rows[..k]
  {
  }

  /** The last verdict adds to one list, under its own number, and to no other number. */
  lemma LastRecorded(before: Import, n: nat, verdict: Result<Plan, seq<Problem>>, seen: set<string>, k: nat)
    requires PlansNumbered(before.plans, n) && ErrorsNumbered(before.errors, n) && k <= n
    requires verdict.Ok? ==> verdict.value.row == n + 2
    ensures var s := Recorded(before, n + 2, verdict, seen);
            && (PlansRow(s.plans, k + 2) <==> if k < n then PlansRow(before.plans, k + 2) else verdict.Ok?)
            && (ErrsRow(s.errors, k + 2) <==> if k < n then ErrsRow(before.errors, k + 2) else verdict.Err?)
  {
    if verdict.Ok? { PlansGrow(before.plans, verdict.value, k + 2); }
    else { ErrorsGrow(before.errors, RowError(n + 2, verdict.error), k + 2); }
  }

  predicate MacsDistinct(plans: seq<Plan>) {
    forall i, j | 0 <= i < j < |plans| :: plans[i].mac != plans[j].mac
  }

  lemma {:induction false} MacsAreDistinct(rows: seq<Row>, judge: Judging, macOf: Row -> Option<string>)
    requires Careful(judge, macOf)
    ensures var s := Judged(rows, judge, macOf);
            MacsDistinct(s.plans) && forall i | 0 <= i < |s.plans| :: IsMac(s.plans[i].mac) && s.plans[i].mac in s.seen
  {
    if rows != [] { MacsAreDistinct(rows[..|rows| - 1], judge, macOf); }
  }

  // ----- what the phone import says --------------------------------------------------------------------------------

  /** Every data row gives exactly one plan or one error, under its own number: a plan exactly when nothing
      is wrong with it, where a MAC address that an earlier row had, accepted or not, counts as wrong. */
  lemma EachRowOnce(rows: seq<Row>, lookups: Lookups, k: nat)
    requires k < |rows|
    ensures var s := Imported(rows, lookups); var seen := Imported(rows[..k], lookups).seen;
            && |s.plans| + |s.errors| == |rows|
            && (PlansRow(s.plans, k + 2) <==> Problems(rows[k], lookups, seen) == [])
            && (ErrsRow(s.errors, k + 2) <==> Problems(rows[k], lookups, seen) != [])
            && (forall mac :: mac in seen <==> SeenBefore(rows, k, mac, MacOf))
  {
    LookupsAreCareful(lookups);
    var seen := Imported(rows[..k], lookups).seen;
    EachRowJudged(rows, ByLookups(lookups), MacOf, k);
    RowsAreNumbered(rows, ByLookups(lookups), MacOf);
    JudgeMeans(rows[k], k + 2, seen, lookups);
    assert ByLookups(lookups)(rows[k], k + 2, seen) == Judge(rows[k], k + 2, seen, lookups);
    forall mac ensures mac in seen <==> SeenBefore(rows, k, mac, MacOf) {
      SeenMeans(rows, ByLookups(lookups), MacOf, k, mac);
    }
  }

  /** Accepted MAC addresses are valid and distinct, and plans and errors come in the order of their rows. */
  lemma AcceptedMacsAreDistinct(rows: seq<Row>, lookups: Lookups)
    ensures var s := Imported(rows, lookups);
            && MacsDistinct(s.plans) && (forall i | 0 <= i < |s.plans| :: IsMac(s.plans[i].mac))
            && PlansNumbered(s.plans, |rows|) && ErrorsNumbered(s.errors, |rows|)
  {
    LookupsAreCareful(lookups);
    MacsAreDistinct(rows, ByLookups(lookups), MacOf);
    RowsAreNumbered(rows, ByLookups(lookups), MacOf);
  }
}
