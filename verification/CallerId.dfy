/** Outbound caller ID: the Python reference, the dialplan lines compiled from it, and the proof that
    running the lines computes the reference. */
module CallerId {
  import opened Wrappers
  import opened PyStrings
  import opened Dialplan

  // ----- records -----------------------------------------------------------------------------------

  datatype Did = Did(number: string, location: nat, active: bool)

  datatype Extension = Extension(number: string, callerIdNumber: string, active: bool, dids: seq<Did>)

  /** The extensions come in the order of their numbers, which are unique. */
  datatype Location = Location(id: nat, defaultDid: string, emergencyCallerId: string, extensions: seq<Extension>)

  datatype Source = LocationDefault | Emergency | Custom | ExtensionDid

  // ----- the reference -------------------------------------------------------------------------------

  /** `filter(location=..., is_active=True).order_by("number").first()`. */
  function FirstDid(dids: seq<Did>, location: nat): Option<string> {
    if dids == [] then None
    else
      var rest := FirstDid(dids[1..], location);
      if !dids[0].active || dids[0].location != location then rest
      else if rest.Some? && Below(rest.value, dids[0].number) then rest
      else Some(dids[0].number)
  }

  function SelectRouteCallerId(loc: Location, source: Source, custom: string, extension: Option<Extension>): string {
    match source
    case Emergency => loc.emergencyCallerId
    case Custom => custom
    case ExtensionDid =>
      if extension.None? then loc.defaultDid
      else
        var did := FirstDid(extension.value.dids, loc.id);
        if did.Some? then did.value
        else if extension.value.callerIdNumber != "" then extension.value.callerIdNumber
        else loc.defaultDid
    case LocationDefault => loc.defaultDid
  }

  /** The active extension of the location a caller number belongs to. */
  function CallingExtension(extensions: seq<Extension>, number: string): Option<Extension> {
    if extensions == [] then None
    else if extensions[0].active && extensions[0].number == number then Some(extensions[0])
    else CallingExtension(extensions[1..], number)
  }

  // ----- what the reference selects ---------------------------------------------------------------------

  predicate Direct(did: Did, location: nat) { did.active && did.location == location }

  /** The smallest of the active numbers there. */
  predicate FirstOf(dids: seq<Did>, location: nat, number: string) {
    && (exists d :: d in dids && Direct(d, location) && d.number == number)
    && forall d | d in dids && Direct(d, location) :: !Below(d.number, number)
  }

  lemma {:induction false} FirstDidIs(dids: seq<Did>, location: nat)
    ensures FirstDid(dids, location) == None <==> forall d | d in dids :: !Direct(d, location)
    ensures FirstDid(dids, location).Some? ==> FirstOf(dids, location, FirstDid(dids, location).value)
  {
    if dids != [] {
      FirstDidIs(dids[1..], location);
      assert forall d | d in dids :: d == dids[0] || d in dids[1..];
      var rest := FirstDid(dids[1..], location);
      if Direct(dids[0], location) {
        assert dids[0] in dids;
        SmallestOfTwo(dids, location, rest);
      }
    }
  }

  lemma SmallestOfTwo(dids: seq<Did>, location: nat, rest: Option<string>)
    requires dids != [] && Direct(dids[0], location)
    requires rest == FirstDid(dids[1..], location) && (rest.Some? ==> FirstOf(dids[1..], location, rest.value))
    requires rest == None ==> forall d | d in dids[1..] :: !Direct(d, location)
    ensures FirstOf(dids, location, FirstDid(dids, location).value)
  {
    var number := FirstDid(dids, location).value;
    BelowIsTotal(dids[0].number, dids[0].number);
    forall d | d in dids && Direct(d, location) ensures !Below(d.number, number) {
      if rest.Some? {
        BelowIsTotal(rest.value, dids[0].number);
        if d in dids[1..] && Below(d.number, dids[0].number) && Below(dids[0].number, rest.value) {
          BelowIsTransitive(d.number, dids[0].number, rest.value);
        }
      }
    }
  }

  /** The extension that a caller number is found to belong to. */
  lemma {:induction false} CallingExtensionIs(extensions: seq<Extension>, number: string)
    ensures var found := CallingExtension(extensions, number);
            && (found == None <==> forall e | e in extensions :: !(e.active && e.number == number))
            && (found.Some? ==> found.value in extensions && found.value.active && found.value.number == number)
  {
    if extensions != [] { CallingExtensionIs(extensions[1..], number); }
  }

  // ----- the compiler ----------------------------------------------------------------------------------

  const SUBROUTINE := "route-caller-id-extension-did"

  function ExtensionCallerId(loc: Location, extension: Extension): string {
    var did := FirstDid(extension.dids, loc.id);
    if did.Some? then did.value
    else if extension.callerIdNumber != "" then extension.callerIdNumber
    else loc.defaultDid
  }

  /** The extensions whose caller ID differs from the location default, with that caller ID. */
  function Special(loc: Location, extensions: seq<Extension>): seq<(string, string)> {
    if extensions == [] then []
    else
      var e := extensions[0];
      (if e.active && ExtensionCallerId(loc, e) != loc.defaultDid then [(e.number, ExtensionCallerId(loc, e))] else [])
      + Special(loc, extensions[1..])
  }

  function LabelFor(number: string): string { "set-" + number }

  function Branches(pairs: seq<(string, string)>): seq<Line> {
    if pairs == [] then []
    else [Same(None, GotoIf(Arg(1), Text(pairs[0].0), LabelFor(pairs[0].0)))] + Branches(pairs[1..])
  }

  function Setters(pairs: seq<(string, string)>): seq<Line> {
    if pairs == [] then []
    else [Same(Some(LabelFor(pairs[0].0)), Set("ROUTE_CALLER_ID", Text(pairs[0].1))), Same(None, Return)]
         + Setters(pairs[1..])
  }

  function SubroutineLines(loc: Location): seq<Line> {
    [Context(SUBROUTINE)] + Block("s", NoOp, SubroutineTail(Special(loc, loc.extensions)))
  }

  function SubroutineTail(pairs: seq<(string, string)>): seq<Line> {
    Branches(pairs) + [Same(None, Return)] + Setters(pairs)
  }

  function RouteCallerIdLines(loc: Location, source: Source, custom: string): seq<Line> {
    if source == ExtensionDid then
      [Same(None, Set("ROUTE_CALLER_ID", Text(loc.defaultDid))),
       Same(None, Gosub(SUBROUTINE, "s", [CallerNumber])),
       Same(None, SetCallerNumber(Variable("ROUTE_CALLER_ID")))]
    else
      var callerId := SelectRouteCallerId(loc, source, custom, None);
      if callerId != "" then [Same(None, SetCallerNumber(Text(callerId)))] else []
  }

  // ----- what the subroutine loads to ----------------------------------------------------------------

  lemma {:induction false} GeneratedAreSame(pairs: seq<(string, string)>)
    ensures AllSame(Branches(pairs)) && AllSame(Setters(pairs))
    ensures |Branches(pairs)| == |pairs| && |Setters(pairs)| == 2 * |pairs|
  {
    if pairs != [] { GeneratedAreSame(pairs[1..]); }
  }

  lemma {:induction false} GeneratedAt(pairs: seq<(string, string)>, k: nat)
    requires k < |pairs|
    ensures |Branches(pairs)| == |pairs| && |Setters(pairs)| == 2 * |pairs|
    ensures Branches(pairs)[k] == Same(None, GotoIf(Arg(1), Text(pairs[k].0), LabelFor(pairs[k].0)))
    ensures Setters(pairs)[2 * k] == Same(Some(LabelFor(pairs[k].0)), Set("ROUTE_CALLER_ID", Text(pairs[k].1)))
    ensures Setters(pairs)[2 * k + 1] == Same(None, Return)
  {
    GeneratedAreSame(pairs);
    GeneratedAreSame(pairs[1..]);
    if k > 0 { GeneratedAt(pairs[1..], k - 1); }
  }

  /** The subroutine's priorities: 0 is the NoOp, the branches follow, then Return, then the setters. */
  function SubroutineSteps(pairs: seq<(string, string)>): seq<Step> {
    GeneratedAreSame(pairs);
    BlockSteps(NoOp, SubroutineTail(pairs))
  }

  lemma SubroutineLoads(loc: Location)
    ensures Steps(SubroutineLines(loc), SUBROUTINE, "s") == SubroutineSteps(Special(loc, loc.extensions))
  {
    var pairs := Special(loc, loc.extensions);
    GeneratedAreSame(pairs);
    BlockCollects(Cursor(SUBROUTINE, ""), "s", NoOp, SubroutineTail(pairs), Cursor(SUBROUTINE, "s"));
    assert SubroutineLines(loc)[1..] == Block("s", NoOp, SubroutineTail(pairs));
  }

  // ----- what the subroutine computes ------------------------------------------------------------------

  predicate Distinct(pairs: seq<(string, string)>) {
    forall i, j | 0 <= i < j < |pairs| :: pairs[i].0 != pairs[j].0
  }

  function Resolve(pairs: seq<(string, string)>, number: string): Option<string> {
    if pairs == [] then None
    else if pairs[0].0 == number then Some(pairs[0].1)
    else Resolve(pairs[1..], number)
  }

  lemma TagsDiffer(a: string, b: string)
    requires a != b
    ensures LabelFor(a) != LabelFor(b)
  {
    assert LabelFor(a)[4..] == a && LabelFor(b)[4..] == b;
  }

  lemma SubroutineAt(pairs: seq<(string, string)>, k: nat)
    requires k < |pairs| && Distinct(pairs)
    ensures var steps := SubroutineSteps(pairs); var n := |pairs|;
            && |steps| == 3 * n + 2
            && steps[1 + k] == Step(None, GotoIf(Arg(1), Text(pairs[k].0), LabelFor(pairs[k].0)))
            && steps[2 + n + 2 * k].app == Set("ROUTE_CALLER_ID", Text(pairs[k].1))
            && steps[2 + n + 2 * k + 1].app == Return
            && FindLabel(steps, LabelFor(pairs[k].0)) == Some(2 + n + 2 * k)
  {
    var steps := SubroutineSteps(pairs);
    var n := |pairs|;
    GeneratedAt(pairs, k);
    forall j | 0 <= j < 2 + n + 2 * k ensures steps[j].tag != Some(LabelFor(pairs[k].0)) {
      if 1 <= j < 1 + n {
        GeneratedAt(pairs, j - 1);
      } else if j >= 2 + n {
        GeneratedAt(pairs, (j - 2 - n) / 2);
        TagsDiffer(pairs[(j - 2 - n) / 2].0, pairs[k].0);
      }
    }
    FirstTag(steps, LabelFor(pairs[k].0), 2 + n + 2 * k);
  }

  /** The call after the subroutine returned, when its branches from `k` on are still to be tried. */
  function Resolved(call: Call, pairs: seq<(string, string)>, k: nat): Call
    requires call.stack != [] && k <= |pairs|
  {
    var found := Resolve(pairs[k..], Eval(call, Arg(1)));
    call.(pc := call.stack[0].back, stack := call.stack[1..],
          vars := if found.None? then call.vars else call.vars["ROUTE_CALLER_ID" := found.value])
  }

  predicate InSubroutine(lines: seq<Line>, call: Call, pairs: seq<(string, string)>, priority: nat) {
    && Steps(lines, SUBROUTINE, "s") == SubroutineSteps(pairs)
    && call.live && call.stack != [] && call.pc == Pc(SUBROUTINE, "s", priority)
  }

  lemma SetterRuns(lines: seq<Line>, oracle: Oracle, call: Call, pairs: seq<(string, string)>, k: nat)
    requires k < |pairs| && Distinct(pairs) && InSubroutine(lines, call, pairs, 2 + |pairs| + 2 * k)
    ensures Reaches(lines, oracle, call, call.(pc := call.stack[0].back, stack := call.stack[1..],
                                               vars := call.vars["ROUTE_CALLER_ID" := pairs[k].1]))
  {
    SubroutineAt(pairs, k);
    var set' := Tick(lines, oracle, call);
    var back := Tick(lines, oracle, set');
    Ticks(lines, oracle, back, back);
    Ticks(lines, oracle, set', back);
    Ticks(lines, oracle, call, back);
  }

  /** Behind the last branch stands the return. */
  lemma NoBranchRuns(lines: seq<Line>, oracle: Oracle, call: Call, pairs: seq<(string, string)>)
    requires InSubroutine(lines, call, pairs, 1 + |pairs|)
    ensures Reaches(lines, oracle, call, Resolved(call, pairs, |pairs|))
  {
    GeneratedAreSame(pairs);
    assert SubroutineSteps(pairs)[1 + |pairs|] == Step(None, Return);
    assert pairs[|pairs|..] == [];
    var next := Tick(lines, oracle, call);
    Ticks(lines, oracle, next, next);
    Ticks(lines, oracle, call, next);
  }

  /** One branch: to its setter if the caller's number is the pair's, to the next branch otherwise. */
  lemma BranchTick(lines: seq<Line>, oracle: Oracle, call: Call, pairs: seq<(string, string)>, k: nat)
    requires k < |pairs| && Distinct(pairs) && InSubroutine(lines, call, pairs, 1 + k)
    ensures Tick(lines, oracle, call)
              == call.(pc := Pc(SUBROUTINE, "s",
                                if Eval(call, Arg(1)) == pairs[k].0 then 2 + |pairs| + 2 * k else 2 + k))
  {
    SubroutineAt(pairs, k);
  }

  lemma ResolvedNext(call: Call, next: Call, pairs: seq<(string, string)>, k: nat)
    requires k < |pairs| && call.stack != [] && next == call.(pc := next.pc)
    ensures Eval(call, Arg(1)) == pairs[k].0 ==>
              Resolved(call, pairs, k) == next.(pc := call.stack[0].back, stack := call.stack[1..],
                                                vars := call.vars["ROUTE_CALLER_ID" := pairs[k].1])
    ensures Eval(call, Arg(1)) != pairs[k].0 ==> Resolved(call, pairs, k) == Resolved(next, pairs, k + 1)
  {
    assert pairs[k..][1..] == pairs[k + 1..];
  }

  lemma {:induction false} BranchesRun(lines: seq<Line>, oracle: Oracle, call: Call, pairs: seq<(string, string)>,
                                       k: nat)
    requires k <= |pairs| && Distinct(pairs) && InSubroutine(lines, call, pairs, 1 + k)
    ensures Reaches(lines, oracle, call, Resolved(call, pairs, k))
    decreases |pairs| - k
  {
    if k == |pairs| {
      NoBranchRuns(lines, oracle, call, pairs);
    } else {
      var next := Tick(lines, oracle, call);
      BranchTick(lines, oracle, call, pairs, k);
      ResolvedNext(call, next, pairs, k);
      if Eval(call, Arg(1)) == pairs[k].0 {
        SetterRuns(lines, oracle, next, pairs, k);
      } else {
        BranchesRun(lines, oracle, next, pairs, k + 1);
      }
      Ticks(lines, oracle, call, Resolved(call, pairs, k));
    }
  }

  // ----- the compiled lines compute the reference --------------------------------------------------------

  predicate DistinctNumbers(extensions: seq<Extension>) {
    forall i, j | 0 <= i < j < |extensions| :: extensions[i].number != extensions[j].number
  }

  lemma {:induction false} SpecialAreExtensions(loc: Location, extensions: seq<Extension>)
    ensures forall p | p in Special(loc, extensions) :: exists e :: e in extensions && e.number == p.0
  {
    if extensions != [] {
      SpecialAreExtensions(loc, extensions[1..]);
      forall p | p in Special(loc, extensions) ensures exists e :: e in extensions && e.number == p.0 {
        if p in Special(loc, extensions[1..]) {
          var e :| e in extensions[1..] && e.number == p.0;
          assert e in extensions;
        } else {
          assert extensions[0] in extensions;
        }
      }
    }
  }

  lemma {:induction false} SpecialDistinct(loc: Location, extensions: seq<Extension>)
    requires DistinctNumbers(extensions)
    ensures Distinct(Special(loc, extensions))
  {
    if extensions != [] {
      SpecialDistinct(loc, extensions[1..]);
      SpecialAreExtensions(loc, extensions[1..]);
      var rest := Special(loc, extensions[1..]);
      forall j | 0 <= j < |rest| ensures rest[j].0 != extensions[0].number {
        assert rest[j] in rest;
      }
    }
  }

  /** The pairs hold exactly what the reference selects beyond the location default. */
  lemma {:induction false} SpecialResolves(loc: Location, extensions: seq<Extension>, number: string)
    requires DistinctNumbers(extensions)
    ensures var found := Resolve(Special(loc, extensions), number);
            (if found.Some? then found.value else loc.defaultDid)
              == SelectRouteCallerId(loc, ExtensionDid, "", CallingExtension(extensions, number))
  {
    if extensions != [] {
      SpecialResolves(loc, extensions[1..], number);
      var e := extensions[0];
      if e.number == number {
        SpecialAreExtensions(loc, extensions[1..]);
        NotResolved(Special(loc, extensions[1..]), number);
      }
      assert Special(loc, extensions) == Special(loc, extensions[1..])
             || (Special(loc, extensions)[0].0 == e.number
                 && Special(loc, extensions)[1..] == Special(loc, extensions[1..]));
      if e.number == number && !e.active { NotCalling(extensions[1..], number); }
    }
  }

  lemma {:induction false} NotResolved(pairs: seq<(string, string)>, number: string)
    requires forall p | p in pairs :: p.0 != number
    ensures Resolve(pairs, number) == None
  {
    if pairs != [] {
      assert pairs[0] in pairs;
      NotResolved(pairs[1..], number);
    }
  }

  lemma {:induction false} NotCalling(extensions: seq<Extension>, number: string)
    requires forall e | e in extensions :: e.number != number
    ensures CallingExtension(extensions, number) == None
  {
    if extensions != [] {
      assert extensions[0] in extensions;
      NotCalling(extensions[1..], number);
    }
  }

  /** The caller ID a call presents after the route's caller ID lines. Only an extension-DID route
      writes an empty caller ID; the other sources then leave the caller's own number in place. */
  function Presented(loc: Location, source: Source, custom: string, caller: string): string {
    var selected := SelectRouteCallerId(loc, source, custom, CallingExtension(loc.extensions, caller));
    if source != ExtensionDid && selected == "" then caller else selected
  }

  /** What a call of `caller` must present on a route: by its source the location's or the route's number, or,
      for an extension's own, the smallest active DID the extension has at the location, else its caller ID
      number, else the location's; and an empty number, but of an extension's, leaves the caller's in place. */
  ghost predicate MustPresent(loc: Location, source: Source, custom: string, caller: string, presented: string) {
    match source
    case Emergency => presented == if loc.emergencyCallerId == "" then caller else loc.emergencyCallerId
    case Custom => presented == if custom == "" then caller else custom
    case LocationDefault => presented == if loc.defaultDid == "" then caller else loc.defaultDid
    case ExtensionDid =>
      && ((forall e | e in loc.extensions :: !(e.active && e.number == caller)) ==> presented == loc.defaultDid)
      && forall e | e in loc.extensions && e.active && e.number == caller :: PresentsOwn(loc, e, presented)
  }

  ghost predicate PresentsOwn(loc: Location, e: Extension, presented: string) {
    if forall d | d in e.dids :: !Direct(d, loc.id) then
      presented == if e.callerIdNumber != "" then e.callerIdNumber else loc.defaultDid
    else FirstOf(e.dids, loc.id, presented)
  }

  lemma PresentedIs(loc: Location, source: Source, custom: string, caller: string)
    requires DistinctNumbers(loc.extensions)
    ensures MustPresent(loc, source, custom, caller, Presented(loc, source, custom, caller))
  {
    if source == ExtensionDid {
      var presented := Presented(loc, source, custom, caller);
      CallingExtensionIs(loc.extensions, caller);
      forall e | e in loc.extensions && e.active && e.number == caller ensures PresentsOwn(loc, e, presented) {
        SameNumberSame(loc.extensions, e, CallingExtension(loc.extensions, caller).value);
        FirstDidIs(e.dids, loc.id);
      }
    }
  }

  lemma SameNumberSame(extensions: seq<Extension>, a: Extension, b: Extension)
    requires DistinctNumbers(extensions) && a in extensions && b in extensions && a.number == b.number
    ensures a == b
  {
    var i :| 0 <= i < |extensions| && extensions[i] == a;
    var j :| 0 <= j < |extensions| && extensions[j] == b;
  }

  /** `call` past the caller ID lines, presenting that caller ID, with `vars` for its variables. */
  function PastCallerId(call: Call, loc: Location, source: Source, custom: string, vars: map<string, string>): Call {
    call.(pc := call.pc.(priority := call.pc.priority + |RouteSteps(loc, source, custom)|),
          caller := Presented(loc, source, custom, call.caller), vars := vars)
  }

  predicate SameButScratch(a: map<string, string>, b: map<string, string>) {
    a - {"ROUTE_CALLER_ID"} == b - {"ROUTE_CALLER_ID"}
  }

  function RouteSteps(loc: Location, source: Source, custom: string): seq<Step> {
    AsSteps(RouteCallerIdLines(loc, source, custom))
  }

  predicate StandsBefore(lines: seq<Line>, call: Call, code: seq<Step>) {
    && call.live
    && var steps := Steps(lines, call.pc.context, call.pc.exten);
    && call.pc.priority + |code| <= |steps|
    && steps[call.pc.priority..call.pc.priority + |code|] == code
  }

  /** Running the compiled caller ID lines, subroutine included, presents what the Python reference
      selects for the calling extension, and changes nothing else but the scratch variable. */
  lemma CallerIdIsCompiledRight(lines: seq<Line>, oracle: Oracle, call: Call, loc: Location, source: Source,
                                custom: string)
    requires DistinctNumbers(loc.extensions)
    requires StandsBefore(lines, call, RouteSteps(loc, source, custom))
    requires source == ExtensionDid ==> Steps(lines, SUBROUTINE, "s") == Steps(SubroutineLines(loc), SUBROUTINE, "s")
    ensures exists vars :: SameButScratch(vars, call.vars)
              && Reaches(lines, oracle, call, PastCallerId(call, loc, source, custom, vars))
  {
    var code := RouteSteps(loc, source, custom);
    var steps := Steps(lines, call.pc.context, call.pc.exten);
    var p := call.pc.priority;
    forall i | 0 <= i < |code| ensures steps[p + i] == code[i] {
      assert steps[p..p + |code|][i] == code[i];
    }
    if source == ExtensionDid {
      ExtensionDidRuns(lines, oracle, call, loc, custom);
    } else {
      PlainSourceRuns(lines, oracle, call, loc, source, custom);
      assert SameButScratch(call.vars, call.vars);
    }
  }

  lemma PlainSourceRuns(lines: seq<Line>, oracle: Oracle, call: Call, loc: Location, source: Source, custom: string)
    requires source != ExtensionDid && StandsBefore(lines, call, RouteSteps(loc, source, custom))
    ensures Reaches(lines, oracle, call, PastCallerId(call, loc, source, custom, call.vars))
  {
    var code := RouteSteps(loc, source, custom);
    var end := if code == [] then call else Tick(lines, oracle, call);
    if code != [] {
      var steps := Steps(lines, call.pc.context, call.pc.exten);
      assert steps[call.pc.priority..call.pc.priority + 1][0] == code[0];
    }
    Ticks(lines, oracle, end, end);
    Ticks(lines, oracle, call, end);
  }

  lemma ExtensionDidRuns(lines: seq<Line>, oracle: Oracle, call: Call, loc: Location, custom: string)
    requires DistinctNumbers(loc.extensions) && call.live
    requires var steps := Steps(lines, call.pc.context, call.pc.exten); var p := call.pc.priority;
             var code := RouteSteps(loc, ExtensionDid, custom);
             p + 3 <= |steps| && steps[p] == code[0] && steps[p + 1] == code[1] && steps[p + 2] == code[2]
    requires Steps(lines, SUBROUTINE, "s") == Steps(SubroutineLines(loc), SUBROUTINE, "s")
    ensures exists vars :: SameButScratch(vars, call.vars)
              && Reaches(lines, oracle, call, PastCallerId(call, loc, ExtensionDid, custom, vars))
  {
    SubroutineOpens(loc);
    var named := SubroutineEntered(lines, oracle, call, loc, custom);
    var back := SubroutineComesBack(lines, oracle, named, loc);
    Joins(lines, oracle, call, named, back);
    var end := Tick(lines, oracle, back);
    Ticks(lines, oracle, end, end);
    Ticks(lines, oracle, back, end);
    Joins(lines, oracle, call, back, end);
    assert end == PastCallerId(call, loc, ExtensionDid, custom, end.vars);
  }

  lemma SubroutineOpens(loc: Location)
    ensures var steps := Steps(SubroutineLines(loc), SUBROUTINE, "s"); steps != [] && steps[0].app == NoOp
  {
    SubroutineLoads(loc);
  }

  /** From behind its first priority the subroutine returns with the selected caller ID in the scratch variable. */
  lemma SubroutineComesBack(lines: seq<Line>, oracle: Oracle, named: Call, loc: Location) returns (back: Call)
    requires DistinctNumbers(loc.extensions) && named.live && named.stack != [] && named.pc == Pc(SUBROUTINE, "s", 1)
    requires Steps(lines, SUBROUTINE, "s") == Steps(SubroutineLines(loc), SUBROUTINE, "s")
    requires Lookup(named.vars, "ROUTE_CALLER_ID") == loc.defaultDid
    ensures Reaches(lines, oracle, named, back)
    ensures back == named.(pc := named.stack[0].back, stack := named.stack[1..], vars := back.vars)
    ensures SameButScratch(back.vars, named.vars)
    ensures Lookup(back.vars, "ROUTE_CALLER_ID")
              == SelectRouteCallerId(loc, ExtensionDid, "", CallingExtension(loc.extensions, Eval(named, Arg(1))))
  {
    var pairs := Special(loc, loc.extensions);
    SubroutineLoads(loc);
    SpecialDistinct(loc, loc.extensions);
    SpecialResolves(loc, loc.extensions, Eval(named, Arg(1)));
    assert pairs[0..] == pairs;
    BranchesRun(lines, oracle, named, pairs, 0);
    back := Resolved(named, pairs, 0);
  }

  /** The preset, the call of the subroutine and its first priority. */
  lemma SubroutineEntered(lines: seq<Line>, oracle: Oracle, call: Call, loc: Location, custom: string)
    returns (named: Call)
    requires call.live
    requires var steps := Steps(lines, call.pc.context, call.pc.exten); var p := call.pc.priority;
             var code := RouteSteps(loc, ExtensionDid, custom);
             p + 3 <= |steps| && steps[p] == code[0] && steps[p + 1] == code[1]
    requires var steps := Steps(lines, SUBROUTINE, "s"); steps != [] && steps[0].app == NoOp
    ensures Reaches(lines, oracle, call, named)
    ensures var frame := Frame(call.pc.(priority := call.pc.priority + 2), [call.caller]);
            named == call.(pc := Pc(SUBROUTINE, "s", 1), stack := [frame] + call.stack,
                           vars := call.vars["ROUTE_CALLER_ID" := loc.defaultDid])
  {
    var preset := Tick(lines, oracle, call);
    var entered := Tick(lines, oracle, preset);
    named := Tick(lines, oracle, entered);
    assert EvalArgs(preset, RouteSteps(loc, ExtensionDid, custom)[1].app.args) == [call.caller];
    Ticks(lines, oracle, named, named);
    Ticks(lines, oracle, entered, named);
    Ticks(lines, oracle, preset, named);
    Ticks(lines, oracle, call, named);
  }
}
