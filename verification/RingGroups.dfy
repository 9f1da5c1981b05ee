/** Ring groups: the payload check, the lines compiled from a group, and what a call to it does. */
module RingGroups {
  import opened Wrappers
  import opened PyStrings
  import opened Dialplan

  datatype Member = Member(extension: string, priority: int)

  /** A payload entry before the check: not a mapping, or a mapping whose fields may be absent or of
      another type (None). */
  datatype Entry = NotAMapping | Entry(extension: Option<string>, priority: Option<int>)

  datatype Strategy = RingAll | Hunt

  datatype Problem = NotASequence | NoMembers | BadMember(index: nat) | OutOfOrder(index: nat)

  // ----- the payload check ---------------------------------------------------------------------------

  predicate WellFormed(e: Entry) {
    e.Entry? && e.extension.Some? && Strip(e.extension.value) != "" && e.priority.Some? && e.priority.value >= 1
  }

  function Cleaned(e: Entry): Member
    requires WellFormed(e)
  {
    Member(Strip(e.extension.value), e.priority.value)
  }

  /** `(priority, extension) < (priority, extension)`. */
  predicate Before(a: Member, b: Member) {
    a.priority < b.priority || (a.priority == b.priority && Below(a.extension, b.extension))
  }

  predicate Ordered(members: seq<Member>) {
    forall i, j | 0 <= i < j < |members| :: !Before(members[j], members[i])
  }

  lemma OrderIsTransitive(a: Member, b: Member, c: Member)
    requires !Before(b, a) && !Before(c, b)
    ensures !Before(c, a)
  {
    BelowIsTotal(a.extension, b.extension);
    BelowIsTotal(b.extension, c.extension);
    BelowIsTotal(a.extension, c.extension);
    if Below(a.extension, b.extension) && Below(b.extension, c.extension) {
      BelowIsTransitive(a.extension, b.extension, c.extension);
    }
  }

  lemma OrderExtends(members: seq<Member>, m: Member)
    requires Ordered(members) && (members != [] ==> !Before(m, members[|members| - 1]))
    ensures Ordered(members + [m])
  {
    forall i | 0 <= i < |members| ensures !Before(m, members[i]) {
      if i < |members| - 1 { OrderIsTransitive(members[i], members[|members| - 1], m); }
    }
  }

  /** The first `n` entries are well formed. */
  ghost predicate GoodUpTo(entries: seq<Entry>, n: nat) {
    n <= |entries| && forall i | 0 <= i < n :: WellFormed(entries[i])
  }

  /** `members` are the first entries, cleaned, and in order. */
  ghost predicate Cleans(members: seq<Member>, entries: seq<Entry>) {
    && GoodUpTo(entries, |members|) && Ordered(members)
    && forall i | 0 <= i < |members| :: members[i] == Cleaned(entries[i])
  }

  predicate StepsBack(entries: seq<Entry>, i: nat) {
    0 < i < |entries| && WellFormed(entries[i - 1]) && WellFormed(entries[i])
    && Before(Cleaned(entries[i]), Cleaned(entries[i - 1]))
  }

  /** What the check may answer: the members in order, or the first thing wrong with the payload. */
  ghost predicate Verdict(value: Option<seq<Entry>>, r: Result<seq<Member>, Problem>) {
    match r
    case Ok(members) => value.Some? && members != [] && |members| == |value.value| && Cleans(members, value.value)
    case Err(NotASequence) => value.None?
    case Err(NoMembers) => value == Some([])
    case Err(BadMember(i)) => value.Some? && GoodUpTo(value.value, i) && i < |value.value|
        && !WellFormed(value.value[i])
    case Err(OutOfOrder(i)) => value.Some? && GoodUpTo(value.value, i) && StepsBack(value.value, i)
  }

  /** A non-empty list of mappings, each with a text that is not blank and a priority of at least 1, and none
      before its predecessor by priority and then stripped text. */
  predicate Acceptable(entries: seq<Entry>) {
    && entries != []
    && (forall i | 0 <= i < |entries| :: Complete(entries[i]))
    && (forall i | 0 < i < |entries| :: Follows(entries[i - 1], entries[i]))
  }

  predicate Complete(e: Entry) {
    e.Entry? && e.extension.Some? && e.priority.Some? && e.priority.value >= 1
    && exists i :: 0 <= i < |e.extension.value| && !IsSpace(e.extension.value[i])
  }

  predicate Follows(a: Entry, b: Entry)
    requires Complete(a) && Complete(b)
  {
    a.priority.value < b.priority.value
    || (a.priority.value == b.priority.value && !Below(Strip(b.extension.value), Strip(a.extension.value)))
  }

  lemma CompleteIsWellFormed(e: Entry)
    ensures Complete(e) <==> WellFormed(e)
  {
    if e.Entry? && e.extension.Some? {
      var s := e.extension.value;
      StripTakesSpaceOnly(s);
      var l, r :| AllSpace(l) && AllSpace(r) && s == l + Strip(s) + r;
      if Strip(s) != "" { assert !IsSpace(s[|l|]); }
    }
  }

  lemma OrderedAcceptable(members: seq<Member>, entries: seq<Entry>)
    requires members != [] && |members| == |entries| && Cleans(members, entries)
    ensures Acceptable(entries)
  {
    forall i | 0 <= i < |entries| ensures Complete(entries[i]) { CompleteIsWellFormed(entries[i]); }
    forall i | 0 < i < |entries| ensures Follows(entries[i - 1], entries[i]) {
      assert !Before(members[i], members[i - 1]);
      BelowIsTotal(members[i].extension, members[i - 1].extension);
    }
  }

  /** Accepted are exactly the non-empty lists of well-formed members sorted by priority, then extension;
      otherwise the answer is the first thing wrong. */
  method ValidatedMembers(value: Option<seq<Entry>>) returns (r: Result<seq<Member>, Problem>)
    ensures Verdict(value, r)
    ensures r.Ok? <==> value.Some? && Acceptable(value.value)
  {
    if value.None? { return Err(NotASequence); }
    var entries := value.value;
    if entries == [] { return Err(NoMembers); }
    var members: seq<Member> := [];
    var previous: Option<Member> := None;
    for index := 0 to |entries|
      invariant |members| == index && Cleans(members, entries)
      invariant previous == if members == [] then None else Some(members[|members| - 1])
    {
      CompleteIsWellFormed(entries[index]);
      if !WellFormed(entries[index]) { return Err(BadMember(index)); }
      var member := Cleaned(entries[index]);
      if previous.Some? && Before(member, previous.value) {
        assert StepsBack(entries, index);
        return Err(OutOfOrder(index));
      }
      OrderExtends(members, member);
      StillCleans(members, entries);
      previous := Some(member);
      members := members + [member];
    }
    OrderedAcceptable(members, entries);
    r := Ok(members);
  }

  lemma StillCleans(members: seq<Member>, entries: seq<Entry>)
    requires Cleans(members, entries) && |members| < |entries| && WellFormed(entries[|members|])
    requires Ordered(members + [Cleaned(entries[|members|])])
    ensures Cleans(members + [Cleaned(entries[|members|])], entries)
  {
  }

  // ----- the lines -------------------------------------------------------------------------------------

  function Target(m: Member): string { "PJSIP/" + m.extension }

  function JoinTargets(members: seq<Member>): string {
    if members == [] then "" else if |members| == 1 then Target(members[0])
    else Target(members[0]) + "&" + JoinTargets(members[1..])
  }

  function HuntLines(members: seq<Member>): seq<Line> {
    if members == [] then []
    else if |members| == 1 then [Same(None, Dial(Target(members[0])))]
    else [Same(None, Dial(Target(members[0]))), Same(None, GotoIf(Variable("DIALSTATUS"), Text("ANSWER"), "done"))]
         + HuntLines(members[1..])
  }

  function GroupTail(strategy: Strategy, members: seq<Member>): seq<Line> {
    match strategy
    case RingAll => [Same(None, Dial(JoinTargets(members))), Same(None, Hangup)]
    case Hunt => HuntLines(members) + [Same(Some("done"), Hangup)]
  }

  function GroupLines(name: string, strategy: Strategy, members: seq<Member>): seq<Line> {
    Block(name, NoOp, GroupTail(strategy, members))
  }

  // ----- what a call to the group does -------------------------------------------------------------------

  /** The targets a hunt tries: each member in turn until one answers. */
  function Hunted(members: seq<Member>, oracle: Oracle, k: nat): seq<string> {
    if members == [] then []
    else [Target(members[0])] + (if oracle.dial(k).Answered? then [] else Hunted(members[1..], oracle, k + 1))
  }

  /** The priorities of a hunt: each member's Dial, and between two members the branch to the end. */
  lemma {:induction false} HuntAt(members: seq<Member>, k: nat)
    requires k < |members|
    ensures |HuntLines(members)| == 2 * |members| - 1
    ensures forall l | l in HuntLines(members) :: l.Same? && l.tag == None
    ensures HuntLines(members)[2 * k] == Same(None, Dial(Target(members[k])))
    ensures k + 1 < |members| ==>
              HuntLines(members)[2 * k + 1] == Same(None, GotoIf(Variable("DIALSTATUS"), Text("ANSWER"), "done"))
  {
    if |members| > 1 { HuntAt(members[1..], if k > 0 then k - 1 else 0); }
  }

  function GroupSteps(strategy: Strategy, members: seq<Member>): seq<Step>
    requires members != []
  {
    HuntAt(members, 0);
    BlockSteps(NoOp, GroupTail(strategy, members))
  }

  /** `end` is `call` hung up after dialing `targets`. */
  predicate EndsAfterDialing(call: Call, end: Call, targets: seq<string>) {
    && end.pc.context == call.pc.context
    && end == call.(pc := end.pc, live := false, dialed := call.dialed + targets, vars := end.vars)
  }

  /** `next` is `call` further on, having dialed `targets`. */
  predicate DialedOnly(call: Call, next: Call, targets: seq<string>) {
    && next.pc.context == call.pc.context
    && next == call.(pc := next.pc, dialed := call.dialed + targets, vars := next.vars)
  }

  lemma DialingAdds(call: Call, next: Call, end: Call, first: seq<string>, rest: seq<string>)
    requires DialedOnly(call, next, first) && EndsAfterDialing(next, end, rest)
    ensures EndsAfterDialing(call, end, first + rest)
  {
    assert call.dialed + first + rest == call.dialed + (first + rest);
  }

  /** What the run of a hunt needs to know of its priorities. */
  ghost predicate HuntProgram(steps: seq<Step>, members: seq<Member>) {
    && |steps| == 2 * |members| + 1
    && steps[2 * |members|].app == Hangup
    && FindLabel(steps, "done") == Some(2 * |members|)
    && forall k | 0 <= k < |members| ::
         && steps[1 + 2 * k].app == Dial(Target(members[k]))
         && (k + 1 < |members| ==> steps[2 + 2 * k].app == GotoIf(Variable("DIALSTATUS"), Text("ANSWER"), "done"))
  }

  lemma GroupIsHuntProgram(members: seq<Member>)
    requires members != []
    ensures HuntProgram(GroupSteps(Hunt, members), members)
  {
    var steps := GroupSteps(Hunt, members);
    HuntAt(members, 0);
    forall k | 0 <= k < |members|
      ensures steps[1 + 2 * k].app == Dial(Target(members[k]))
      ensures k + 1 < |members| ==> steps[2 + 2 * k].app == GotoIf(Variable("DIALSTATUS"), Text("ANSWER"), "done")
    {
      HuntAt(members, k);
    }
    forall j | 0 <= j < 2 * |members| ensures steps[j].tag != Some("done") {
      if j > 0 { assert HuntLines(members)[j - 1] in HuntLines(members); }
    }
    FirstTag(steps, "done", 2 * |members|);
  }

  /** The call stands at this priority of an extension that holds `steps`. */
  predicate Stands(lines: seq<Line>, call: Call, steps: seq<Step>, priority: nat) {
    call.live && call.pc.priority == priority && Steps(lines, call.pc.context, call.pc.exten) == steps
  }

  lemma HangsUp(lines: seq<Line>, oracle: Oracle, call: Call, steps: seq<Step>, priority: nat)
    requires Stands(lines, call, steps, priority) && priority < |steps| && steps[priority].app == Hangup
    ensures Reaches(lines, oracle, call, call.(live := false))
  {
    Ticks(lines, oracle, call.(live := false), call.(live := false));
    Ticks(lines, oracle, call, call.(live := false));
  }

  predicate HuntGoesOn(oracle: Oracle, call: Call, members: seq<Member>, k: nat) {
    k + 1 < |members| && !oracle.dial(|call.dialed|).Answered?
  }

  /** One member of a hunt: it is dialed, and the call ends unless it is not the last and did not answer. */
  lemma HuntOne(lines: seq<Line>, oracle: Oracle, call: Call, steps: seq<Step>, members: seq<Member>, k: nat)
      returns (next: Call)
    requires k < |members| && HuntProgram(steps, members) && Stands(lines, call, steps, 1 + 2 * k)
    ensures Reaches(lines, oracle, call, next)
    ensures HuntGoesOn(oracle, call, members, k) ==>
              Stands(lines, next, steps, 1 + 2 * (k + 1))
              && DialedOnly(call, next, [Target(members[k])])
    ensures !HuntGoesOn(oracle, call, members, k) ==> EndsAfterDialing(call, next, [Target(members[k])])
  {
    assert steps[1 + 2 * k].app == Dial(Target(members[k]));
    var rung := Tick(lines, oracle, call);
    if !rung.live {
      next := rung;
      Ticks(lines, oracle, next, next);
    } else if k + 1 == |members| {
      HangsUp(lines, oracle, rung, steps, 2 * |members|);
      next := rung.(live := false);
    } else {
      next := Tick(lines, oracle, rung);
      Ticks(lines, oracle, next, next);
      Ticks(lines, oracle, rung, next);
      if oracle.dial(|call.dialed|).Answered? {
        HangsUp(lines, oracle, next, steps, 2 * |members|);
        Joins(lines, oracle, rung, next, next.(live := false));
        next := next.(live := false);
      }
    }
    Ticks(lines, oracle, call, next);
  }

  /** From the Dial of member `k` on, exactly the members up to the first that answers are dialed, in
      their order, and then the call is hung up. */
  lemma {:induction false} HuntRuns(lines: seq<Line>, oracle: Oracle, call: Call, steps: seq<Step>,
                                    members: seq<Member>, k: nat)
    returns (end: Call)
    requires k < |members| && HuntProgram(steps, members) && Stands(lines, call, steps, 1 + 2 * k)
    ensures Reaches(lines, oracle, call, end)
    ensures EndsAfterDialing(call, end, Hunted(members[k..], oracle, |call.dialed|))
    decreases |members| - k
  {
    var next := HuntOne(lines, oracle, call, steps, members, k);
    HuntedFrom(members, oracle, call, k);
    end := next;
    if HuntGoesOn(oracle, call, members, k) {
      end := HuntRuns(lines, oracle, next, steps, members, k + 1);
      DialingAdds(call, next, end, [Target(members[k])], Hunted(members[k + 1..], oracle, |next.dialed|));
      Joins(lines, oracle, call, next, end);
    }
  }

  lemma HuntedFrom(members: seq<Member>, oracle: Oracle, call: Call, k: nat)
    requires k < |members|
    ensures Hunted(members[k..], oracle, |call.dialed|)
              == [Target(members[k])]
                 + (if HuntGoesOn(oracle, call, members, k) then Hunted(members[k + 1..], oracle, |call.dialed| + 1)
                    else [])
  {
    assert members[k..][1..] == members[k + 1..];
  }

  /** A call to a hunt group dials its members in order up to the first that answers, then ends. */
  lemma HuntGroup(lines: seq<Line>, oracle: Oracle, call: Call, members: seq<Member>)
    requires members != [] && Stands(lines, call, GroupSteps(Hunt, members), 0)
    ensures exists end :: Reaches(lines, oracle, call, end)
              && EndsAfterDialing(call, end, Hunted(members, oracle, |call.dialed|))
  {
    GroupIsHuntProgram(members);
    var entered := Tick(lines, oracle, call);
    var end := HuntRuns(lines, oracle, entered, GroupSteps(Hunt, members), members, 0);
    assert members[0..] == members;
    Ticks(lines, oracle, call, end);
    assert EndsAfterDialing(call, end, Hunted(members, oracle, |call.dialed|));
  }

  /** A call to a ring-all group makes one dial attempt to all members at once, then ends. */
  lemma RingAllGroup(lines: seq<Line>, oracle: Oracle, call: Call, members: seq<Member>)
    requires members != [] && Stands(lines, call, GroupSteps(RingAll, members), 0)
    ensures exists end :: Reaches(lines, oracle, call, end) && EndsAfterDialing(call, end, [JoinTargets(members)])
  {
    var entered := Tick(lines, oracle, call);
    var rung := Tick(lines, oracle, entered);
    var end := if rung.live then Tick(lines, oracle, rung) else rung;
    Ticks(lines, oracle, end, end);
    Ticks(lines, oracle, rung, end);
    Ticks(lines, oracle, entered, end);
    Ticks(lines, oracle, call, end);
    assert EndsAfterDialing(call, end, [JoinTargets(members)]);
  }

  /** The text between ampersands, as a dial string names its targets. */
  function Ampersanded(s: string): (r: seq<string>)
    ensures r != []
  {
    if s == "" then [""]
    else
      var rest := Ampersanded(s[1..]);
      if s[0] == '&' then [""] + rest else [[s[0]] + rest[0]] + rest[1..]
  }

  lemma {:induction false} AmpersandedJoins(a: string, b: string)
    requires '&' !in a
    ensures Ampersanded(a) == [a] && Ampersanded(a + "&" + b) == [a] + Ampersanded(b)
  {
    if a == "" {
      assert a + "&" + b == "&" + b && ("&" + b)[1..] == b;
    } else {
      assert (a + "&" + b)[1..] == a[1..] + "&" + b;
      assert a[0] in a && [a[0]] + a[1..] == a;
      forall c | c in a[1..] ensures c in a { }
      AmpersandedJoins(a[1..], b);
    }
  }

  lemma {:induction false} JoinedTargetsAreAll(members: seq<Member>)
    requires members != [] && forall i | 0 <= i < |members| :: '&' !in members[i].extension
    ensures var rung := Ampersanded(JoinTargets(members));
            |rung| == |members| && forall i | 0 <= i < |members| :: rung[i] == "PJSIP/" + members[i].extension
  {
    assert '&' !in Target(members[0]);
    if |members| == 1 {
      AmpersandedJoins(Target(members[0]), "");
    } else {
      JoinedTargetsAreAll(members[1..]);
      AmpersandedJoins(Target(members[0]), JoinTargets(members[1..]));
    }
  }

  /** The one dial of a ring-all group names every member, in order, and nobody else. */
  lemma RingAllDialsEverybody(lines: seq<Line>, oracle: Oracle, call: Call, members: seq<Member>)
    requires members != [] && forall i | 0 <= i < |members| :: '&' !in members[i].extension
    requires Stands(lines, call, GroupSteps(RingAll, members), 0)
    ensures exists end, dial :: Reaches(lines, oracle, call, end) && EndsAfterDialing(call, end, [dial])
              && Ampersanded(dial) == seq(|members|, i requires 0 <= i < |members| => "PJSIP/" + members[i].extension)
  {
    RingAllGroup(lines, oracle, call, members);
    JoinedTargetsAreAll(members);
    var end :| Reaches(lines, oracle, call, end) && EndsAfterDialing(call, end, [JoinTargets(members)]);
    assert Ampersanded(JoinTargets(members))
           == seq(|members|, i requires 0 <= i < |members| => "PJSIP/" + members[i].extension);
  }

  /** The attempts are the first members, in their order: every one before the last tried failed to answer,
      and the last answered unless all were tried. */
  lemma {:induction false} HuntedIsAPrefix(members: seq<Member>, oracle: Oracle, k: nat)
    requires members != []
    ensures var tried := Hunted(members, oracle, k);
            && 0 < |tried| <= |members|
            && (forall i | 0 <= i < |tried| :: tried[i] == Target(members[i]))
            && (forall i | k <= i < k + |tried| - 1 :: !oracle.dial(i).Answered?)
            && (|tried| < |members| ==> oracle.dial(k + |tried| - 1).Answered?)
  {
    if |members| > 1 && !oracle.dial(k).Answered? {
      HuntedIsAPrefix(members[1..], oracle, k + 1);
    }
  }

  /** The attempts of a hunt over a checked payload: its first entries, cleaned, by priority and then
      extension, up to the first that answers. */
  ghost predicate TriesInOrder(entries: seq<Entry>, oracle: Oracle, k: nat, tried: seq<string>) {
    && 0 < |tried| <= |entries| && GoodUpTo(entries, |entries|)
    && (forall i | 0 <= i < |tried| :: tried[i] == "PJSIP/" + Strip(entries[i].extension.value))
    && (forall i, j | 0 <= i < j < |tried| ::
          entries[i].priority.value < entries[j].priority.value
          || (entries[i].priority.value == entries[j].priority.value
              && !Below(Strip(entries[j].extension.value), Strip(entries[i].extension.value))))
    && (forall i | k <= i < k + |tried| - 1 :: !oracle.dial(i).Answered?)
    && (|tried| < |entries| ==> oracle.dial(k + |tried| - 1).Answered?)
  }

  lemma CheckedMembersAreTriedInOrder(entries: seq<Entry>, members: seq<Member>, oracle: Oracle, k: nat)
    requires Verdict(Some(entries), Ok(members))
    ensures TriesInOrder(entries, oracle, k, Hunted(members, oracle, k))
  {
    HuntedIsAPrefix(members, oracle, k);
    var tried := Hunted(members, oracle, k);
    forall i, j | 0 <= i < j < |tried|
      ensures members[i].priority < members[j].priority
              || (members[i].priority == members[j].priority && !Below(members[j].extension, members[i].extension))
    {
      assert !Before(members[j], members[i]);
    }
  }
}
