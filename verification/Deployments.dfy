/** Deployments and rollbacks as the portal records them: one record and one audit entry an attempt, the
    steps of each, and what they make of versions and locations. */
module Deployments {
  import opened Wrappers

  // ----- records ------------------------------------------------------------------------------------------------

  datatype Step = PrepareStaging | UploadBundle | VerifyStaging | SwapVolumes | ReloadAsterisk

  const ALL_STEPS: seq<Step> := [PrepareStaging, UploadBundle, VerifyStaging, SwapVolumes, ReloadAsterisk]

  datatype StepRecord = StepRecord(step: Step, returncode: int)

  datatype Status = Pending | Success | Failed

  datatype ReloadResult = NotRun | ReloadSuccess | ReloadFailed

  datatype Error = NotConfirmed | BadTarget | BadArchive | StepFailed(step: Step, returncode: int) | Raised

  datatype Record = Record(version: nat, location: nat, rollback: bool, steps: seq<StepRecord>, status: Status,
                           reload: ReloadResult, error: Option<Error>, completedAt: Option<int>)

  datatype AuditOutcome = AuditSuccess | AuditFailure | AuditDenied

  /** An audit entry tells the record's state when it was written. */
  datatype Audit = Audit(record: nat, outcome: AuditOutcome, status: Status, reload: ReloadResult)

  datatype VersionStatus = NotDeployed | Deployed | RolledBack

  datatype Version = Version(status: VersionStatus, deployedAt: Option<int>)

  datatype SiteStatus = SiteDeployed | SiteFailed

  datatype Site = Site(status: SiteStatus, lastDeployedAt: Option<int>)

  /** What the runner does with a command: a return code, or an exception. */
  datatype Result = Ran(returncode: int) | Threw

  /** An attempt, with everything the outside world answers to it. */
  datatype Attempt = Attempt(version: nat, location: nat, rollback: bool, confirmed: bool, targetValid: bool,
                             archiveGood: bool, runner: Step -> Result, now: int)

  /** The tables. */
  datatype Tables = Tables(records: seq<Record>, audits: seq<Audit>, versions: map<nat, Version>, sites: map<nat, Site>)

  // ----- one attempt ----------------------------------------------------------------------------------------------

  /** The steps recorded from the `k`th on. */
  function Taken(runner: Step -> Result, k: nat): seq<StepRecord>
    requires k <= 5
    decreases 5 - k
  {
    if k == 5 || runner(ALL_STEPS[k]).Threw? then []
    else
      var code := runner(ALL_STEPS[k]).returncode;
      [StepRecord(ALL_STEPS[k], code)] + (if code == 0 then Taken(runner, k + 1) else [])
  }

  /** What stops them. */
  function Stopped(runner: Step -> Result, k: nat): Option<Error>
    requires k <= 5
    decreases 5 - k
  {
    if k == 5 then None
    else if runner(ALL_STEPS[k]).Threw? then Some(Raised)
    else if runner(ALL_STEPS[k]).returncode != 0 then Some(StepFailed(ALL_STEPS[k], runner(ALL_STEPS[k]).returncode))
    else Stopped(runner, k + 1)
  }

  lemma TakenGrows(runner: Step -> Result, k: nat, done: seq<StepRecord>)
    requires k < 5
    ensures var r := runner(ALL_STEPS[k]);
            var more := done + (if r.Threw? then [] else [StepRecord(ALL_STEPS[k], r.returncode)]);
            && (if r.Ran? && r.returncode == 0
                then done + Taken(runner, k) == more + Taken(runner, k + 1)
                    && Stopped(runner, k) == Stopped(runner, k + 1)
                else done + Taken(runner, k) == more
                     && Stopped(runner, k) == Some(if r.Threw? then Raised else StepFailed(ALL_STEPS[k], r.returncode)))
  {
    if runner(ALL_STEPS[k]).Ran? {
      assert Taken(runner, k) == [StepRecord(ALL_STEPS[k], runner(ALL_STEPS[k]).returncode)]
             + (if runner(ALL_STEPS[k]).returncode == 0 then Taken(runner, k + 1) else []);
    }
  }

  predicate Starts(a: Attempt) { a.confirmed && a.targetValid && a.archiveGood }

  function ErrorOf(a: Attempt): Option<Error> {
    if !a.confirmed then Some(NotConfirmed)
    else if !a.targetValid then Some(BadTarget)
    else if !a.archiveGood then Some(BadArchive)
    else Stopped(a.runner, 0)
  }

  function RecordOf(a: Attempt): Record {
    var error := ErrorOf(a);
    Record(a.version, a.location, a.rollback, if Starts(a) then Taken(a.runner, 0) else [],
           if error == None then Success else Failed,
           if error == None then ReloadSuccess
           else if error.value.StepFailed? && error.value.step == ReloadAsterisk then ReloadFailed else NotRun,
           error, Some(a.now))
  }

  function AuditOf(a: Attempt, record: nat): Audit {
    var error := ErrorOf(a);
    Audit(record, if error == None then AuditSuccess else if error.value == NotConfirmed then AuditDenied
          else AuditFailure,
          RecordOf(a).status, RecordOf(a).reload)
  }

  function LastDeployed(sites: map<nat, Site>, location: nat): Option<int> {
    if location in sites then sites[location].lastDeployedAt else None
  }

  function After(t: Tables, a: Attempt): Tables {
    Tables(t.records + [RecordOf(a)], t.audits + [AuditOf(a, |t.records|)],
           if ErrorOf(a) == None
           then t.versions[a.version := Version(if a.rollback then RolledBack else Deployed, Some(a.now))]
           else t.versions,
           t.sites[a.location := if ErrorOf(a) == None then Site(SiteDeployed, Some(a.now))
                                 else Site(SiteFailed, LastDeployed(t.sites, a.location))])
  }

  function AfterAll(t: Tables, attempts: seq<Attempt>): Tables {
    if attempts == [] then t else After(AfterAll(t, attempts[..|attempts| - 1]), attempts[|attempts| - 1])
  }

  // ----- as the portal does it ---------------------------------------------------------------------------------------

  /** The tables, updated step by step: the record is created pending, each step is appended as it ends,
      and the outcome is written last. */
  class Portal {
    var records: seq<Record>
    var audits: seq<Audit>
    var versions: map<nat, Version>
    var sites: map<nat, Site>

    function State(): Tables
      reads this
    {
      Tables(records, audits, versions, sites)
    }

    constructor ()
      ensures State() == Tables([], [], map[], map[])
    {
      records, audits, versions, sites := [], [], map[], map[];
    }

    /** `_run_step`: the step is recorded whatever its return code, unless the runner throws. */
    method RunStep(id: nat, step: Step, result: Result) returns (error: Option<Error>)
      requires id < |records|
      modifies this`records
      ensures records == old(records)[id := old(records)[id].(steps := old(records)[id].steps
                           + (if result.Threw? then [] else [StepRecord(step, result.returncode)]))]
      ensures error == if result.Threw? then Some(Raised)
                       else if result.returncode != 0 then Some(StepFailed(step, result.returncode)) else None
    {
      var record := records[id];
      if result.Threw? {
        assert record.steps + [] == record.steps && records[id := record] == records;
        return Some(Raised);
      }
      records := records[id := record.(steps := record.steps + [StepRecord(step, result.returncode)])];
      if result.returncode != 0 { return Some(StepFailed(step, result.returncode)); }
      return None;
    }

    /** The steps in order, until one stops the attempt. */
    method RunSteps(id: nat, runner: Step -> Result) returns (error: Option<Error>)
      requires id < |records| && records[id].steps == []
      modifies this`records
      ensures error == Stopped(runner, 0)
      ensures records == old(records)[id := old(records)[id].(steps := Taken(runner, 0))]
    {
      var k := 0;
      error := None;
      ghost var done: seq<StepRecord> := [];
      while k < 5 && error.None?
        invariant 0 <= k <= 5
        invariant records == old(records)[id := old(records)[id].(steps := done)]
        invariant error.None? ==>
                    done + Taken(runner, k) == Taken(runner, 0)
                    && Stopped(runner, k) == Stopped(runner, 0)
        invariant error.Some? ==> done == Taken(runner, 0) && error == Stopped(runner, 0)
      {
        TakenGrows(runner, k, done);
        error := RunStep(id, ALL_STEPS[k], runner(ALL_STEPS[k]));
        done := done + (if runner(ALL_STEPS[k]).Threw? then []
                        else [StepRecord(ALL_STEPS[k], runner(ALL_STEPS[k]).returncode)]);
        k := k + 1;
      }
      assert done + [] == done;
    }

    method MarkSuccess(id: nat, a: Attempt)
      requires id < |records|
      modifies this
      ensures audits == old(audits)
      ensures records == old(records)[id := old(records)[id].(status := Success, reload := ReloadSuccess,
                                                              error := None, completedAt := Some(a.now))]
      ensures versions == old(versions)[a.version := Version(if a.rollback then RolledBack else Deployed, Some(a.now))]
      ensures sites == old(sites)[a.location := Site(SiteDeployed, Some(a.now))]
    {
      var version := Version(if a.rollback then RolledBack else Deployed, Some(a.now));
      versions := versions[a.version := version];
      sites := sites[a.location := Site(SiteDeployed, version.deployedAt)];
      records := records[id := records[id].(status := Success, reload := ReloadSuccess, error := None,
                                            completedAt := Some(a.now))];
    }

    method MarkFailed(id: nat, a: Attempt, error: Error)
      requires id < |records|
      modifies this
      ensures audits == old(audits) && versions == old(versions)
      ensures records == old(records)[id := old(records)[id].(
                           status := Failed, error := Some(error), completedAt := Some(a.now),
                           reload := if error.StepFailed? && error.step == ReloadAsterisk then ReloadFailed
                               else old(records)[id].reload)]
      ensures sites == old(sites)[a.location := Site(SiteFailed, LastDeployed(old(sites), a.location))]
    {
      if error.StepFailed? && error.step == ReloadAsterisk {
        records := records[id := records[id].(reload := ReloadFailed)];
      }
      records := records[id := records[id].(status := Failed, error := Some(error), completedAt := Some(a.now))];
      sites := sites[a.location := Site(SiteFailed, LastDeployed(sites, a.location))];
    }

    /** `deploy_config_version`. */
    method Deploy(a: Attempt) returns (raised: Option<Error>)
      modifies this
      ensures State() == After(old(State()), a) && raised == ErrorOf(a)
    {
      var id := |records|;
      records := records + [Record(a.version, a.location, a.rollback, [], Pending, NotRun, None, None)];
      if !a.confirmed { raised := Some(NotConfirmed); }
      else if !a.targetValid { raised := Some(BadTarget); }
      else if !a.archiveGood { raised := Some(BadArchive); }
      else { raised := RunSteps(id, a.runner); }

      if raised.None? {
        MarkSuccess(id, a);
        audits := audits + [Audit(id, AuditSuccess, records[id].status, records[id].reload)];
      } else {
        MarkFailed(id, a, raised.value);
        audits := audits + [Audit(id, if raised.value == NotConfirmed then AuditDenied else AuditFailure,
                                  records[id].status, records[id].reload)];
      }
      assert records == old(records) + [RecordOf(a)];
    }
  }

  // ----- what every record says --------------------------------------------------------------------------------------

  predicate AllZero(steps: seq<StepRecord>) {
    forall i | 0 <= i < |steps| :: steps[i].returncode == 0
  }

  predicate Completed(steps: seq<StepRecord>) { |steps| == 5 && AllZero(steps) }

  /** The steps are those from the `k`th on, in order, and only the last of them may have failed. */
  predicate InOrderFrom(steps: seq<StepRecord>, k: nat) {
    && k + |steps| <= 5
    && (forall i | 0 <= i < |steps| :: steps[i].step == ALL_STEPS[k + i])
    && (forall i | 0 <= i < |steps| - 1 :: steps[i].returncode == 0)
  }

  predicate RecordSound(r: Record) {
    && InOrderFrom(r.steps, 0) && r.status != Pending && r.completedAt.Some?
    && (r.status == Success <==> Completed(r.steps))
    && (r.status == Success <==> r.reload == ReloadSuccess)
    && (r.reload == ReloadFailed <==> |r.steps| == 5 && r.steps[4].returncode != 0)
    && (r.steps != [] && r.steps[|r.steps| - 1].returncode != 0 ==>
          r.error == Some(StepFailed(r.steps[|r.steps| - 1].step, r.steps[|r.steps| - 1].returncode)))
  }

  lemma {:induction false} TakenInOrder(runner: Step -> Result, k: nat)
    requires k <= 5
    ensures InOrderFrom(Taken(runner, k), k)
    decreases 5 - k
  {
    if k < 5 { TakenInOrder(runner, k + 1); }
  }

  lemma {:induction false} StoppedSays(runner: Step -> Result, k: nat)
    requires k <= 5
    ensures var taken := Taken(runner, k);
            match Stopped(runner, k)
            case None => |taken| == 5 - k && AllZero(taken)
            case Some(StepFailed(step, code)) => taken != [] && taken[|taken| - 1] == StepRecord(step, code)
                && code != 0
            case Some(Raised) => |taken| < 5 - k && AllZero(taken)
            case Some(_) => false
    decreases 5 - k
  {
    if k < 5 && runner(ALL_STEPS[k]).Ran? && runner(ALL_STEPS[k]).returncode == 0 {
      StoppedSays(runner, k + 1);
      ZeroFirst(StepRecord(ALL_STEPS[k], 0), Taken(runner, k + 1));
    }
  }

  lemma ZeroFirst(first: StepRecord, rest: seq<StepRecord>)
    requires first.returncode == 0
    ensures AllZero([first] + rest) <==> AllZero(rest)
  {
    if AllZero([first] + rest) {
      forall i | 0 <= i < |rest| ensures rest[i].returncode == 0 { assert ([first] + rest)[i + 1] == rest[i]; }
    }
  }

  lemma RecordIsSound(a: Attempt)
    ensures RecordSound(RecordOf(a))
    ensures RecordOf(a).steps != [] ==> Starts(a)
  {
    TakenInOrder(a.runner, 0);
    StoppedSays(a.runner, 0);
    var steps := RecordOf(a).steps;
    if steps != [] { assert steps[|steps| - 1].step == ALL_STEPS[|steps| - 1]; }
  }

  // ----- any sequence of attempts ----------------------------------------------------------------------------------

  /** The last record of the version that succeeded; None if there is none. */
  function LastSuccess(records: seq<Record>, version: nat): Option<Record> {
    if records == [] then None
    else
      var last := records[|records| - 1];
      if last.version == version && last.status == Success then Some(last)
      else LastSuccess(records[..|records| - 1], version)
  }

  function LastOf(records: seq<Record>, location: nat): Option<Record> {
    if records == [] then None
    else if records[|records| - 1].location == location then Some(records[|records| - 1])
    else LastOf(records[..|records| - 1], location)
  }

  function LastSuccessAt(records: seq<Record>, location: nat): Option<Record> {
    if records == [] then None
    else
      var last := records[|records| - 1];
      if last.location == location && last.status == Success then Some(last)
      else LastSuccessAt(records[..|records| - 1], location)
  }

  /** A version is marked by its last successful record, and by nothing else. */
  predicate VersionFollows(t: Tables, version: nat) {
    var r := LastSuccess(t.records, version);
    if r.None? then version !in t.versions
    else version in t.versions
         && t.versions[version] == Version(if r.value.rollback then RolledBack else Deployed, r.value.completedAt)
  }

  /** A location shows its last record's status, and the time of its last success. */
  predicate SiteFollows(t: Tables, location: nat) {
    var r := LastOf(t.records, location);
    if r.None? then location !in t.sites
    else location in t.sites
         && t.sites[location].status == (if r.value.status == Success then SiteDeployed else SiteFailed)
         && t.sites[location].lastDeployedAt
              == (var s := LastSuccessAt(t.records, location); if s.None? then None else s.value.completedAt)
  }

  /** One audit entry a record, in order, telling how it ended. */
  predicate AuditFollows(t: Tables, i: nat) {
    i < |t.records| && i < |t.audits| && t.audits[i].record == i
    && t.audits[i].status == t.records[i].status && t.audits[i].reload == t.records[i].reload
    && t.audits[i].outcome == (if t.records[i].status == Success then AuditSuccess
                               else if t.records[i].error == Some(NotConfirmed) then AuditDenied else AuditFailure)
  }

  const NO_TABLES := Tables([], [], map[], map[])

  lemma {:induction false} EveryRecordIsSound(attempts: seq<Attempt>, i: nat)
    requires i < |attempts|
    ensures var t := AfterAll(NO_TABLES, attempts);
            && |t.records| == |t.audits| == |attempts|
            && RecordSound(t.records[i]) && AuditFollows(t, i)
            && (t.audits[i].outcome == AuditDenied <==> !attempts[i].confirmed)
            && t.records[i].version == attempts[i].version && t.records[i].rollback == attempts[i].rollback
  {
    var n := |attempts| - 1;
    LengthsAgree(attempts[..n]);
    var before := AfterAll(NO_TABLES, attempts[..n]);
    if i == n {
      LastRecordIsSound(before, attempts[n]);
    } else {
      EveryRecordIsSound(attempts[..n], i);
      EarlierRecordStays(before, attempts[n], i);
    }
  }

  lemma LastRecordIsSound(before: Tables, a: Attempt)
    requires |before.records| == |before.audits|
    ensures var t := After(before, a); var i := |before.records|;
            && RecordSound(t.records[i]) && AuditFollows(t, i)
            && (t.audits[i].outcome == AuditDenied <==> !a.confirmed)
            && t.records[i].version == a.version && t.records[i].rollback == a.rollback
  {
    RecordIsSound(a);
    StoppedIsNotUnconfirmed(a);
  }

  lemma EarlierRecordStays(before: Tables, a: Attempt, i: nat)
    requires i < |before.records| == |before.audits|
    ensures After(before, a).records[i] == before.records[i] && After(before, a).audits[i] == before.audits[i]
    ensures AuditFollows(before, i) ==> AuditFollows(After(before, a), i)
  {
  }

  lemma StoppedIsNotUnconfirmed(a: Attempt)
    ensures ErrorOf(a) == Some(NotConfirmed) <==> !a.confirmed
  {
    StoppedSays(a.runner, 0);
  }

  lemma {:induction false} LengthsAgree(attempts: seq<Attempt>)
    ensures var t := AfterAll(NO_TABLES, attempts); |t.records| == |t.audits| == |attempts|
  {
    if attempts != [] { LengthsAgree(attempts[..|attempts| - 1]); }
  }

  /** After any deploys and rollbacks, whatever the runners did, each version is marked by its last
      success alone. */
  lemma {:induction false} VersionsFollow(attempts: seq<Attempt>, version: nat)
    ensures VersionFollows(AfterAll(NO_TABLES, attempts), version)
  {
    if attempts != [] {
      var n := |attempts| - 1;
      VersionsFollow(attempts[..n], version);
      var t := AfterAll(NO_TABLES, attempts[..n]);
      assert (t.records + [RecordOf(attempts[n])])[..|t.records|] == t.records;
    }
  }

  lemma {:induction false} NoSuccessWithoutRecord(records: seq<Record>, location: nat)
    ensures LastOf(records, location) == None ==> LastSuccessAt(records, location) == None
  {
    if records != [] { NoSuccessWithoutRecord(records[..|records| - 1], location); }
  }

  /** And each location shows how its last attempt ended and when its last success was. */
  lemma {:induction false} SitesFollow(attempts: seq<Attempt>, location: nat)
    ensures SiteFollows(AfterAll(NO_TABLES, attempts), location)
  {
    if attempts != [] {
      var n := |attempts| - 1;
      SitesFollow(attempts[..n], location);
      SiteStepFollows(AfterAll(NO_TABLES, attempts[..n]), attempts[n], location);
    }
  }

  lemma SiteStepFollows(t: Tables, a: Attempt, location: nat)
    requires SiteFollows(t, location)
    ensures SiteFollows(After(t, a), location)
  {
    assert (t.records + [RecordOf(a)])[..|t.records|] == t.records;
    NoSuccessWithoutRecord(t.records, location);
  }

  /** The attempts that succeed, in order. */
  function Succeeding(attempts: seq<Attempt>): seq<Attempt> {
    if attempts == [] then []
    else
      var last := attempts[|attempts| - 1];
      Succeeding(attempts[..|attempts| - 1]) + (if ErrorOf(last) == None then [last] else [])
  }

  lemma AfterOneMore(t: Tables, attempts: seq<Attempt>, a: Attempt)
    ensures AfterAll(t, attempts + [a]) == After(AfterAll(t, attempts), a)
  {
    assert (attempts + [a])[..|attempts|] == attempts;
  }

  /** Attempts that fail might as well not have been made, as far as versions and the times of the last
      deployments go: with all of them taken out of any sequence, those come out the same. */
  lemma {:induction false} FailuresMarkNothing(t: Tables, attempts: seq<Attempt>, location: nat)
    ensures var all, good := AfterAll(t, attempts), AfterAll(t, Succeeding(attempts));
            && good.versions == all.versions
            && LastDeployed(good.sites, location) == LastDeployed(all.sites, location)
  {
    if attempts != [] {
      var before, last := attempts[..|attempts| - 1], attempts[|attempts| - 1];
      FailuresMarkNothing(t, before, location);
      if ErrorOf(last) == None {
        AfterOneMore(t, Succeeding(before), last);
      } else {
        assert Succeeding(before) + [] == Succeeding(before);
      }
    }
  }

  // ----- the order of the steps, by name ---------------------------------------------------------------------------

  /** Entry `j`, if it is of this step, stands directly behind an entry of the other that returned 0. */
  predicate Behind(steps: seq<StepRecord>, j: nat, step: Step, other: Step)
    requires j < |steps|
  {
    steps[j].step == step ==> j > 0 && steps[j - 1] == StepRecord(other, 0)
  }

  predicate StepInPlace(steps: seq<StepRecord>, j: nat)
    requires j < |steps|
  {
    && (steps[j].step == PrepareStaging ==> j == 0)
    && Behind(steps, j, UploadBundle, PrepareStaging) && Behind(steps, j, VerifyStaging, UploadBundle)
    && Behind(steps, j, SwapVolumes, VerifyStaging) && Behind(steps, j, ReloadAsterisk, SwapVolumes)
  }

  predicate AllPassed(steps: seq<StepRecord>) {
    steps == [StepRecord(PrepareStaging, 0), StepRecord(UploadBundle, 0), StepRecord(VerifyStaging, 0),
              StepRecord(SwapVolumes, 0), StepRecord(ReloadAsterisk, 0)]
  }

  /** In every record of any attempts nothing is swapped that was not verified before, nothing verified that
      was not uploaded, nothing uploaded without a fresh staging directory, and nothing reloaded that was not
      swapped; and success is all five, in this order. */
  lemma StepsAreInPlace(attempts: seq<Attempt>, i: nat, j: nat)
    requires i < |attempts|
    ensures i < |AfterAll(NO_TABLES, attempts).records|
    ensures var r := AfterAll(NO_TABLES, attempts).records[i];
            (j < |r.steps| ==> StepInPlace(r.steps, j)) && (r.status == Success <==> AllPassed(r.steps))
  {
    EveryRecordIsSound(attempts, i);
    var steps := AfterAll(NO_TABLES, attempts).records[i].steps;
    NamedOrder();
    if j < |steps| {
      assert steps[j].step == ALL_STEPS[0 + j];
      if j > 0 { assert steps[j - 1].step == ALL_STEPS[0 + (j - 1)]; }
    }
    if Completed(steps) { FiveAreAll(steps); }
  }

  lemma NamedOrder()
    ensures ALL_STEPS[0] == PrepareStaging && ALL_STEPS[1] == UploadBundle && ALL_STEPS[2] == VerifyStaging
    ensures ALL_STEPS[3] == SwapVolumes && ALL_STEPS[4] == ReloadAsterisk && |ALL_STEPS| == 5
  {
  }

  lemma FiveAreAll(steps: seq<StepRecord>)
    requires |steps| == 5 && AllZero(steps) && InOrderFrom(steps, 0)
    ensures AllPassed(steps)
  {
    NamedOrder();
    forall i | 0 <= i < 5 ensures steps[i] == StepRecord(ALL_STEPS[i], 0) { assert steps[i].step == ALL_STEPS[0 + i]; }
  }

  predicate Passes(runner: Step -> Result, step: Step) { runner(step) == Ran(0) }

  /** What stops a runner: the first of the five, by name, that does not return 0. */
  function FirstStop(runner: Step -> Result): Option<Error> {
    if !Passes(runner, PrepareStaging) then Some(StopOf(runner, PrepareStaging))
    else if !Passes(runner, UploadBundle) then Some(StopOf(runner, UploadBundle))
    else if !Passes(runner, VerifyStaging) then Some(StopOf(runner, VerifyStaging))
    else if !Passes(runner, SwapVolumes) then Some(StopOf(runner, SwapVolumes))
    else if !Passes(runner, ReloadAsterisk) then Some(StopOf(runner, ReloadAsterisk))
    else None
  }

  function StopOf(runner: Step -> Result, step: Step): Error {
    match runner(step)
    case Threw => Raised
    case Ran(code) => StepFailed(step, code)
  }

  /** What an attempt comes to: success if and only if the reload was confirmed, the target and the archive
      are good and every step returned 0; else the first of these that fails, and no step is taken before the
      first three have passed. */
  lemma AttemptEnds(attempts: seq<Attempt>, i: nat)
    requires i < |attempts|
    ensures i < |AfterAll(NO_TABLES, attempts).records|
    ensures var r := AfterAll(NO_TABLES, attempts).records[i]; var a := attempts[i];
            && (r.status == Success <==>
                  a.confirmed && a.targetValid && a.archiveGood
                  && Passes(a.runner, PrepareStaging) && Passes(a.runner, UploadBundle)
                  && Passes(a.runner, VerifyStaging) && Passes(a.runner, SwapVolumes)
                  && Passes(a.runner, ReloadAsterisk))
            && (!a.confirmed ==> r.error == Some(NotConfirmed) && r.steps == [])
            && (a.confirmed && !a.targetValid ==> r.error == Some(BadTarget) && r.steps == [])
            && (a.confirmed && a.targetValid && !a.archiveGood ==> r.error == Some(BadArchive) && r.steps == [])
            && (a.confirmed && a.targetValid && a.archiveGood ==> r.error == FirstStop(a.runner))
            && r.location == a.location && r.completedAt == Some(a.now)
  {
    RecordIsKept(attempts, i);
    StoppedIsFirst(attempts[i].runner);
    LengthsAgree(attempts);
  }

  function Each<T, U>(f: T -> U, items: seq<T>): seq<U> {
    if items == [] then [] else Each(f, items[..|items| - 1]) + [f(items[|items| - 1])]
  }

  lemma {:induction false} EachAt<T, U>(f: T -> U, items: seq<T>, i: nat)
    requires i < |items|
    ensures |Each(f, items)| == |items| && Each(f, items)[i] == f(items[i])
  {
    var init := items[..|items| - 1];
    if i < |init| { EachAt(f, init, i); } else if init != [] { EachAt(f, init, 0); }
  }

  lemma {:induction false} RecordsAre(attempts: seq<Attempt>)
    ensures AfterAll(NO_TABLES, attempts).records == Each(RecordOf, attempts)
  {
    if attempts != [] {
      RecordsAre(attempts[..|attempts| - 1]);
      LastAppends(AfterAll(NO_TABLES, attempts[..|attempts| - 1]), attempts[|attempts| - 1]);
    }
  }

  lemma LastAppends(t: Tables, a: Attempt)
    ensures After(t, a).records == t.records + [RecordOf(a)]
  {
  }

  lemma RecordIsKept(attempts: seq<Attempt>, i: nat)
    requires i < |attempts|
    ensures i < |AfterAll(NO_TABLES, attempts).records|
    ensures AfterAll(NO_TABLES, attempts).records[i] == RecordOf(attempts[i])
  {
    RecordsAre(attempts);
    EachAt(RecordOf, attempts, i);
  }

  lemma StoppedIsFirst(runner: Step -> Result)
    ensures Stopped(runner, 0) == FirstStop(runner)
  {
    NamedOrder();
    assert Stopped(runner, 5) == None;
    assert forall k | 0 <= k < 5 :: Stopped(runner, k)
             == if Passes(runner, ALL_STEPS[k]) then Stopped(runner, k + 1) else Some(StopOf(runner, ALL_STEPS[k]));
  }
}
