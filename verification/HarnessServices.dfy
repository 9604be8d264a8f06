/**
  The services as the runtime writes them: objects that share one database and update its tables in place.
  Every method is proved against the transaction it performs, and the two asynchronous entry points of the
  queue against the driver actions their synchronous sections amount to.
 */
module HarnessServices {
  import opened Common
  import opened Journal
  import opened HarnessStore
  import opened HarnessPolicy
  import opened HarnessProtocol
  import opened HarnessInvariant
  import opened HarnessSafety

  class Database {
    var runs: map<Id, RunRow>
    var steps: map<Id, StepRow>
    var calls: map<Id, CallRow>
    var approvals: map<Id, ApprovalRow>
    var evidence: seq<EvidenceRow>
    var events: seq<Event>
    var policy: Policy
    var nextId: Id

    // The drivers in flight and what they have done, for the proofs only.
    ghost var drivers: seq<Driver>
    ghost var started: seq<Id>
    ghost var allowed: set<Id>

    ghost function Tables(): Db
      reads this
    {
      Db(runs, steps, calls, approvals, evidence, events, policy, nextId)
    }

    ghost function Model(): State
      reads this
    {
      State(Tables(), drivers, started, allowed)
    }

    constructor (policy: Policy)
      ensures Model() == Initial(policy)
    {
      runs, steps, calls, approvals, evidence, events := map[], map[], map[], map[], [], [];
      this.policy, nextId := policy, 0;
      drivers, started, allowed := [], [], {};
    }

    method NewId() returns (id: Id)
      modifies this`nextId
      ensures id == old(nextId) && nextId == id + 1
    {
      id := nextId;
      nextId := nextId + 1;
    }

    method Append(e: Event)
      modifies this`events
      ensures events == old(events) + [e]
    {
      events := events + [e];
    }
  }

  /** A run that is not going on. */
  predicate EndedRun(status: RunStatus) {
    !status.Created? && !status.Running? && !status.WaitingForApproval?
  }

  predicate EndedStep(status: StepStatus) {
    !status.Created? && !status.Running?
  }

  class RunStore {
    const db: Database

    constructor (db: Database)
      ensures this.db == db
    {
      this.db := db;
    }

    method CreateRun() returns (run: Id)
      modifies db
      ensures db.Model() == Step(old(db.Model()), AddRun) && run == old(db.nextId)
      ensures db.runs == old(db.runs)[run := RunRow(RunStatus.Created, false)]
      ensures db.events == old(db.events) + [RunIs(run, None, RunStatus.Created)]
    {
      run := db.NewId();
      db.runs := db.runs[run := RunRow(RunStatus.Created, false)];
      db.Append(RunIs(run, None, RunStatus.Created));
    }

    /** Throws (false) for a missing run, and then writes nothing. */
    method UpdateRunStatus(run: Id, status: RunStatus) returns (ok: bool)
      modifies db
      ensures ok <==> run in old(db.runs)
      ensures db.Model() == Step(old(db.Model()), SetRunStatus(run, status))
      ensures !ok ==> db.Model() == old(db.Model())
      ensures ok ==>
        && db.runs == old(db.runs)[run := RunRow(status, EndedRun(status))]
        && db.events == old(db.events) + [RunIs(run, Some(old(db.runs)[run].status), status)]
    {
      if run !in db.runs { return false; }
      var previous := db.runs[run].status;
      db.runs := db.runs[run := RunRow(status, TerminalRun(status))];
      db.Append(RunIs(run, Some(previous), status));
      ok := true;
    }

    method CreateStep(run: Id, status: StepStatus) returns (step: Id)
      modifies db
      ensures db.Model() == Step(old(db.Model()), AddStep(run, status)) && step == old(db.nextId)
      ensures step in db.steps && db.steps == old(db.steps)[step := db.steps[step]]
      ensures db.steps[step] == StepRow(run, db.steps[step].index, status, status.Running?, EndedStep(status))
      ensures forall s :: s in old(db.steps) && s < step && old(db.steps)[s].run == run ==> old(db.steps)[s].index < db.steps[step].index
      ensures db.events == old(db.events) + [StepIs(step, None, status)]
    {
      var index := NextStepIndex(db.steps, run, db.nextId);
      step := db.NewId();
      db.steps := db.steps[step := StepRow(run, index, status, status.Running?, TerminalStep(status))];
      db.Append(StepIs(step, None, status));
    }

    method UpdateStepStatus(step: Id, status: StepStatus) returns (ok: bool)
      modifies db
      ensures ok <==> step in old(db.steps)
      ensures db.Model() == Step(old(db.Model()), SetStepStatus(step, status))
      ensures !ok ==> db.Model() == old(db.Model())
      ensures ok ==> var was := old(db.steps)[step];
        && db.steps == old(db.steps)[step :=
             StepRow(was.run, was.index, status, was.started || !status.Created?, EndedStep(status))]
        && db.events == old(db.events) + [StepIs(step, Some(was.status), status)]
    {
      if step !in db.steps { return false; }
      var previous := db.steps[step];
      var started := previous.started;
      if status.Running? || TerminalStep(status) { started := true; }
      db.steps := db.steps[step := StepRow(previous.run, previous.index, status, started, TerminalStep(status))];
      db.Append(StepIs(step, Some(previous.status), status));
      ok := true;
    }
  }

  class EvidenceStore {
    const db: Database

    constructor (db: Database)
      ensures this.db == db
    {
      this.db := db;
    }

    method CreateEvidence(run: Id, kind: EvidenceKind, source: Id, content: string) returns (id: Id)
      modifies db
      ensures id == old(db.nextId)
      ensures db.Model() == old(db.Model()).(db := HarnessStore.CreateEvidence(old(db.Tables()), run, kind, source, content))
      ensures db.evidence == old(db.evidence) + [EvidenceRow(id, run, kind, source, content)]
      ensures db.events == old(db.events) + [Noted(EvidenceCreated, id)]
    {
      id := db.NewId();
      db.evidence := db.evidence + [EvidenceRow(id, run, kind, source, content)];
      db.Append(Noted(EvidenceCreated, id));
    }
  }

  class ApprovalService {
    const db: Database
    const evidence: EvidenceStore

    constructor (db: Database, evidence: EvidenceStore)
      ensures this.db == db && this.evidence == evidence
    {
      this.db := db;
      this.evidence := evidence;
    }

    method CreateApproval(run: Id, call: Id) returns (id: Id)
      modifies db
      ensures id == old(db.nextId)
      ensures db.Model() == old(db.Model()).(db := HarnessStore.CreateApproval(old(db.Tables()), run, call))
      ensures db.approvals == old(db.approvals)[id := ApprovalRow(run, call, Verdict(ApprovalStatus.Pending, Once))]
      ensures db.events == old(db.events) + [ApprovalIs(id, Verdict(ApprovalStatus.Pending, Once))]
    {
      id := db.NewId();
      var verdict := Verdict(ApprovalStatus.Pending, Once);
      db.approvals := db.approvals[id := ApprovalRow(run, call, verdict)];
      db.Append(ApprovalIs(id, verdict));
    }

    /** Throws (false) when the call is missing or not waiting; a call denied before is left as it is. */
    method DenyToolCallForApproval(call: Id, status: ApprovalStatus) returns (ok: bool)
      requires evidence.db == db
      modifies db
      ensures var r := DenyForApproval(old(db.Tables()), call, status);
        && ok == r.Ok?
        && db.Model() == old(db.Model()).(db := if r.Ok? then r.value else old(db.Tables()))
      ensures ok <==> (call in old(db.calls)
        && (old(db.calls)[call].status.Denied? || old(db.calls)[call].status.ApprovalRequired?))
      ensures !ok || old(db.calls)[call].status.Denied? ==> db.Model() == old(db.Model())
      ensures ok && old(db.calls)[call].status.ApprovalRequired? ==>
        var row, id := old(db.calls)[call], old(db.nextId);
        var message := if status.Expired? then "Tool " + row.tool + " approval expired"
                       else "Tool " + row.tool + " denied by approval decision";
        && db.calls == old(db.calls)[call := row.(status := CallStatus.Denied, error := Some(message))]
        && db.evidence == old(db.evidence) + [EvidenceRow(id, row.run, DenialKind, call, message)]
        && db.events == old(db.events) + [CallIs(call, CallStatus.Denied), Noted(EvidenceCreated, id)]
    {
      if call !in db.calls { return false; }
      var row := db.calls[call];
      if row.status.Denied? { return true; }
      if !row.status.ApprovalRequired? { return false; }
      var message := DenialMessage(row.tool, status);
      db.calls := db.calls[call := row.(status := CallStatus.Denied, error := Some(message))];
      db.Append(CallIs(call, CallStatus.Denied));
      var _ := evidence.CreateEvidence(row.run, DenialKind, call, message);
      ok := true;
    }

    /** Writes a rule for the call's tool when the decision is to be remembered. */
    method RememberDecision(call: Id, scope: DecisionScope)
      modifies db`policy
      ensures db.policy == HarnessStore.RememberDecision(old(db.Tables()), call, scope)
      ensures db.policy.workspace == old(db.policy).workspace
      ensures scope.Once? || call !in db.calls || db.calls[call].tool == "" ==> db.policy == old(db.policy)
      ensures call in db.calls && db.calls[call].tool != "" ==>
        && (scope.Always? ==> db.policy.rules == old(db.policy).rules[ToolTarget(db.calls[call].tool) := Allow])
        && (scope.Never? ==> db.policy.rules == old(db.policy).rules[ToolTarget(db.calls[call].tool) := Deny])
    {
      if call in db.calls && db.calls[call].tool != "" && !scope.Once? {
        var decision := if scope.Always? then Allow else Deny;
        db.policy := SetPermissionRule(db.policy, ToolTarget(db.calls[call].tool), decision);
      }
    }

    /**
      The writes of one decision. The verdict goes in before the call is denied; when the denial throws, the
      transaction rolls back to the rows it found.
     */
    method CommitVerdict(approval: Id, v: Verdict) returns (ok: bool)
      requires evidence.db == db && approval in db.approvals
      modifies db
      ensures var r := HarnessStore.CommitVerdict(old(db.Tables()), approval, v);
        && ok == r.Ok?
        && db.Model() == old(db.Model()).(db := if r.Ok? then r.value else old(db.Tables()))
    {
      var savedApprovals, savedEvents := db.approvals, db.events;
      var call := db.approvals[approval].call;
      db.approvals := db.approvals[approval := db.approvals[approval].(verdict := v)];
      db.Append(ApprovalIs(approval, v));
      ok := true;
      if !v.status.Approved? {
        ok := DenyToolCallForApproval(call, v.status);
      }
      if ok {
        RememberDecision(call, v.scope);
      } else {
        db.approvals, db.events := savedApprovals, savedEvents;
      }
    }

    method ResolveApproval(approval: Id, v: Verdict) returns (ok: bool)
      requires evidence.db == db
      modifies db
      ensures ok <==> HarnessStore.ResolveApproval(old(db.Tables()), approval, v).Ok?
      ensures db.Model() == Step(old(db.Model()), Resolve(approval, v))
      ensures approval in old(db.approvals) && ok && old(db.approvals)[approval].verdict.status.Pending? ==>
        && db.approvals == old(db.approvals)[approval := old(db.approvals)[approval].(verdict := v)]
        && Remembers(old(db.policy), db.policy, ToolOf(old(db.Tables()), approval), v.scope)
      ensures !ok || (approval in old(db.approvals) && !old(db.approvals)[approval].verdict.status.Pending?) ==>
        db.Model() == old(db.Model())
    {
      if (v.scope.Always? && !v.status.Approved?) || (v.scope.Never? && !v.status.Denied?) { return false; }
      if approval !in db.approvals { return false; }
      var existing := db.approvals[approval].verdict;
      if !existing.status.Pending? { return existing == v; }
      if v.status.Pending? { return false; }
      ok := CommitVerdict(approval, v);
    }
  }

  /** What a decision leaves behind in the policy: a rule for the tool, or nothing. */
  predicate Remembers(before: Policy, after: Policy, tool: string, scope: DecisionScope) {
    && after.workspace == before.workspace
    && match scope
       case Once => after.rules == before.rules
       case Always => after.rules == if tool == "" then before.rules else before.rules[ToolTarget(tool) := Allow]
       case Never => after.rules == if tool == "" then before.rules else before.rules[ToolTarget(tool) := Deny]
  }

  // ----- what a finished call replays as -----------------------------------------------------

  /** A finished call replays as its row tells, with its newest evidence of the matching kind; no other call does. */
  ghost predicate Replays(row: CallRow, call: Id, evidence: seq<EvidenceRow>, r: Replay) {
    match row.status
    case Succeeded =>
      if row.result.Some? && row.result.value.Success? then
        r.Replayed? && r.outcome.CallSuccess? && r.outcome.call == call && r.outcome.result == row.result.value
        && Newest(evidence, call, ToolResultKind, r.outcome.evidence)
      else r.ReplayThrows?
    case Failed =>
      r.Replayed? && r.outcome.CallFailure? && r.outcome.call == call && r.outcome.failure == row.result
      && r.outcome.error == (if row.error.Some? then row.error.value else "Tool " + row.tool + " failed")
      && Newest(evidence, call, ToolErrorKind, r.outcome.evidence)
    case Denied =>
      if r.Replayed? then
        r.outcome.CallRefused? && r.outcome.call == call && Newest(evidence, call, DenialKind, Some(r.outcome.denial))
        && r.outcome.error == (if row.error.Some? then row.error.value else "Tool " + row.tool + " denied")
      else r.ReplayThrows? && Newest(evidence, call, DenialKind, None)
    case _ => r.NotTerminal?
  }

  // ----- the queue ---------------------------------------------------------------------------

  /** Transactions a driver has left before it waits for a tool body or ends. */
  function Left(dr: Driver): nat {
    match dr
    case Enqueued(_, _, _) => 3
    case Claiming(_, _, _) => 2
    case Approving(_, _) => 1
    case ResultEvidence(_, _, _) => 1
    case ErrorEvidence(_, _, _) => 1
    case DenialEvidence(_, _) => 1
    case _ => 0
  }

  /** A synchronous section: the driver takes its transactions without interruption until it waits or ends. */
  ghost function Drive(s: State, i: nat): State
    requires i < |s.drivers|
    decreases Left(s.drivers[i])
  {
    if Left(s.drivers[i]) > 0 && s.drivers[i].call in s.db.calls
    then Drive(AdvanceDriver(s, i, Err("")), i)
    else s
  }

  /** One transaction of a driver, then the rest of its section. */
  lemma {:induction false} DriveOne(s: State, i: nat)
    requires i < |s.drivers| && Left(s.drivers[i]) > 0 && s.drivers[i].call in s.db.calls
    ensures var s' := AdvanceDriver(s, i, Err(""));
      |s'.drivers| == |s.drivers| && Drive(s, i) == Drive(s', i)
  {
  }

  /** A driver whose last transaction is its evidence. */
  lemma {:induction false} DriveAttest(s: State, i: nat)
    requires i < |s.drivers| && Attesting(s.drivers[i]) && s.drivers[i].call in s.db.calls
    ensures Drive(s, i) == Attest(s, i)
  {
  }

  lemma {:induction false} DriveClaim(s: State, i: nat)
    requires i < |s.drivers| && s.drivers[i].Claiming? && s.drivers[i].call in s.db.calls
    ensures Drive(s, i) == Claim(s, i)
  {
  }

  /** The section after the await: store the result, attest it. */
  lemma {:induction false} DriveFinish(s: State, i: nat, body: BodyResult)
    requires i < |s.drivers| && s.drivers[i].Executing? && s.drivers[i].call in s.db.calls
    ensures var s' := Step(s, Advance(i, body));
      s' == Complete(s, i, body) && i < |s'.drivers| && Attesting(s'.drivers[i]) && s'.drivers[i].call in s'.db.calls
      && Drive(s', i) == Attest(s', i)
  {
  }

  lemma {:induction false} DriveLength(s: State, i: nat)
    requires i < |s.drivers|
    ensures |Drive(s, i).drivers| == |s.drivers|
    decreases Left(s.drivers[i])
  {
    if Left(s.drivers[i]) > 0 && s.drivers[i].call in s.db.calls {
      DriveLength(AdvanceDriver(s, i, Err("")), i);
    }
  }

  lemma {:induction false} AdvanceLeft(s: State, i: nat)
    requires i < |s.drivers| && Left(s.drivers[i]) > 0 && s.drivers[i].call in s.db.calls
    ensures var s' := AdvanceDriver(s, i, Err("")); |s'.drivers| == |s.drivers| && Left(s'.drivers[i]) < Left(s.drivers[i])
  {
  }

  lemma {:induction false} DriveKeeps(s: State, i: nat)
    requires Inv(s) && i < |s.drivers|
    ensures Inv(Drive(s, i))
    decreases Left(s.drivers[i])
  {
    if Left(s.drivers[i]) > 0 && s.drivers[i].call in s.db.calls {
      var s' := AdvanceDriver(s, i, Err(""));
      AdvanceKeeps(s, i, Err(""));
      AdvanceLeft(s, i);
      DriveKeeps(s', i);
    }
  }

  // ----- what the entry points answer --------------------------------------------------------

  /**
    The section of `enqueueAndRun` before its await, by the rules that speak about the tool: the new row, what
    became of it, what the caller holds. Only an allowed call has started.
   */
  ghost predicate Received(s: State, t: State, run: Id, step: Option<Id>, tool: Tool, args: string, invalid: Option<string>) {
    var c, i := s.db.nextId, |s.drivers|;
    var row := CallRow(run, step, tool.name, tool.capability, CallStatus.Pending, args, None, None);
    i < |t.drivers| && c in t.db.calls &&
    var now, reply := t.db.calls[c], t.drivers[i];
    if invalid.Some? then
      && now == row.(status := CallStatus.Failed, error := invalid) && t.started == s.started
      && reply.Returned? && reply.outcome.CallFailure? && reply.outcome.error == invalid.value
    else
      && (Ruled(s.db.policy, tool.name, tool.capability, Allow) ==>
            now == row.(status := CallStatus.Running) && t.started == s.started + [c] && reply == Executing(c, tool))
      && (Ruled(s.db.policy, tool.name, tool.capability, Deny) ==>
            && now == row.(status := CallStatus.Denied, error := Some("Tool " + tool.name + " denied by permission policy"))
            && t.started == s.started && reply.Returned? && reply.outcome.CallRefused?)
      && (Asks(s.db.policy, tool.name, tool.capability) ==>
            && now == row.(status := CallStatus.ApprovalRequired) && t.started == s.started
            && reply.Returned? && reply.outcome.CallWaiting? && reply.outcome.call == c
            && reply.outcome.approval in t.db.approvals
            && t.db.approvals[reply.outcome.approval] == ApprovalRow(run, c, Verdict(ApprovalStatus.Pending, Once)))
  }

  lemma {:induction false} InvalidReceived(s: State, run: Id, step: Option<Id>, tool: Tool, args: string, invalid: string)
    ensures var s1 := Step(s, Enqueue(run, step, tool, args, Some(invalid)));
      |s1.drivers| == |s.drivers| + 1 && Received(s, Drive(s1, |s.drivers|), run, step, tool, args, Some(invalid))
  {
    var s1, i := Step(s, Enqueue(run, step, tool, args, Some(invalid))), |s.drivers|;
    DriveOne(s1, i);
    DriveAttest(Decide(s1, i), i);
  }

  lemma {:induction false} AllowedReceived(s: State, run: Id, step: Option<Id>, tool: Tool, args: string)
    requires Ruled(s.db.policy, tool.name, tool.capability, Allow)
    ensures var s1 := Step(s, Enqueue(run, step, tool, args, None));
      |s1.drivers| == |s.drivers| + 1 && Received(s, Drive(s1, |s.drivers|), run, step, tool, args, None)
  {
    var s1, i := Step(s, Enqueue(run, step, tool, args, None)), |s.drivers|;
    DecidesExactly(s.db.policy, tool.name, tool.capability);
    DriveOne(s1, i);
    DriveClaim(Decide(s1, i), i);
  }

  lemma {:induction false} DeniedReceived(s: State, run: Id, step: Option<Id>, tool: Tool, args: string)
    requires Ruled(s.db.policy, tool.name, tool.capability, Deny)
    ensures var s1 := Step(s, Enqueue(run, step, tool, args, None));
      |s1.drivers| == |s.drivers| + 1 && Received(s, Drive(s1, |s.drivers|), run, step, tool, args, None)
  {
    var s1, i := Step(s, Enqueue(run, step, tool, args, None)), |s.drivers|;
    DecidesExactly(s.db.policy, tool.name, tool.capability);
    DriveOne(s1, i);
    DriveAttest(Decide(s1, i), i);
  }

  lemma {:induction false} AskedReceived(s: State, run: Id, step: Option<Id>, tool: Tool, args: string)
    requires Asks(s.db.policy, tool.name, tool.capability)
    ensures var s1 := Step(s, Enqueue(run, step, tool, args, None));
      |s1.drivers| == |s.drivers| + 1 && Received(s, Drive(s1, |s.drivers|), run, step, tool, args, None)
  {
    var s1, i := Step(s, Enqueue(run, step, tool, args, None)), |s.drivers|;
    DecidesExactly(s.db.policy, tool.name, tool.capability);
    DriveOne(s1, i);
    DriveOne(Decide(s1, i), i);
  }

  lemma {:induction false} EnqueueReceives(s: State, run: Id, step: Option<Id>, tool: Tool, args: string, invalid: Option<string>)
    ensures var s1 := Step(s, Enqueue(run, step, tool, args, invalid));
      |s1.drivers| == |s.drivers| + 1 && Received(s, Drive(s1, |s.drivers|), run, step, tool, args, invalid)
  {
    DecidesExactly(s.db.policy, tool.name, tool.capability);
    if invalid.Some? {
      InvalidReceived(s, run, step, tool, args, invalid.value);
    } else {
      match DecidePermission(s.db.policy, tool.name, tool.capability) {
        case Allow => AllowedReceived(s, run, step, tool, args);
        case Deny => DeniedReceived(s, run, step, tool, args);
        case Ask => AskedReceived(s, run, step, tool, args);
      }
    }
  }

  /**
    The section of `runApproved` before its await. It starts the body of exactly the waiting call with an approved
    approval, valid arguments and this tool; a finished call is replayed; everything else is thrown back.
   */
  ghost predicate Answered(s: State, t: State, call: Id, tool: Tool, argsValid: bool, reply: Driver) {
    if call in s.db.calls && s.db.calls[call].tool == tool.name && s.db.calls[call].capability == tool.capability then
      var row := s.db.calls[call];
      if row.status.Succeeded? || row.status.Failed? || row.status.Denied? then
        && t.db == s.db && t.started == s.started && (reply.Repeated? || reply.Threw?)
        && Replays(row, call, s.db.evidence, if reply.Repeated? then Replayed(reply.outcome) else ReplayThrows)
      else if row.status.ApprovalRequired? && HasApproved(s.db, call) && argsValid then
        && reply == Executing(call, tool) && t.started == s.started + [call]
        && t.db.calls == s.db.calls[call := row.(status := CallStatus.Running, error := None)]
      else t.db == s.db && t.started == s.started && reply == Threw
    else t.db == s.db && t.started == s.started && reply == Threw
  }

  lemma {:induction false} ReplayIsNewest(d: Db, call: Id)
    requires call in d.calls
    ensures Replays(d.calls[call], call, d.evidence, ReplayTerminal(d, call))
  {
    LatestIsNewest(d.evidence, call, ToolResultKind);
    LatestIsNewest(d.evidence, call, ToolErrorKind);
    LatestIsNewest(d.evidence, call, DenialKind);
  }

  lemma {:induction false} StartedAnswers(s: State, call: Id, tool: Tool, argsValid: bool)
    ensures var s1, i := Step(s, Action.RunApproved(call, tool, argsValid)), |s.drivers|;
      |s1.drivers| == i + 1 && var t := Drive(s1, i);
      |t.drivers| == i + 1 && Answered(s, t, call, tool, argsValid, t.drivers[i])
  {
    var s1, i := Step(s, Action.RunApproved(call, tool, argsValid)), |s.drivers|;
    if call in s.db.calls { ReplayIsNewest(s.db, call); }
    assert FindsApproved(s.db.approvals, call) <==> HasApproved(s.db, call);
    if s1.drivers[i].Claiming? { DriveClaim(s1, i); }
  }

  /** The row and the outcome that a tool body's result makes. */
  predicate Finished(was: CallRow, now: CallRow, call: Id, tool: Tool, body: BodyResult, outcome: Outcome) {
    match body
    case Ok(Success(output)) =>
      && now == was.(status := CallStatus.Succeeded, result := Some(Success(output)), error := None)
      && outcome.CallSuccess? && outcome.call == call && outcome.result == Success(output)
      && (outcome.evidence.None? <==> tool.evidence.NoEvidence?)
    case Ok(Failure(message)) =>
      && now == was.(status := CallStatus.Failed, result := Some(Failure(message)), error := Some(message))
      && outcome.CallFailure? && outcome.call == call && outcome.error == message
      && outcome.failure == Some(Failure(message)) && outcome.evidence.Some?
    case Err(message) =>
      && now == was.(status := CallStatus.Failed, result := None, error := Some(message))
      && outcome.CallFailure? && outcome.call == call && outcome.error == message
      && outcome.failure == None && outcome.evidence.Some?
  }

  class ToolQueue {
    const db: Database
    const evidence: EvidenceStore
    const approvals: ApprovalService

    ghost predicate Wired() {
      evidence.db == db && approvals.db == db && approvals.evidence == evidence
    }

    constructor (db: Database, evidence: EvidenceStore, approvals: ApprovalService)
      requires evidence.db == db && approvals.db == db && approvals.evidence == evidence
      ensures this.db == db && Wired()
    {
      this.db := db;
      this.evidence := evidence;
      this.approvals := approvals;
    }

    method CreateToolCall(run: Id, step: Option<Id>, tool: Tool, args: string) returns (call: Id)
      modifies db
      ensures call == old(db.nextId)
      ensures db.Model() == old(db.Model()).(db := HarnessStore.CreateToolCall(old(db.Tables()), run, step, tool, args))
      ensures db.calls == old(db.calls)[call :=
        CallRow(run, step, tool.name, tool.capability, CallStatus.Pending, args, None, None)]
    {
      call := db.NewId();
      db.calls := db.calls[call := CallRow(run, step, tool.name, tool.capability, CallStatus.Pending, args, None, None)];
      db.Append(CallIs(call, CallStatus.Pending));
      db.Append(Noted(CallQueued, call));
    }

    method FailToolCall(call: Id, message: string, result: Option<ToolResult>) returns (evidenceId: Id)
      requires Wired() && call in db.calls
      modifies db
      ensures var failed := HarnessStore.FailToolCall(old(db.Tables()), call, message, result);
        && evidenceId == failed.nextId
        && db.Model() == old(db.Model()).(db :=
             HarnessStore.CreateEvidence(failed, failed.calls[call].run, ToolErrorKind, call, message))
      ensures db.calls == old(db.calls)[call :=
        old(db.calls)[call].(status := CallStatus.Failed, result := result, error := Some(message))]
      ensures db.evidence == old(db.evidence)
        + [EvidenceRow(evidenceId, old(db.calls)[call].run, ToolErrorKind, call, message)]
    {
      var row := db.calls[call];
      db.calls := db.calls[call := row.(status := CallStatus.Failed, result := result, error := Some(message))];
      db.Append(CallIs(call, CallStatus.Failed));
      evidenceId := evidence.CreateEvidence(row.run, ToolErrorKind, call, message);
    }

    method DenyToolCall(call: Id, message: string) returns (evidenceId: Id)
      requires Wired() && call in db.calls
      modifies db
      ensures var denied := HarnessStore.DenyToolCall(old(db.Tables()), call, message);
        && evidenceId == denied.nextId
        && db.Model() == old(db.Model()).(db :=
             HarnessStore.CreateEvidence(denied, denied.calls[call].run, DenialKind, call, message))
      ensures db.calls == old(db.calls)[call := old(db.calls)[call].(status := CallStatus.Denied, error := Some(message))]
      ensures db.evidence == old(db.evidence)
        + [EvidenceRow(evidenceId, old(db.calls)[call].run, DenialKind, call, message)]
    {
      var row := db.calls[call];
      db.calls := db.calls[call := row.(status := CallStatus.Denied, error := Some(message))];
      db.Append(CallIs(call, CallStatus.Denied));
      evidenceId := evidence.CreateEvidence(row.run, DenialKind, call, message);
    }

    method MarkApprovalRequired(call: Id)
      requires call in db.calls
      modifies db
      ensures db.Model() == old(db.Model()).(db := HarnessStore.MarkApprovalRequired(old(db.Tables()), call))
      ensures db.calls == old(db.calls)[call := old(db.calls)[call].(status := CallStatus.ApprovalRequired, error := None)]
    {
      db.calls := db.calls[call := db.calls[call].(status := CallStatus.ApprovalRequired, error := None)];
      db.Append(CallIs(call, CallStatus.ApprovalRequired));
    }

    method MarkRunning(call: Id, expected: CallStatus) returns (claimed: bool)
      modifies db
      ensures var r := HarnessStore.MarkRunning(old(db.Tables()), call, expected);
        && claimed == r.Some?
        && db.Model() == old(db.Model()).(db := if r.Some? then r.value else old(db.Tables()))
      ensures claimed <==> call in old(db.calls) && old(db.calls)[call].status == expected
      ensures claimed ==>
        && db.calls == old(db.calls)[call := old(db.calls)[call].(status := CallStatus.Running, error := None)]
        && db.events == old(db.events) + [CallIs(call, CallStatus.Running)]
    {
      if call !in db.calls || db.calls[call].status != expected { return false; }
      db.calls := db.calls[call := db.calls[call].(status := CallStatus.Running, error := None)];
      db.Append(CallIs(call, CallStatus.Running));
      claimed := true;
    }

    method FindLatestEvidenceId(call: Id, kind: EvidenceKind) returns (id: Option<Id>)
      ensures id == LatestEvidence(db.evidence, call, kind)
      ensures Newest(db.evidence, call, kind, id)
    {
      LatestIsNewest(db.evidence, call, kind);
      var k := |db.evidence|;
      assert db.evidence[..k] == db.evidence;
      while k > 0
        invariant 0 <= k <= |db.evidence|
        invariant LatestEvidence(db.evidence, call, kind) == LatestEvidence(db.evidence[..k], call, kind)
      {
        k := k - 1;
        assert db.evidence[..k + 1][..k] == db.evidence[..k];
        if db.evidence[k].source == call && db.evidence[k].kind == kind { return Some(db.evidence[k].id); }
      }
      id := None;
    }

    method ReplayTerminalToolCall(call: Id) returns (r: Replay)
      requires call in db.calls
      ensures r == ReplayTerminal(db.Tables(), call)
      ensures Replays(db.calls[call], call, db.evidence, r)
    {
      var row := db.calls[call];
      if row.status.Succeeded? {
        if row.result.None? || !row.result.value.Success? { return ReplayThrows; }
        var id := FindLatestEvidenceId(call, ToolResultKind);
        return Replayed(CallSuccess(call, row.result.value, id));
      }
      if row.status.Failed? {
        var id := FindLatestEvidenceId(call, ToolErrorKind);
        var error := if row.error.Some? then row.error.value else "Tool " + row.tool + " failed";
        return Replayed(CallFailure(call, error, row.result, id));
      }
      if row.status.Denied? {
        var id := FindLatestEvidenceId(call, DenialKind);
        if id.None? { return ReplayThrows; }
        var error := if row.error.Some? then row.error.value else "Tool " + row.tool + " denied";
        return Replayed(CallRefused(call, error, id.value));
      }
      r := NotTerminal;
    }

    /** The claim of `executeToolCall`: on success the body is started and awaited. */
    method ExecuteToolCall(call: Id, tool: Tool, expected: CallStatus, ghost i: nat) returns (reply: Driver)
      requires Wired() && call in db.calls
      requires i < |db.drivers| && db.drivers[i] == Claiming(call, tool, expected)
      modifies db
      ensures db.Model() == Claim(old(db.Model()), i) && reply == db.drivers[i]
    {
      var claimed := MarkRunning(call, expected);
      if claimed {
        db.started := db.started + [call];
        reply := Executing(call, tool);
      } else if !Matches(db.calls[call], tool) {
        reply := Threw;
      } else {
        var replay := ReplayTerminalToolCall(call);
        reply := Reply(replay);
      }
      db.drivers := db.drivers[i := reply];
    }

    /** Invalid arguments fail the call, "deny" refuses it, "ask" parks it; all end the driver. */
    method Settle(run: Id, call: Id, tool: Tool, invalid: Option<string>, ghost i: nat) returns (reply: Driver)
      requires Wired() && call in db.calls && db.calls[call].run == run
      requires i < |db.drivers| && db.drivers[i] == Enqueued(call, tool, invalid)
      requires invalid.Some? || !DecidePermission(db.policy, tool.name, tool.capability).Allow?
      modifies db
      ensures db.Model() == Drive(old(db.Model()), i) && i < |db.drivers| && reply == db.drivers[i]
    {
      ghost var s0 := db.Model();
      DriveOne(s0, i);
      if invalid.Some? {
        var id := FailToolCall(call, invalid.value, None);
        reply := Returned(CallFailure(call, invalid.value, None, Some(id)));
        DriveAttest(Decide(s0, i), i);
      } else if DecidePermission(db.policy, tool.name, tool.capability).Ask? {
        var approval := approvals.CreateApproval(run, call);
        MarkApprovalRequired(call);
        reply := Returned(CallWaiting(call, approval));
        DriveOne(Decide(s0, i), i);
      } else {
        var message := "Tool " + tool.name + " denied by permission policy";
        var id := DenyToolCall(call, message);
        reply := Returned(CallRefused(call, message, id));
        DriveAttest(Decide(s0, i), i);
      }
      db.drivers := db.drivers[i := reply];
    }

    /** "Allow" claims the call at once and starts its body. */
    method Admit(call: Id, tool: Tool, ghost i: nat) returns (reply: Driver)
      requires Wired() && call in db.calls
      requires i < |db.drivers| && db.drivers[i] == Enqueued(call, tool, None)
      requires DecidePermission(db.policy, tool.name, tool.capability).Allow?
      modifies db
      ensures db.Model() == Drive(old(db.Model()), i) && i < |db.drivers| && reply == db.drivers[i]
    {
      DriveOne(db.Model(), i);
      db.allowed := db.allowed + {call};
      db.drivers := db.drivers[i := Claiming(call, tool, CallStatus.Pending)];
      DriveClaim(db.Model(), i);
      reply := ExecuteToolCall(call, tool, CallStatus.Pending, i);
    }

    /**
      `enqueueAndRun` up to its await: the reply is an outcome, or the driver is left executing. The section is
      the enqueue action followed by its driver's own transactions.
     */
    method EnqueueAndRun(run: Id, step: Option<Id>, tool: Tool, args: string, invalid: Option<string>)
      returns (reply: Driver)
      requires Wired() && Inv(db.Model())
      modifies db
      ensures db.Model() == Drive(Step(old(db.Model()), Enqueue(run, step, tool, args, invalid)), old(|db.drivers|))
      ensures Inv(db.Model()) && old(|db.drivers|) < |db.drivers| && reply == db.drivers[old(|db.drivers|)]
      ensures Received(old(db.Model()), db.Model(), run, step, tool, args, invalid)
    {
      ghost var i := |db.drivers|;
      EnqueueReceives(db.Model(), run, step, tool, args, invalid);
      var call := CreateToolCall(run, step, tool, args);
      db.drivers := db.drivers + [Enqueued(call, tool, invalid)];
      ghost var s1 := db.Model();
      EnqueueKeeps(old(db.Model()), run, step, tool, args, invalid);
      DriveKeeps(s1, i);
      DriveLength(s1, i);
      if invalid.Some? || !DecidePermission(db.policy, tool.name, tool.capability).Allow? {
        reply := Settle(run, call, tool, invalid, i);
      } else {
        reply := Admit(call, tool, i);
      }
    }

    /** The checks of `runApproved`, then its claim; the driver is the one these checks amount to. */
    method CheckAndClaim(call: Id, tool: Tool, argsValid: bool, ghost i: nat) returns (reply: Driver)
      requires Wired() && i < |db.drivers| && db.drivers[i] == StartApproved(db.Tables(), call, tool, argsValid)
      modifies db
      ensures db.Model() == Drive(old(db.Model()), i) && i < |db.drivers| && reply == db.drivers[i]
    {
      if call !in db.calls || !Matches(db.calls[call], tool) { return Threw; }
      var replay := ReplayTerminalToolCall(call);
      if !replay.NotTerminal? { return Reply(replay); }
      if !db.calls[call].status.ApprovalRequired? { return Threw; }
      var approved := FindsApproved(db.approvals, call);
      if !approved || !argsValid { return Threw; }
      DriveClaim(db.Model(), i);
      reply := ExecuteToolCall(call, tool, CallStatus.ApprovalRequired, i);
    }

    /** `runApproved` up to its await. */
    method RunApproved(call: Id, tool: Tool, argsValid: bool) returns (reply: Driver)
      requires Wired() && Inv(db.Model())
      modifies db
      ensures db.Model() == Drive(Step(old(db.Model()), Action.RunApproved(call, tool, argsValid)), old(|db.drivers|))
      ensures Inv(db.Model()) && old(|db.drivers|) < |db.drivers| && reply == db.drivers[old(|db.drivers|)]
      ensures Answered(old(db.Model()), db.Model(), call, tool, argsValid, reply)
    {
      ghost var i := |db.drivers|;
      StartedAnswers(db.Model(), call, tool, argsValid);
      RunApprovedKeeps(db.Model(), call, tool, argsValid);
      DriveKeeps(Step(db.Model(), Action.RunApproved(call, tool, argsValid)), i);
      db.drivers := db.drivers + [StartApproved(db.Tables(), call, tool, argsValid)];
      reply := CheckAndClaim(call, tool, argsValid, i);
    }

    /** Stores what the body yielded, with its evidence. */
    method Store(call: Id, tool: Tool, body: BodyResult, ghost i: nat) returns (outcome: Outcome)
      requires Wired() && call in db.calls && i < |db.drivers| && db.drivers[i] == Executing(call, tool)
      modifies db
      ensures db.Model() == Attest(Complete(old(db.Model()), i, body), i)
      ensures i < |db.drivers| && db.drivers[i] == Returned(outcome)
      ensures call in db.calls && db.calls == old(db.calls)[call := db.calls[call]]
      ensures Finished(old(db.calls)[call], db.calls[call], call, tool, body, outcome)
    {
      match body {
        case Ok(Success(output)) =>
          var id := SucceedToolCall(call, tool, Success(output));
          outcome := CallSuccess(call, Success(output), id);
        case Ok(Failure(message)) =>
          var id := FailToolCall(call, message, Some(Failure(message)));
          outcome := CallFailure(call, message, Some(Failure(message)), Some(id));
        case Err(message) =>
          var id := FailToolCall(call, message, None);
          outcome := CallFailure(call, message, None, Some(id));
      }
      db.drivers := db.drivers[i := Returned(outcome)];
    }

    /** The section after the await. */
    method Finish(call: Id, tool: Tool, body: BodyResult, ghost i: nat) returns (outcome: Outcome)
      requires Wired() && Inv(db.Model()) && i < |db.drivers| && db.drivers[i] == Executing(call, tool)
      modifies db
      ensures i < old(|db.drivers|) && db.Model() == Drive(Step(old(db.Model()), Advance(i, body)), i)
      ensures Inv(db.Model()) && i < |db.drivers| && db.drivers[i] == Returned(outcome)
      ensures call in old(db.calls) && call in db.calls && db.calls == old(db.calls)[call := db.calls[call]]
      ensures Finished(old(db.calls)[call], db.calls[call], call, tool, body, outcome)
    {
      ghost var s0 := db.Model();
      assert DriverOk(s0, s0.drivers[i]);
      DriveFinish(s0, i, body);
      CompleteKeeps(s0, i, body);
      AttestKeeps(Complete(s0, i, body), i);
      outcome := Store(call, tool, body, i);
    }

    method SucceedToolCall(call: Id, tool: Tool, result: ToolResult) returns (id: Option<Id>)
      requires Wired() && call in db.calls
      modifies db
      ensures var done := HarnessStore.SucceedToolCall(old(db.Tables()), call, result);
        && id == (if tool.evidence.NoEvidence? then None else Some(done.nextId))
        && db.Model() == old(db.Model()).(db :=
             if tool.evidence.NoEvidence? then done
             else HarnessStore.CreateEvidence(done, done.calls[call].run, ToolResultKind, call, "result"))
      ensures db.calls == old(db.calls)[call :=
        old(db.calls)[call].(status := CallStatus.Succeeded, result := Some(result), error := None)]
    {
      var row := db.calls[call];
      db.calls := db.calls[call := row.(status := CallStatus.Succeeded, result := Some(result), error := None)];
      db.Append(CallIs(call, CallStatus.Succeeded));
      id := None;
      if !tool.evidence.NoEvidence? {
        var created := evidence.CreateEvidence(row.run, ToolResultKind, call, "result");
        id := Some(created);
      }
    }

    /** `select ... where status = 'running' order by created_at, id`. */
    method SelectRunning() returns (running: seq<Id>)
      requires IdsOk(db.Tables())
      ensures forall c :: c in running <==> c in db.calls && db.calls[c].status.Running?
      ensures forall i, j :: 0 <= i < j < |running| ==> running[i] < running[j]
    {
      running := [];
      for c := 0 to db.nextId
        invariant forall x :: x in running <==> x < c && x in db.calls && db.calls[x].status.Running?
        invariant forall i :: 0 <= i < |running| ==> running[i] < c
        invariant forall i, j :: 0 <= i < j < |running| ==> running[i] < running[j]
      {
        if c in db.calls && db.calls[c].status.Running? { running := running + [c]; }
      }
    }

    /** The compare-and-set of one call; a call no longer running is skipped. */
    method Interrupt(call: Id) returns (changed: bool)
      modifies db
      ensures changed <==> call in old(db.calls) && old(db.calls)[call].status.Running?
      ensures db.Model() == old(db.Model()).(db := InterruptCall(old(db.Tables()), call))
    {
      if call !in db.calls || !db.calls[call].status.Running? { return false; }
      db.calls := db.calls[call := InterruptedRow(db.calls[call])];
      db.Append(CallIs(call, CallStatus.Interrupted));
      db.Append(Noted(RecoveryInterrupted, call));
      changed := true;
    }

    method InterruptAll(running: seq<Id>) returns (recovered: seq<Id>)
      requires forall i :: 0 <= i < |running| ==> running[i] in db.calls && db.calls[running[i]].status.Running?
      requires forall i, j :: 0 <= i < j < |running| ==> running[i] < running[j]
      modifies db
      ensures recovered == running
      ensures db.Model() == old(db.Model()).(db := HarnessStore.RecoverInterrupted(old(db.Tables()), running))
    {
      ghost var before := db.Tables();
      recovered := [];
      for k := 0 to |running|
        invariant recovered == running[..k]
        invariant db.Model() == old(db.Model()).(db := HarnessStore.RecoverInterrupted(before, running[..k]))
      {
        assert running[..k + 1][..k] == running[..k];
        RecoveredRows(before, running[..k]);
        var changed := Interrupt(running[k]);
        if changed { recovered := recovered + [running[k]]; }
      }
      assert running[..|running|] == running;
    }

    /**
      Recovery after a restart: every call still marked running becomes interrupted, nothing else changes,
      and the ids of the interrupted calls are returned in creation order.
     */
    method RecoverInterrupted() returns (recovered: seq<Id>)
      requires IdsOk(db.Tables())
      modifies db
      ensures forall c :: c in recovered <==> c in old(db.calls) && old(db.calls)[c].status.Running?
      ensures forall i, j :: 0 <= i < j < |recovered| ==> recovered[i] < recovered[j]
      ensures db.Model() == Step(old(db.Model()), Recover(recovered))
      ensures db.calls.Keys == old(db.calls).Keys
      ensures forall c :: c in db.calls ==>
        (db.calls[c] == if c in recovered
           then old(db.calls)[c].(status := CallStatus.Interrupted, error := Some("Tool call interrupted during recovery"))
           else old(db.calls)[c])
    {
      var running := SelectRunning();
      recovered := InterruptAll(running);
      RecoveredRows(old(db.Tables()), running);
    }
  }

  lemma {:induction false} RecoveredRows(d: Db, seen: seq<Id>)
    ensures var d' := HarnessStore.RecoverInterrupted(d, seen);
      && d'.calls.Keys == d.calls.Keys
      && forall c :: c in d.calls ==>
        (d'.calls[c] == if c in seen && d.calls[c].status.Running? then InterruptedRow(d.calls[c]) else d.calls[c])
  {
    if seen != [] {
      RecoveredRows(d, seen[..|seen| - 1]);
    }
  }
}
