/**
  The asynchronous drivers around the tables, interleaved at transaction granularity.

  A driver is one call of `enqueueAndRun` or `runApproved`, stopped between two transactions. Any driver
  may take its next transaction at any time, may die between two transactions, and approvals, recovery,
  policy edits and run bookkeeping happen in between. A run of the system is a sequence of actions.
 */
module HarnessProtocol {
  import opened Common
  import opened Journal
  import opened HarnessStore

  datatype Driver =
    | Enqueued(call: Id, tool: Tool, invalid: Option<string>)
    | Approving(call: Id, approval: Id)
    | Claiming(call: Id, tool: Tool, expected: CallStatus)
    | Executing(call: Id, tool: Tool)
    | ResultEvidence(call: Id, tool: Tool, result: ToolResult)
    | ErrorEvidence(call: Id, message: string, failure: Option<ToolResult>)
    | DenialEvidence(call: Id, message: string)
    | Returned(outcome: Outcome)     // of its own work
    | Repeated(outcome: Outcome)     // of the call's earlier completion
    | Threw
    | Dead(was: Driver)

  datatype State = State(
    db: Db,
    drivers: seq<Driver>,
    started: seq<Id>,   // every start of a tool body, in order
    allowed: set<Id>)   // calls the policy allowed outright at enqueue

  /** What a tool body yields: a normalised result, or the message of what it threw (a timeout included). */
  type BodyResult = Result<ToolResult, string>

  datatype Action =
    | AddRun
    | SetRunStatus(run: Id, runStatus: RunStatus)
    | AddStep(run: Id, stepStatus: StepStatus)
    | SetStepStatus(step: Id, stepStatus: StepStatus)
    | AddMessage
    | AddSnapshot
    | AddModelError(run: Id, source: Id, content: string)
    | SetPolicy(policy: Policy)
    | Enqueue(run: Id, forStep: Option<Id>, tool: Tool, args: string, invalid: Option<string>)
    | RunApproved(call: Id, tool: Tool, argsValid: bool)
    | Advance(driver: nat, body: BodyResult)
    | Crash(driver: nat)
    | Resolve(approval: Id, verdict: Verdict)
    | Recover(seen: seq<Id>)

  function Initial(policy: Policy): State {
    State(EmptyDb(policy), [], [], {})
  }

  ghost predicate HasApproved(d: Db, call: Id) {
    exists a :: a in d.approvals && d.approvals[a].call == call && d.approvals[a].verdict.status.Approved?
  }

  /** `select ... where tool_call_id = ? and status = 'approved' limit 1` finds a row. */
  predicate FindsApproved(approvals: map<Id, ApprovalRow>, call: Id) {
    exists a | a in approvals :: approvals[a].call == call && approvals[a].verdict.status.Approved?
  }

  predicate Matches(row: CallRow, tool: Tool) {
    row.tool == tool.name && row.capability == tool.capability
  }

  function Reply(r: Replay): Driver {
    if r.Replayed? then Repeated(r.outcome) else Threw
  }

  /** The synchronous reads of `runApproved`, up to its claim. */
  function StartApproved(d: Db, call: Id, tool: Tool, argsValid: bool): Driver {
    if call !in d.calls || !Matches(d.calls[call], tool) then Threw
    else if !ReplayTerminal(d, call).NotTerminal? then Reply(ReplayTerminal(d, call))
    else if !d.calls[call].status.ApprovalRequired? || !FindsApproved(d.approvals, call) || !argsValid then Threw
    else Claiming(call, tool, CallStatus.ApprovalRequired)
  }

  function Put(s: State, driver: nat, db: Db, next: Driver): State
    requires driver < |s.drivers|
  {
    s.(db := db, drivers := s.drivers[driver := next])
  }

  /** The first transaction after a call row was created: validation, then the policy decides. */
  function Decide(s: State, i: nat): State
    requires i < |s.drivers| && s.drivers[i].Enqueued? && s.drivers[i].call in s.db.calls
  {
    var Enqueued(call, tool, invalid) := s.drivers[i];
    if invalid.Some? then
      Put(s, i, FailToolCall(s.db, call, invalid.value, None), ErrorEvidence(call, invalid.value, None))
    else
      match DecidePermission(s.db.policy, tool.name, tool.capability)
      case Ask => Put(s, i, CreateApproval(s.db, s.db.calls[call].run, call), Approving(call, s.db.nextId))
      case Deny =>
        var message := "Tool " + tool.name + " denied by permission policy";
        Put(s, i, DenyToolCall(s.db, call, message), DenialEvidence(call, message))
      case Allow =>
        Put(s, i, s.db, Claiming(call, tool, CallStatus.Pending)).(allowed := s.allowed + {call})
  }

  /** `executeToolCall` claims the row; the winner starts the body, a loser replays or throws. */
  function Claim(s: State, i: nat): State
    requires i < |s.drivers| && s.drivers[i].Claiming? && s.drivers[i].call in s.db.calls
  {
    var Claiming(call, tool, expected) := s.drivers[i];
    var claimed := MarkRunning(s.db, call, expected);
    if claimed.Some? then
      Put(s, i, claimed.value, Executing(call, tool)).(started := s.started + [call])
    else if !Matches(s.db.calls[call], tool) then Put(s, i, s.db, Threw)
    else Put(s, i, s.db, Reply(ReplayTerminal(s.db, call)))
  }

  function Complete(s: State, i: nat, body: BodyResult): State
    requires i < |s.drivers| && s.drivers[i].Executing? && s.drivers[i].call in s.db.calls
  {
    var Executing(call, tool) := s.drivers[i];
    match body
    case Ok(Success(output)) =>
      Put(s, i, SucceedToolCall(s.db, call, Success(output)), ResultEvidence(call, tool, Success(output)))
    case Ok(Failure(message)) =>
      Put(s, i, FailToolCall(s.db, call, message, Some(Failure(message))),
          ErrorEvidence(call, message, Some(Failure(message))))
    case Err(message) =>
      Put(s, i, FailToolCall(s.db, call, message, None), ErrorEvidence(call, message, None))
  }

  /** The evidence transaction that ends a driver. */
  function Attest(s: State, i: nat): State
    requires i < |s.drivers| && Attesting(s.drivers[i]) && s.drivers[i].call in s.db.calls
  {
    var run := s.db.calls[s.drivers[i].call].run;
    var id := s.db.nextId;
    match s.drivers[i]
    case ResultEvidence(call, tool, result) =>
      if tool.evidence.NoEvidence? then Put(s, i, s.db, Returned(CallSuccess(call, result, None)))
      else
        Put(s, i, CreateEvidence(s.db, run, ToolResultKind, call, "result"), Returned(CallSuccess(call, result, Some(id))))
    case ErrorEvidence(call, message, failure) =>
      Put(s, i, CreateEvidence(s.db, run, ToolErrorKind, call, message),
          Returned(CallFailure(call, message, failure, Some(id))))
    case DenialEvidence(call, message) =>
      Put(s, i, CreateEvidence(s.db, run, DenialKind, call, message), Returned(CallRefused(call, message, id)))
  }

  predicate Attesting(dr: Driver) {
    dr.ResultEvidence? || dr.ErrorEvidence? || dr.DenialEvidence?
  }

  /** A driver that holds a call id and has a transaction still to take. */
  predicate Active(dr: Driver) {
    dr.Enqueued? || dr.Approving? || dr.Claiming? || dr.Executing? || Attesting(dr)
  }

  function AdvanceDriver(s: State, i: nat, body: BodyResult): State
    requires i < |s.drivers| && Active(s.drivers[i]) && s.drivers[i].call in s.db.calls
  {
    match s.drivers[i]
    case Enqueued(_, _, _) => Decide(s, i)
    case Approving(call, approval) =>
      Put(s, i, MarkApprovalRequired(s.db, call), Returned(CallWaiting(call, approval)))
    case Claiming(_, _, _) => Claim(s, i)
    case Executing(_, _) => Complete(s, i, body)
    case _ => Attest(s, i)
  }

  function Commit(s: State, r: Result<Db, string>): State {
    if r.Ok? then s.(db := r.value) else s
  }

  /** The records other parts of the runtime write; none of them touches a tool call or an approval. */
  predicate Bookkeeping(a: Action) {
    a.AddRun? || a.SetRunStatus? || a.AddStep? || a.SetStepStatus? || a.AddMessage? || a.AddSnapshot?
    || a.AddModelError? || a.SetPolicy?
  }

  function Bookkeep(d: Db, a: Action): Db
    requires Bookkeeping(a)
  {
    match a
    case AddRun => CreateRun(d)
    case SetRunStatus(run, st) => var r := UpdateRunStatus(d, run, st); if r.Ok? then r.value else d
    case AddStep(run, st) => CreateStep(d, run, st)
    case SetStepStatus(step, st) => var r := UpdateStepStatus(d, step, st); if r.Ok? then r.value else d
    case AddMessage => AppendMessage(d)
    case AddSnapshot => WriteSnapshot(d)
    case AddModelError(run, source, content) => CreateEvidence(d, run, ModelErrorKind, source, content)
    case SetPolicy(policy) => d.(policy := policy)
  }

  /** One atomic step of the system; an action that is not possible changes nothing. */
  function Step(s: State, a: Action): State {
    match a
    case Enqueue(run, step, tool, args, invalid) =>
      s.(db := CreateToolCall(s.db, run, step, tool, args), drivers := s.drivers + [Enqueued(s.db.nextId, tool, invalid)])
    case RunApproved(call, tool, argsValid) =>
      s.(drivers := s.drivers + [StartApproved(s.db, call, tool, argsValid)])
    case Advance(i, body) =>
      if i < |s.drivers| && Active(s.drivers[i]) && s.drivers[i].call in s.db.calls
      then AdvanceDriver(s, i, body) else s
    case Crash(i) =>
      if i < |s.drivers| && Active(s.drivers[i]) then s.(drivers := s.drivers[i := Dead(s.drivers[i])]) else s
    case Resolve(approval, verdict) => Commit(s, ResolveApproval(s.db, approval, verdict))
    case Recover(seen) => s.(db := RecoverInterrupted(s.db, seen))
    case _ => s.(db := Bookkeep(s.db, a))
  }

  function Run(s: State, actions: seq<Action>): State {
    if actions == [] then s else Step(Run(s, actions[..|actions| - 1]), actions[|actions| - 1])
  }
}
