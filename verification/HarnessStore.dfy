/**
  The harness tables as one value, and every transaction on them as a function. A transaction either
  commits the whole new value or (Err) leaves the tables as they were.
 */
module HarnessStore {
  import opened Common
  import opened Journal

  // ----- permission policy -------------------------------------------------------------------

  datatype Decision = Allow | Ask | Deny

  datatype Target = ToolTarget(tool: string) | CapabilityTarget(capability: string)

  /** `workspace` holds the rules of the process's working directory, which win over the global ones. */
  datatype Policy = Policy(rules: map<Target, Decision>, workspace: map<Target, Decision>)

  function DecidePermission(p: Policy, tool: string, capability: string): Decision {
    if ToolTarget(tool) in p.workspace then p.workspace[ToolTarget(tool)]
    else if CapabilityTarget(capability) in p.workspace then p.workspace[CapabilityTarget(capability)]
    else if ToolTarget(tool) in p.rules then p.rules[ToolTarget(tool)]
    else if CapabilityTarget(capability) in p.rules then p.rules[CapabilityTarget(capability)]
    else Ask
  }

  function SetPermissionRule(p: Policy, target: Target, decision: Decision): Policy {
    p.(rules := p.rules[target := decision])
  }

  // ----- rows --------------------------------------------------------------------------------

  datatype EvidencePolicy = NoEvidence | Summary | Full | FullIfError

  datatype Tool = Tool(name: string, capability: string, evidence: EvidencePolicy)

  /** What a tool body yields once normalised and cut to its output limit. */
  datatype ToolResult = Success(output: string) | Failure(message: string)

  datatype RunRow = RunRow(status: RunStatus, completed: bool)

  datatype StepRow = StepRow(run: Id, index: nat, status: StepStatus, started: bool, completed: bool)

  datatype CallRow = CallRow(
    run: Id,
    step: Option<Id>,
    tool: string,
    capability: string,
    status: CallStatus,
    args: string,
    result: Option<ToolResult>,
    error: Option<string>)

  datatype ApprovalRow = ApprovalRow(run: Id, call: Id, verdict: Verdict)

  datatype EvidenceKind = ToolResultKind | ToolErrorKind | DenialKind | ModelErrorKind

  datatype EvidenceRow = EvidenceRow(id: Id, run: Id, kind: EvidenceKind, source: Id, content: string)

  datatype Db = Db(
    runs: map<Id, RunRow>,
    steps: map<Id, StepRow>,
    calls: map<Id, CallRow>,
    approvals: map<Id, ApprovalRow>,
    evidence: seq<EvidenceRow>,
    events: seq<Event>,
    policy: Policy,
    nextId: Id)

  function EmptyDb(policy: Policy): Db {
    Db(map[], map[], map[], map[], [], [], policy, 0)
  }

  predicate TerminalRun(s: RunStatus) {
    s.Succeeded? || s.Failed? || s.Canceled? || s.Interrupted?
  }

  predicate TerminalStep(s: StepStatus) {
    s.Succeeded? || s.Failed? || s.Canceled? || s.Interrupted?
  }

  // ----- run and step transactions -----------------------------------------------------------

  function Log(d: Db, e: Event): Db {
    d.(events := d.events + [e])
  }

  function CreateRun(d: Db): Db {
    Log(d.(runs := d.runs[d.nextId := RunRow(RunStatus.Created, false)], nextId := d.nextId + 1),
        RunIs(d.nextId, None, RunStatus.Created))
  }

  function UpdateRunStatus(d: Db, run: Id, status: RunStatus): Result<Db, string> {
    if run !in d.runs then Err("Run not found")
    else
      Ok(Log(d.(runs := d.runs[run := RunRow(status, TerminalRun(status))]),
             RunIs(run, Some(d.runs[run].status), status)))
  }

  /** coalesce(max(index), -1) + 1 over the steps of the run with an id below the bound. */
  function NextStepIndex(steps: map<Id, StepRow>, run: Id, bound: Id): (next: nat)
    ensures forall s :: s in steps && s < bound && steps[s].run == run ==> steps[s].index < next
    ensures next == 0 || exists s :: s in steps && s < bound && steps[s].run == run && steps[s].index == next - 1
  {
    if bound == 0 then 0
    else
      var rest := NextStepIndex(steps, run, bound - 1);
      if bound - 1 in steps && steps[bound - 1].run == run && rest <= steps[bound - 1].index
      then steps[bound - 1].index + 1
      else rest
  }

  function CreateStep(d: Db, run: Id, status: StepStatus): Db {
    var index := NextStepIndex(d.steps, run, d.nextId);
    Log(d.(steps := d.steps[d.nextId := StepRow(run, index, status, status.Running?, TerminalStep(status))],
           nextId := d.nextId + 1),
        StepIs(d.nextId, None, status))
  }

  function UpdateStepStatus(d: Db, step: Id, status: StepStatus): Result<Db, string> {
    if step !in d.steps then Err("Step not found")
    else
      var old' := d.steps[step];
      var started := status.Running? || TerminalStep(status) || old'.started;
      var row := old'.(status := status, started := started, completed := TerminalStep(status));
      Ok(Log(d.(steps := d.steps[step := row]), StepIs(step, Some(old'.status), status)))
  }

  function AppendMessage(d: Db): Db {
    Log(d.(nextId := d.nextId + 1), Noted(MessageCreated, d.nextId))
  }

  function WriteSnapshot(d: Db): Db {
    Log(d.(nextId := d.nextId + 1), Noted(SnapshotCreated, d.nextId))
  }

  function CreateEvidence(d: Db, run: Id, kind: EvidenceKind, source: Id, content: string): Db {
    Log(d.(evidence := d.evidence + [EvidenceRow(d.nextId, run, kind, source, content)], nextId := d.nextId + 1),
        Noted(EvidenceCreated, d.nextId))
  }

  // ----- tool call transactions --------------------------------------------------------------

  function SetCall(d: Db, call: Id, row: CallRow): Db {
    d.(calls := d.calls[call := row])
  }

  function CreateToolCall(d: Db, run: Id, step: Option<Id>, tool: Tool, args: string): Db {
    var row := CallRow(run, step, tool.name, tool.capability, CallStatus.Pending, args, None, None);
    Log(Log(SetCall(d, d.nextId, row).(nextId := d.nextId + 1), CallIs(d.nextId, CallStatus.Pending)), Noted(CallQueued, d.nextId))
  }

  function MarkApprovalRequired(d: Db, call: Id): Db
    requires call in d.calls
  {
    Log(SetCall(d, call, d.calls[call].(status := CallStatus.ApprovalRequired, error := None)),
        CallIs(call, CallStatus.ApprovalRequired))
  }

  /** The compare-and-set claim: None when the row is not in the expected status. */
  function MarkRunning(d: Db, call: Id, expected: CallStatus): Option<Db> {
    if call in d.calls && d.calls[call].status == expected
    then Some(Log(SetCall(d, call, d.calls[call].(status := CallStatus.Running, error := None)), CallIs(call, CallStatus.Running)))
    else None
  }

  function SucceedToolCall(d: Db, call: Id, result: ToolResult): Db
    requires call in d.calls
  {
    var row := d.calls[call].(status := CallStatus.Succeeded, result := Some(result), error := None);
    Log(SetCall(d, call, row), CallIs(call, CallStatus.Succeeded))
  }

  function FailToolCall(d: Db, call: Id, message: string, result: Option<ToolResult>): Db
    requires call in d.calls
  {
    var row := d.calls[call].(status := CallStatus.Failed, result := result, error := Some(message));
    Log(SetCall(d, call, row), CallIs(call, CallStatus.Failed))
  }

  function DenyToolCall(d: Db, call: Id, message: string): Db
    requires call in d.calls
  {
    var row := d.calls[call].(status := CallStatus.Denied, error := Some(message));
    Log(SetCall(d, call, row), CallIs(call, CallStatus.Denied))
  }

  const INTERRUPTED_MESSAGE := "Tool call interrupted during recovery"

  function InterruptedRow(row: CallRow): CallRow {
    row.(status := CallStatus.Interrupted, error := Some(INTERRUPTED_MESSAGE))
  }

  function InterruptCall(d: Db, call: Id): Db {
    if call in d.calls && d.calls[call].status.Running? then
      Log(Log(SetCall(d, call, InterruptedRow(d.calls[call])), CallIs(call, CallStatus.Interrupted)), Noted(RecoveryInterrupted, call))
    else d
  }

  /** One transaction over the calls that were seen running just before it began. */
  function RecoverInterrupted(d: Db, seen: seq<Id>): Db {
    if seen == [] then d else InterruptCall(RecoverInterrupted(d, seen[..|seen| - 1]), seen[|seen| - 1])
  }

  // ----- approval transactions ---------------------------------------------------------------

  function CreateApproval(d: Db, run: Id, call: Id): Db {
    var verdict := Verdict(ApprovalStatus.Pending, Once);
    Log(d.(approvals := d.approvals[d.nextId := ApprovalRow(run, call, verdict)], nextId := d.nextId + 1),
        ApprovalIs(d.nextId, verdict))
  }

  function DenialMessage(tool: string, status: ApprovalStatus): string {
    if status.Expired? then "Tool " + tool + " approval expired"
    else "Tool " + tool + " denied by approval decision"
  }

  function DenyForApproval(d: Db, call: Id, status: ApprovalStatus): Result<Db, string> {
    if call !in d.calls then Err("Tool call not found for approval")
    else if d.calls[call].status.Denied? then Ok(d)
    else if !d.calls[call].status.ApprovalRequired? then Err("Tool call is not waiting for approval")
    else
      var message := DenialMessage(d.calls[call].tool, status);
      Ok(CreateEvidence(DenyToolCall(d, call, message), d.calls[call].run, DenialKind, call, message))
  }

  /** "Always" and "never" write a rule for the call's tool into the in-memory policy. */
  function RememberDecision(d: Db, call: Id, scope: DecisionScope): Policy {
    if call !in d.calls || d.calls[call].tool == "" || scope.Once? then d.policy
    else SetPermissionRule(d.policy, ToolTarget(d.calls[call].tool), if scope.Always? then Allow else Deny)
  }

  function RecordVerdict(d: Db, approval: Id, v: Verdict): Db
    requires approval in d.approvals
  {
    Log(d.(approvals := d.approvals[approval := d.approvals[approval].(verdict := v)]), ApprovalIs(approval, v))
  }

  /** The part of a decision that writes: verdict, then the call's denial, then the remembered rule. */
  function CommitVerdict(d: Db, approval: Id, v: Verdict): Result<Db, string>
    requires approval in d.approvals
  {
    var call := d.approvals[approval].call;
    var recorded := RecordVerdict(d, approval, v);
    var settled := if v.status.Approved? then Ok(recorded) else DenyForApproval(recorded, call, v.status);
    if settled.Err? then settled
    else Ok(settled.value.(policy := RememberDecision(d, call, v.scope)))
  }

  function ResolveApproval(d: Db, approval: Id, v: Verdict): Result<Db, string> {
    if v.scope.Always? && !v.status.Approved? then Err("Decision scope always requires an approved approval")
    else if v.scope.Never? && !v.status.Denied? then Err("Decision scope never requires a denied approval")
    else if approval !in d.approvals then Err("Approval not found")
    else if !d.approvals[approval].verdict.status.Pending? then
      if d.approvals[approval].verdict == v then Ok(d) else Err("Approval is already resolved")
    else if v.status.Pending? then Err("Approval resolution must be terminal")
    else CommitVerdict(d, approval, v)
  }

  // ----- replay of a finished call -----------------------------------------------------------

  datatype Outcome =
    | CallSuccess(call: Id, result: ToolResult, evidence: Option<Id>)
    | CallWaiting(call: Id, approval: Id)
    | CallRefused(call: Id, error: string, denial: Id)
    | CallFailure(call: Id, error: string, failure: Option<ToolResult>, evidence: Option<Id>)

  datatype Replay = NotTerminal | Replayed(outcome: Outcome) | ReplayThrows

  /** The newest evidence row of one kind about a call. */
  function LatestEvidence(evidence: seq<EvidenceRow>, call: Id, kind: EvidenceKind): Option<Id> {
    if evidence == [] then None
    else
      var last := evidence[|evidence| - 1];
      if last.source == call && last.kind == kind then Some(last.id)
      else LatestEvidence(evidence[..|evidence| - 1], call, kind)
  }

  predicate IsAbout(row: EvidenceRow, call: Id, kind: EvidenceKind) {
    row.source == call && row.kind == kind
  }

  /** The id of the last row of this kind about the call; none if there is no such row. */
  ghost predicate Newest(evidence: seq<EvidenceRow>, call: Id, kind: EvidenceKind, id: Option<Id>) {
    if id.None? then forall k :: 0 <= k < |evidence| ==> !IsAbout(evidence[k], call, kind)
    else
      exists k :: 0 <= k < |evidence| && IsAbout(evidence[k], call, kind) && evidence[k].id == id.value
        && forall j :: k < j < |evidence| ==> !IsAbout(evidence[j], call, kind)
  }

  lemma {:induction false} LatestIsNewest(evidence: seq<EvidenceRow>, call: Id, kind: EvidenceKind)
    ensures Newest(evidence, call, kind, LatestEvidence(evidence, call, kind))
  {
    if evidence != [] {
      var n := |evidence| - 1;
      if IsAbout(evidence[n], call, kind) {
        assert Newest(evidence, call, kind, Some(evidence[n].id));
      } else {
        LatestIsNewest(evidence[..n], call, kind);
      }
    }
  }

  function ReplayTerminal(d: Db, call: Id): Replay
    requires call in d.calls
  {
    var row := d.calls[call];
    match row.status
    case Succeeded =>
      if row.result.Some? && row.result.value.Success?
      then Replayed(CallSuccess(call, row.result.value, LatestEvidence(d.evidence, call, ToolResultKind)))
      else ReplayThrows
    case Failed =>
      var error := if row.error.Some? then row.error.value else "Tool " + row.tool + " failed";
      Replayed(CallFailure(call, error, row.result, LatestEvidence(d.evidence, call, ToolErrorKind)))
    case Denied =>
      var error := if row.error.Some? then row.error.value else "Tool " + row.tool + " denied";
      var denial := LatestEvidence(d.evidence, call, DenialKind);
      if denial.Some? then Replayed(CallRefused(call, error, denial.value)) else ReplayThrows
    case _ => NotTerminal
  }
}
