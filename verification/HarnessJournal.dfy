/**
  Journal agreement: each transaction appends exactly the events that make the folded log equal the
  stored statuses again, and records the previous status the log itself would give.
 */
module HarnessJournal {
  import opened Common
  import opened Journal
  import opened HarnessStore

  /** A projection shows exactly the rows the tables hold, each with its stored status. */
  ghost predicate Shows(p: Projection, d: Db) {
    && p.runs.Keys == d.runs.Keys && (forall r :: r in d.runs ==> p.runs[r] == d.runs[r].status)
    && p.steps.Keys == d.steps.Keys && (forall s :: s in d.steps ==> p.steps[s] == d.steps[s].status)
    && p.calls.Keys == d.calls.Keys && (forall c :: c in d.calls ==> p.calls[c] == d.calls[c].status)
    && p.approvals.Keys == d.approvals.Keys
    && (forall a :: a in d.approvals ==> p.approvals[a] == d.approvals[a].verdict)
  }

  ghost predicate Agrees(d: Db) {
    Shows(Fold(d.events), d) && Faithful(d.events)
  }

  /** A transaction that appends one event keeps agreement when the event tells of the change it makes. */
  lemma {:induction false} LogAgrees(d: Db, d': Db, e: Event)
    requires Agrees(d)
    requires d'.events == d.events + [e]
    requires Shows(Believe(Fold(d.events), e), d') && PreviousAgrees(Fold(d.events), e)
    ensures Agrees(d')
  {
    FoldSnoc(d.events, e);
  }

  lemma {:induction false} CreateRunAgrees(d: Db)
    requires Agrees(d) && d.nextId !in d.runs
    ensures Agrees(CreateRun(d))
  {
    LogAgrees(d, CreateRun(d), RunIs(d.nextId, None, RunStatus.Created));
  }

  lemma {:induction false} UpdateRunStatusAgrees(d: Db, run: Id, status: RunStatus)
    requires Agrees(d)
    ensures var r := UpdateRunStatus(d, run, status); r.Ok? ==> Agrees(r.value)
  {
    if run in d.runs {
      LogAgrees(d, UpdateRunStatus(d, run, status).value, RunIs(run, Some(d.runs[run].status), status));
    }
  }

  lemma {:induction false} CreateStepAgrees(d: Db, run: Id, status: StepStatus)
    requires Agrees(d) && d.nextId !in d.steps
    ensures Agrees(CreateStep(d, run, status))
  {
    LogAgrees(d, CreateStep(d, run, status), StepIs(d.nextId, None, status));
  }

  lemma {:induction false} UpdateStepStatusAgrees(d: Db, step: Id, status: StepStatus)
    requires Agrees(d)
    ensures var r := UpdateStepStatus(d, step, status); r.Ok? ==> Agrees(r.value)
  {
    if step in d.steps {
      LogAgrees(d, UpdateStepStatus(d, step, status).value, StepIs(step, Some(d.steps[step].status), status));
    }
  }

  lemma {:induction false} RecordsAgree(d: Db)
    requires Agrees(d)
    ensures Agrees(AppendMessage(d)) && Agrees(WriteSnapshot(d))
  {
    LogAgrees(d, AppendMessage(d), Noted(MessageCreated, d.nextId));
    LogAgrees(d, WriteSnapshot(d), Noted(SnapshotCreated, d.nextId));
  }

  lemma {:induction false} CreateToolCallAgrees(d: Db, run: Id, step: Option<Id>, tool: Tool, args: string)
    requires Agrees(d)
    ensures Agrees(CreateToolCall(d, run, step, tool, args))
  {
    var row := CallRow(run, step, tool.name, tool.capability, CallStatus.Pending, args, None, None);
    var d1 := Log(SetCall(d, d.nextId, row).(nextId := d.nextId + 1), CallIs(d.nextId, CallStatus.Pending));
    LogAgrees(d, d1, CallIs(d.nextId, CallStatus.Pending));
    LogAgrees(d1, CreateToolCall(d, run, step, tool, args), Noted(CallQueued, d.nextId));
  }

  lemma {:induction false} MarkApprovalRequiredAgrees(d: Db, call: Id)
    requires Agrees(d) && call in d.calls
    ensures Agrees(MarkApprovalRequired(d, call))
  {
    LogAgrees(d, MarkApprovalRequired(d, call), CallIs(call, CallStatus.ApprovalRequired));
  }

  lemma {:induction false} SucceedToolCallAgrees(d: Db, call: Id, result: ToolResult)
    requires Agrees(d) && call in d.calls
    ensures Agrees(SucceedToolCall(d, call, result))
  {
    LogAgrees(d, SucceedToolCall(d, call, result), CallIs(call, CallStatus.Succeeded));
  }

  lemma {:induction false} FailToolCallAgrees(d: Db, call: Id, message: string, failure: Option<ToolResult>)
    requires Agrees(d) && call in d.calls
    ensures Agrees(FailToolCall(d, call, message, failure))
  {
    LogAgrees(d, FailToolCall(d, call, message, failure), CallIs(call, CallStatus.Failed));
  }

  lemma {:induction false} DenyToolCallAgrees(d: Db, call: Id, message: string)
    requires Agrees(d) && call in d.calls
    ensures Agrees(DenyToolCall(d, call, message))
  {
    LogAgrees(d, DenyToolCall(d, call, message), CallIs(call, CallStatus.Denied));
  }

  lemma {:induction false} MarkRunningAgrees(d: Db, call: Id, expected: CallStatus)
    requires Agrees(d)
    ensures MarkRunning(d, call, expected).Some? ==> Agrees(MarkRunning(d, call, expected).value)
  {
    if MarkRunning(d, call, expected).Some? {
      LogAgrees(d, MarkRunning(d, call, expected).value, CallIs(call, CallStatus.Running));
    }
  }

  lemma {:induction false} EvidenceAgrees(d: Db, run: Id, kind: EvidenceKind, source: Id, content: string)
    requires Agrees(d)
    ensures Agrees(CreateEvidence(d, run, kind, source, content))
  {
    LogAgrees(d, CreateEvidence(d, run, kind, source, content), Noted(EvidenceCreated, d.nextId));
  }

  lemma {:induction false} InterruptAgrees(d: Db, call: Id)
    requires Agrees(d)
    ensures Agrees(InterruptCall(d, call))
  {
    if call in d.calls && d.calls[call].status.Running? {
      var d1 := Log(SetCall(d, call, InterruptedRow(d.calls[call])), CallIs(call, CallStatus.Interrupted));
      LogAgrees(d, d1, CallIs(call, CallStatus.Interrupted));
      LogAgrees(d1, InterruptCall(d, call), Noted(RecoveryInterrupted, call));
    }
  }

  lemma {:induction false} RecoveryAgrees(d: Db, seen: seq<Id>)
    requires Agrees(d)
    ensures Agrees(RecoverInterrupted(d, seen))
  {
    if seen != [] {
      RecoveryAgrees(d, seen[..|seen| - 1]);
      InterruptAgrees(RecoverInterrupted(d, seen[..|seen| - 1]), seen[|seen| - 1]);
    }
  }

  lemma {:induction false} CreateApprovalAgrees(d: Db, run: Id, call: Id)
    requires Agrees(d)
    ensures Agrees(CreateApproval(d, run, call))
  {
    LogAgrees(d, CreateApproval(d, run, call), ApprovalIs(d.nextId, Verdict(ApprovalStatus.Pending, Once)));
  }

  lemma {:induction false} DenyForApprovalAgrees(d: Db, call: Id, status: ApprovalStatus)
    requires Agrees(d)
    ensures var r := DenyForApproval(d, call, status); r.Ok? ==> Agrees(r.value)
  {
    if call in d.calls && d.calls[call].status.ApprovalRequired? {
      var message := DenialMessage(d.calls[call].tool, status);
      DenyToolCallAgrees(d, call, message);
      EvidenceAgrees(DenyToolCall(d, call, message), d.calls[call].run, DenialKind, call, message);
    }
  }

  lemma {:induction false} PolicyAgrees(d: Db, policy: Policy)
    requires Agrees(d)
    ensures Agrees(d.(policy := policy))
  {
  }

  lemma {:induction false} RecordVerdictAgrees(d: Db, approval: Id, v: Verdict)
    requires Agrees(d) && approval in d.approvals
    ensures Agrees(RecordVerdict(d, approval, v))
  {
    LogAgrees(d, RecordVerdict(d, approval, v), ApprovalIs(approval, v));
  }

  /** A decision that rolls back writes nothing; one that commits keeps log and tables in step. */
  lemma {:induction false} CommitVerdictAgrees(d: Db, approval: Id, v: Verdict)
    requires Agrees(d) && approval in d.approvals
    ensures var r := CommitVerdict(d, approval, v); r.Ok? ==> Agrees(r.value)
  {
    var call := d.approvals[approval].call;
    RecordVerdictAgrees(d, approval, v);
    var recorded := RecordVerdict(d, approval, v);
    DenyForApprovalAgrees(recorded, call, v.status);
    var settled := if v.status.Approved? then Ok(recorded) else DenyForApproval(recorded, call, v.status);
    if settled.Ok? {
      PolicyAgrees(settled.value, RememberDecision(d, call, v.scope));
    }
  }
}
