/**
  The typed event journal of the harness: which event each state change records, and what a reader can
  reconstruct by folding the log.
 */
module Journal {
  import opened Common

  datatype RunStatus = Created | Running | WaitingForApproval | Succeeded | Failed | Canceled | Interrupted

  datatype StepStatus = Created | Running | Succeeded | Failed | Canceled | Interrupted

  datatype CallStatus =
    Pending | ApprovalRequired | Running | Succeeded | Failed | Denied | Canceled | Interrupted

  datatype ApprovalStatus = Pending | Approved | Denied | Expired

  datatype DecisionScope = Once | Always | Never

  datatype Verdict = Verdict(status: ApprovalStatus, scope: DecisionScope)

  datatype Record = CallQueued | RecoveryInterrupted | EvidenceCreated | MessageCreated | SnapshotCreated

  /**
    An event tells the status an entity has from here on, or notes that a row was written. `run.created`
    and `step.created` are the first telling (no previous status); `tool_call.created` tells Pending and
    `tool_call.approval_required`, `.running`, `.succeeded`, `.failed`, `.denied`, `.interrupted` the status
    they are named after; `approval.created` and its three resolutions carry status and scope.
   */
  datatype Event =
    | RunIs(run: Id, previousRun: Option<RunStatus>, runStatus: RunStatus)
    | StepIs(step: Id, previousStep: Option<StepStatus>, stepStatus: StepStatus)
    | CallIs(call: Id, callStatus: CallStatus)
    | ApprovalIs(approval: Id, verdict: Verdict)
    | Noted(record: Record, subject: Id)

  /** The statuses a reader of the log believes in. */
  datatype Projection = Projection(
    runs: map<Id, RunStatus>,
    steps: map<Id, StepStatus>,
    calls: map<Id, CallStatus>,
    approvals: map<Id, Verdict>)

  function Believe(p: Projection, e: Event): Projection {
    match e
    case RunIs(r, _, st) => p.(runs := p.runs[r := st])
    case StepIs(s, _, st) => p.(steps := p.steps[s := st])
    case CallIs(c, st) => p.(calls := p.calls[c := st])
    case ApprovalIs(a, v) => p.(approvals := p.approvals[a := v])
    case Noted(_, _) => p
  }

  /** Folding the log from its first event. */
  function Fold(log: seq<Event>): Projection {
    if log == [] then Projection(map[], map[], map[], map[])
    else Believe(Fold(log[..|log| - 1]), log[|log| - 1])
  }

  /** The previous status an event records is the one the log gave just before it; a creation is of a new row. */
  predicate PreviousAgrees(p: Projection, e: Event) {
    match e
    case RunIs(r, prev, _) => if r in p.runs then prev == Some(p.runs[r]) else prev == None
    case StepIs(s, prev, _) => if s in p.steps then prev == Some(p.steps[s]) else prev == None
    case _ => true
  }

  /** Every recorded previous status agrees with the fold of the events before it. */
  ghost predicate Faithful(log: seq<Event>) {
    forall k :: 0 <= k < |log| ==> PreviousAgrees(Fold(log[..k]), log[k])
  }

  lemma {:induction false} FoldSnoc(log: seq<Event>, e: Event)
    ensures Fold(log + [e]) == Believe(Fold(log), e)
    ensures Faithful(log) && PreviousAgrees(Fold(log), e) ==> Faithful(log + [e])
  {
    var longer := log + [e];
    assert longer[..|log|] == log;
    forall k | 0 <= k < |longer| && Faithful(log) && PreviousAgrees(Fold(log), e)
      ensures PreviousAgrees(Fold(longer[..k]), longer[k])
    {
      if k < |log| {
        assert longer[..k] == log[..k];
      }
    }
  }
}
