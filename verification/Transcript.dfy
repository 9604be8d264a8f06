/**
  The durable message rows of a run, and the conversation rebuilt from them when the run is resumed.

  A tool message that waits for an approval is stored as a placeholder. When the run is resumed, a placeholder
  is dropped if a final answer to its call is stored, replaced by the call's outcome if there is one, replaced
  by a failure if the call was approved but never ran, and otherwise pending.
 */
module Transcript {
  import opened Common
  import opened Journal
  import opened HarnessStore

  /** The content of a message, as far as the rebuild looks into it. */
  datatype Body =
    | Words(text: string)
    | Waiting(call: Id, approval: Option<Id>)     // an approval placeholder
    | Told(call: Id, status: CallStatus, error: string, result: Option<ToolResult>, evidence: Option<Id>)
    | NeverExecuted(approvedBy: Id)

  /** Rows and chat messages alike. A missing call id reads as "". */
  datatype Entry =
    | Said(role: string, body: Body)
    | Asked(body: Body, calls: seq<string>)
    | Replied(name: string, id: string, body: Body)

  function IdOf(e: Entry): string {
    if e.Replied? then e.id else ""
  }

  function NameOf(e: Entry): string {
    if e.Replied? then e.name else ""
  }

  // ----- rebuilding --------------------------------------------------------------------------

  /** A stored tool message other than a placeholder, for a call that has an id. */
  predicate IsFinal(e: Entry, id: string) {
    e.Replied? && e.id == id && id != "" && !e.body.Waiting?
  }

  predicate HasFinal(rows: seq<Entry>, id: string) {
    exists i | 0 <= i < |rows| :: IsFinal(rows[i], id)
  }

  predicate TerminalCall(s: CallStatus) {
    s.Succeeded? || s.Failed? || s.Denied? || s.Canceled? || s.Interrupted?
  }

  function StatusName(s: CallStatus): string {
    match s
    case Pending => "pending"
    case ApprovalRequired => "approval_required"
    case Running => "running"
    case Succeeded => "succeeded"
    case Failed => "failed"
    case Denied => "denied"
    case Canceled => "canceled"
    case Interrupted => "interrupted"
  }

  function EvidenceFor(d: Db, call: Id): Option<Id>
    requires call in d.calls
  {
    match d.calls[call].status
    case Succeeded => LatestEvidence(d.evidence, call, ToolResultKind)
    case Failed => LatestEvidence(d.evidence, call, ToolErrorKind)
    case Denied => LatestEvidence(d.evidence, call, DenialKind)
    case _ => None
  }

  function Tell(d: Db, call: Id): Body
    requires call in d.calls
  {
    var row := d.calls[call];
    var error :=
      if row.status.Succeeded? then ""
      else if row.error.Some? then row.error.value
      else "Tool " + row.tool + " " + StatusName(row.status);
    Told(call, row.status, error, row.result, EvidenceFor(d, call))
  }

  datatype Fate = Kept | Dropped | Replaced(body: Body) | StillOpen(id: Id)

  predicate Settled(d: Db, call: Id) {
    call in d.calls && TerminalCall(d.calls[call].status)
  }

  predicate ApprovedBy(d: Db, approval: Option<Id>) {
    approval.Some? && approval.value in d.approvals && d.approvals[approval.value].verdict.status.Approved?
  }

  /** What becomes of one row, given whether a final answer to its call is stored. */
  function FateOf(e: Entry, answered: bool, d: Db): Fate {
    if !e.body.Waiting? then Kept
    else if answered then Dropped
    else if Settled(d, e.body.call) then Replaced(Tell(d, e.body.call))
    else if ApprovedBy(d, e.body.approval) then Replaced(NeverExecuted(e.body.approval.value))
    else StillOpen(if e.body.approval.Some? then e.body.approval.value else e.body.call)
  }

  datatype Rebuilt = Rebuilt(messages: seq<Entry>, persist: seq<Entry>, pending: seq<Id>)

  /** The tool message that takes a placeholder's place. */
  function Replacement(e: Entry, fate: Fate): seq<Entry> {
    if fate.Replaced? then [Replied(NameOf(e), IdOf(e), fate.body)] else []
  }

  function Shown(e: Entry, fate: Fate): seq<Entry> {
    if fate.Kept? then [e] else Replacement(e, fate)
  }

  function Follow(r: Rebuilt, e: Entry, fate: Fate): Rebuilt {
    Rebuilt(r.messages + Shown(e, fate), r.persist + Replacement(e, fate),
            if fate.StillOpen? then r.pending + [fate.id] else r.pending)
  }

  predicate Answered(all: seq<Entry>, e: Entry) {
    IdOf(e) != "" && HasFinal(all, IdOf(e))
  }

  /** The rows so far, rebuilt with a view of all rows. */
  function Rebuild(rows: seq<Entry>, all: seq<Entry>, d: Db): Rebuilt {
    if rows == [] then Rebuilt([], [], [])
    else
      var last := rows[|rows| - 1];
      Follow(Rebuild(rows[..|rows| - 1], all, d), last, FateOf(last, Answered(all, last), d))
  }

  lemma {:induction false} RebuildPrefix(rows: seq<Entry>, all: seq<Entry>, d: Db, i: nat)
    requires i < |rows|
    ensures Unblocked(rows[..i + 1], all, d) <==> Unblocked(rows[..i], all, d) && !Blocks(rows[i], all, d)
    ensures Rebuild(rows[..i + 1], all, d)
         == Follow(Rebuild(rows[..i], all, d), rows[i], FateOf(rows[i], Answered(all, rows[i]), d))
  {
    assert rows[..i + 1][..i] == rows[..i];
  }

  /** The row's replacement also settles the step of its call, and that step is missing. */
  predicate Blocks(e: Entry, all: seq<Entry>, d: Db) {
    && FateOf(e, Answered(all, e), d).Replaced?
    && Settled(d, e.body.call)
    && d.calls[e.body.call].step.Some?
    && d.calls[e.body.call].step.value !in d.steps
  }

  predicate Unblocked(rows: seq<Entry>, all: seq<Entry>, d: Db) {
    rows == [] || (Unblocked(rows[..|rows| - 1], all, d) && !Blocks(rows[|rows| - 1], all, d))
  }

  lemma {:induction false} UnblockedPrefix(rows: seq<Entry>, all: seq<Entry>, d: Db, i: nat)
    requires i <= |rows| && Unblocked(rows, all, d)
    ensures Unblocked(rows[..i], all, d)
  {
    if i < |rows| {
      UnblockedPrefix(rows[..|rows| - 1], all, d, i);
      assert rows[..|rows| - 1][..i] == rows[..i];
    } else {
      assert rows[..i] == rows;
    }
  }

  function StepStatusFor(s: CallStatus): StepStatus {
    match s
    case Succeeded => StepStatus.Succeeded
    case Canceled => StepStatus.Canceled
    case Interrupted => StepStatus.Interrupted
    case _ => StepStatus.Failed
  }

  /** Equal in all that the rebuild reads. */
  ghost predicate SameView(a: Db, b: Db) {
    a.calls == b.calls && a.approvals == b.approvals && a.evidence == b.evidence && a.steps.Keys == b.steps.Keys
  }

  // ----- the steps settled on the way --------------------------------------------------------

  /** The step ends as its call did; a failed and a denied call both make it failed. */
  predicate EndsAs(call: CallStatus, step: StepStatus) {
    && (call.Succeeded? ==> step.Succeeded?)
    && (call.Canceled? ==> step.Canceled?)
    && (call.Interrupted? ==> step.Interrupted?)
    && (call.Failed? || call.Denied? ==> step.Failed?)
  }

  /** The call is neither waiting to run nor running. */
  predicate Ended(call: CallStatus) {
    !call.Pending? && !call.ApprovalRequired? && !call.Running?
  }

  /** The row is answered from a call that has ended and belongs to a step. */
  predicate Settles(e: Entry, all: seq<Entry>, d: Db) {
    && e.body.Waiting? && !Answered(all, e)
    && e.body.call in d.calls && Ended(d.calls[e.body.call].status) && d.calls[e.body.call].step.Some?
  }

  datatype StepEnd = StepEnd(step: Id, call: CallStatus)

  /** The steps the rows settle, row by row, with the status of the call. */
  function StepEnds(rows: seq<Entry>, all: seq<Entry>, d: Db): seq<StepEnd> {
    if rows == [] then []
    else
      var last := rows[|rows| - 1];
      StepEnds(rows[..|rows| - 1], all, d)
      + if Settles(last, all, d) then [StepEnd(d.calls[last.body.call].step.value, d.calls[last.body.call].status)] else []
  }

  /** The status of the last call that settles the step, if any does. */
  function LastCall(ends: seq<StepEnd>, step: Id): Option<CallStatus> {
    if ends == [] then None
    else if ends[|ends| - 1].step == step then Some(ends[|ends| - 1].call)
    else LastCall(ends[..|ends| - 1], step)
  }

  /** A settled step is over, started and completed, and its run and index are as they were. */
  predicate Over(was: StepRow, now: StepRow, call: CallStatus) {
    now.run == was.run && now.index == was.index && now.started && now.completed && EndsAs(call, now.status)
  }

  predicate StepNow(was: StepRow, now: StepRow, end: Option<CallStatus>) {
    if end.None? then now == was else Over(was, now, end.value)
  }

  predicate TellsEnd(e: Event, end: StepEnd) {
    e.StepIs? && e.step == end.step && e.previousStep.Some? && EndsAs(end.call, e.stepStatus)
  }

  /** The log has grown by one event for each step settled, in order. */
  ghost predicate EndsLogged(before: seq<Event>, after: seq<Event>, ends: seq<StepEnd>) {
    && |after| == |before| + |ends| && after[..|before|] == before
    && forall k :: 0 <= k < |ends| ==> TellsEnd(after[|before| + k], ends[k])
  }

  /**
    Every step named is over as its last call says, every other step is as it was; the log tells of each; and
    nothing else in the tables has changed.
   */
  ghost predicate StepsEnded(d: Db, after: Db, ends: seq<StepEnd>) {
    && after == d.(steps := after.steps, events := after.events) && after.steps.Keys == d.steps.Keys
    && (forall s :: s in d.steps ==> StepNow(d.steps[s], after.steps[s], LastCall(ends, s)))
    && EndsLogged(d.events, after.events, ends)
  }

  lemma {:induction false} LastCallSnoc(ends: seq<StepEnd>, end: StepEnd, s: Id)
    ensures LastCall(ends + [end], s) == if end.step == s then Some(end.call) else LastCall(ends, s)
  {
    assert (ends + [end])[..|ends|] == ends;
  }

  /** One more step settled: its row and its event. */
  ghost predicate EndsOne(before: Db, after: Db, end: StepEnd) {
    && end.step in before.steps && end.step in after.steps
    && after == before.(steps := before.steps[end.step := after.steps[end.step]], events := after.events)
    && Over(before.steps[end.step], after.steps[end.step], end.call)
    && EndsLogged(before.events, after.events, [end])
  }

  lemma {:induction false} LoggedOneMore(log: seq<Event>, before: seq<Event>, after: seq<Event>, ends: seq<StepEnd>, end: StepEnd)
    requires EndsLogged(log, before, ends) && EndsLogged(before, after, [end])
    ensures EndsLogged(log, after, ends + [end])
  {
    assert after[..|log|] == before[..|log|];
    forall k | 0 <= k < |ends + [end]|
      ensures TellsEnd(after[|log| + k], (ends + [end])[k])
    {
      if k < |ends| { assert after[|log| + k] == before[|log| + k]; } else { assert [end][0] == end; }
    }
  }

  lemma {:induction false} EndsOneMore(d: Db, before: Db, after: Db, ends: seq<StepEnd>, end: StepEnd)
    requires StepsEnded(d, before, ends) && EndsOne(before, after, end)
    ensures StepsEnded(d, after, ends + [end])
  {
    LoggedOneMore(d.events, before.events, after.events, ends, end);
    forall s | s in d.steps
      ensures StepNow(d.steps[s], after.steps[s], LastCall(ends + [end], s))
    {
      LastCallSnoc(ends, end, s);
    }
  }

  lemma {:induction false} UpdateEndsOne(before: Db, step: Id, call: CallStatus)
    requires step in before.steps && TerminalCall(call)
    ensures EndsOne(before, UpdateStepStatus(before, step, StepStatusFor(call)).value, StepEnd(step, call))
  {
  }

  // ----- the rebuild as the code writes it ---------------------------------------------------

  /** One turn of the loop over the rows. */
  method ResumeRow(row: Entry, rows: seq<Entry>, d: Db, before: Db) returns (fate: Result<Fate, string>, after: Db)
    requires SameView(before, d)
    ensures SameView(after, d)
    ensures fate.Ok? ==> fate.value == FateOf(row, Answered(rows, row), d)
    ensures fate.Err? <==> Blocks(row, rows, d)
    ensures fate.Ok? && Settles(row, rows, d) ==>
      EndsOne(before, after, StepEnd(d.calls[row.body.call].step.value, d.calls[row.body.call].status))
    ensures fate.Err? || !Settles(row, rows, d) ==> after == before
  {
    after := before;
    if !row.body.Waiting? { return Ok(Kept), after; }
    if IdOf(row) != "" && HasFinal(rows, IdOf(row)) { return Ok(Dropped), after; }
    if !Settled(d, row.body.call) {
      if ApprovedBy(d, row.body.approval) {
        return Ok(Replaced(NeverExecuted(row.body.approval.value))), after;
      }
      return Ok(StillOpen(if row.body.approval.Some? then row.body.approval.value else row.body.call)), after;
    }
    var call := d.calls[row.body.call];
    if call.step.Some? {
      var written := UpdateStepStatus(after, call.step.value, StepStatusFor(call.status));
      if written.Err? { return Err(written.error), after; }
      UpdateEndsOne(before, call.step.value, call.status);
      after := written.value;
    }
    fate := Ok(Replaced(Tell(d, row.body.call)));
  }

  /**
    Steps are settled on the way, so a missing step row makes it throw halfway, with the steps of the rows before
    it settled.
   */
  method ResumeMessages(rows: seq<Entry>, d: Db) returns (r: Result<Rebuilt, string>, after: Db)
    ensures r.Ok? <==> Unblocked(rows, rows, d)
    ensures r.Ok? ==> r.value == Rebuild(rows, rows, d)
    ensures SameView(after, d)
    ensures r.Ok? ==> StepsEnded(d, after, StepEnds(rows, rows, d))
    ensures r.Err? ==> exists i :: HaltsAt(rows, d, after, i)
  {
    after := d;
    var rebuilt := Rebuilt([], [], []);
    for i := 0 to |rows|
      invariant rebuilt == Rebuild(rows[..i], rows, d) && Unblocked(rows[..i], rows, d) && SameView(after, d)
      invariant StepsEnded(d, after, StepEnds(rows[..i], rows, d))
    {
      RebuildPrefix(rows, rows, d, i);
      ghost var before := after;
      var fate;
      fate, after := ResumeRow(rows[i], rows, d, after);
      if fate.Err? {
        if Unblocked(rows, rows, d) { UnblockedPrefix(rows, rows, d, i + 1); }
        assert HaltsAt(rows, d, after, i);
        return Err(fate.error), after;
      }
      StepsEndedNext(rows, d, before, after, i);
      rebuilt := Follow(rebuilt, rows[i], fate.value);
    }
    assert rows[..|rows|] == rows;
    r := Ok(rebuilt);
  }

  /** The rebuild has thrown at row `i`, whose step is missing. */
  ghost predicate HaltsAt(rows: seq<Entry>, d: Db, after: Db, i: nat) {
    i < |rows| && Blocks(rows[i], rows, d) && StepsEnded(d, after, StepEnds(rows[..i], rows, d))
  }

  lemma {:induction false} StepsEndedNext(rows: seq<Entry>, d: Db, before: Db, after: Db, i: nat)
    requires i < |rows| && StepsEnded(d, before, StepEnds(rows[..i], rows, d))
    requires if Settles(rows[i], rows, d)
      then EndsOne(before, after, StepEnd(d.calls[rows[i].body.call].step.value, d.calls[rows[i].body.call].status))
      else after == before
    ensures StepsEnded(d, after, StepEnds(rows[..i + 1], rows, d))
  {
    StepEndsPrefix(rows, rows, d, i);
    var ends := StepEnds(rows[..i], rows, d);
    if Settles(rows[i], rows, d) {
      EndsOneMore(d, before, after, ends, StepEnd(d.calls[rows[i].body.call].step.value, d.calls[rows[i].body.call].status));
    } else {
      assert ends + [] == ends;
    }
  }

  lemma {:induction false} StepEndsPrefix(rows: seq<Entry>, all: seq<Entry>, d: Db, i: nat)
    requires i < |rows|
    ensures StepEnds(rows[..i + 1], all, d) == StepEnds(rows[..i], all, d) +
      if Settles(rows[i], all, d) then [StepEnd(d.calls[rows[i].body.call].step.value, d.calls[rows[i].body.call].status)] else []
  {
    assert rows[..i + 1][..i] == rows[..i];
  }

  // ----- what becomes of a row, and what it is told ------------------------------------------

  /** An approval with this id has been given. */
  predicate Given(d: Db, approval: Option<Id>) {
    approval.Some? && approval.value in d.approvals && d.approvals[approval.value].verdict.status == ApprovalStatus.Approved
  }

  /**
    A row that is no placeholder is kept; a placeholder with a final answer is dropped, one whose call has ended is
    told its end, one whose call has not but was approved is told that it never ran, and any other is pending,
    under its approval's id or, without one, its call's.
   */
  lemma {:induction false} FateExactly(e: Entry, all: seq<Entry>, d: Db)
    ensures var fate, open := FateOf(e, Answered(all, e), d), e.body.Waiting? && !Answered(all, e);
      && (fate.Kept? <==> !e.body.Waiting?)
      && (fate.Dropped? <==> e.body.Waiting? && exists i :: 0 <= i < |all| && IsFinal(all[i], IdOf(e)))
      && (open ==>
            var ended := e.body.call in d.calls && Ended(d.calls[e.body.call].status);
            && (ended ==> fate.Replaced? && fate.body.Told? && fate.body.call == e.body.call)
            && (!ended && Given(d, e.body.approval) ==> fate == Replaced(NeverExecuted(e.body.approval.value)))
            && (!ended && !Given(d, e.body.approval) && e.body.approval.Some? ==> fate == StillOpen(e.body.approval.value))
            && (!ended && e.body.approval.None? ==> fate == StillOpen(e.body.call)))
  {
  }

  /** What is told of an ended call: its status, its result, its error if it did not succeed, its newest evidence. */
  lemma {:induction false} TellsExactly(d: Db, call: Id)
    requires call in d.calls && Ended(d.calls[call].status)
    ensures var row, told := d.calls[call], Tell(d, call);
      && told.Told? && told.call == call && told.status == row.status && told.result == row.result
      && (row.status.Succeeded? ==> told.error == "" && Newest(d.evidence, call, ToolResultKind, told.evidence))
      && (!row.status.Succeeded? && row.error.Some? ==> told.error == row.error.value)
      && (row.status.Failed? ==> Newest(d.evidence, call, ToolErrorKind, told.evidence))
      && (row.status.Denied? ==> Newest(d.evidence, call, DenialKind, told.evidence))
      && (row.status.Canceled? || row.status.Interrupted? ==> told.evidence == None)
      && (row.error.None? && !row.status.Succeeded? ==>
            told.error == "Tool " + row.tool + (if row.status.Failed? then " failed" else if row.status.Denied? then " denied"
                                                else if row.status.Canceled? then " canceled" else " interrupted"))
  {
    LatestIsNewest(d.evidence, call, ToolResultKind);
    LatestIsNewest(d.evidence, call, ToolErrorKind);
    LatestIsNewest(d.evidence, call, DenialKind);
    assert "Tool " + d.calls[call].tool + " " + StatusName(d.calls[call].status)
      == "Tool " + d.calls[call].tool + (" " + StatusName(d.calls[call].status));
  }

  /** A rebuilt transcript tells exactly what replaying the approved call returns. */
  lemma {:induction false} TellsWhatReplayReturns(d: Db, call: Id)
    requires call in d.calls && ReplayTerminal(d, call).Replayed?
    ensures var told := Tell(d, call);
      match ReplayTerminal(d, call).outcome
      case CallSuccess(c, result, evidence) => told == Told(c, CallStatus.Succeeded, "", Some(result), evidence)
      case CallFailure(c, error, result, evidence) => told == Told(c, CallStatus.Failed, error, result, evidence)
      case CallRefused(c, error, evidence) =>
        told == Told(c, CallStatus.Denied, error, d.calls[call].result, Some(evidence))
      case CallWaiting(_, _) => false
  {
  }
}
