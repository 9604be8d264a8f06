/**
  The answers a recovery stores, against what the calls do afterwards.

  A recovery settles a waiting message with what it finds in the tables: the outcome of an ended call, or that an
  approved call was never executed. The message is final; the call need not be. This module says exactly which
  stored answers later runs of the drivers can contradict.
 */
module HarnessRecovery {
  import opened Common
  import opened Journal
  import opened HarnessStore
  import opened HarnessPolicy
  import opened HarnessProtocol
  import opened HarnessInvariant
  import opened HarnessSafety
  import opened HarnessTheorems
  import opened HarnessReplay
  import Transcript
  import TranscriptTheorems

  // ----- what an answer says -----------------------------------------------------------------

  /** The replay a stored answer stands for. */
  function Recalls(b: Transcript.Body): Replay {
    match b
    case Told(c, status, error, result, evidence) =>
      if status.Succeeded? then
        if result.Some? && result.value.Success? then Replayed(CallSuccess(c, result.value, evidence)) else ReplayThrows
      else if status.Failed? then Replayed(CallFailure(c, error, result, evidence))
      else if status.Denied? then
        if evidence.Some? then Replayed(CallRefused(c, error, evidence.value)) else ReplayThrows
      else NotTerminal
    case _ => NotTerminal
  }

  lemma {:induction false} TellRecalls(d: Db, c: Id)
    requires c in d.calls
    ensures Recalls(Transcript.Tell(d, c)) == ReplayTerminal(d, c)
  {
    if ReplayTerminal(d, c).Replayed? { Transcript.TellsWhatReplayReturns(d, c); }
  }

  /** The recovery at these tables answers the row with `b`. */
  predicate Stores(e: Transcript.Entry, rows: seq<Transcript.Entry>, d: Db, b: Transcript.Body) {
    TranscriptTheorems.RowFate(e, rows, d) == Transcript.Replaced(b) && e.body.call in d.calls
  }

  lemma {:induction false} StoredRecalls(e: Transcript.Entry, rows: seq<Transcript.Entry>, d: Db, b: Transcript.Body)
    requires Stores(e, rows, d, b)
    ensures Recalls(b) == ReplayTerminal(d, e.body.call)
  {
    TellRecalls(d, e.body.call);
    FinishedIsStatus(d, e.body.call);
  }

  ghost predicate Confirms(t: State, c: Id, b: Transcript.Body) {
    Finished(t.db, c) && ReplayTerminal(t.db, c) == Recalls(b)
  }

  /** The call has ended otherwise than the answer says. */
  ghost predicate Contradicts(t: State, c: Id, b: Transcript.Body) {
    Finished(t.db, c) && ReplayTerminal(t.db, c) != Recalls(b)
  }

  // ----- calls that cannot end any more ------------------------------------------------------

  /** A driver is at work on the call, or an approval may still start or refuse it. */
  ghost predicate MayEnd(s: State, c: Id)
    requires c in s.db.calls
  {
    !Unowned(s, c) || s.db.calls[c].status.ApprovalRequired?
  }

  ghost predicate Stuck(s: State, c: Id) {
    c in s.db.calls && !Finished(s.db, c) && !MayEnd(s, c)
  }

  predicate LiesStill(st: CallStatus) {
    !FinalStatus(st) && !st.ApprovalRequired?
  }

  lemma {:induction false} StuckAdvance(s: State, i: nat, body: BodyResult, c: Id)
    requires Inv(s) && Stuck(s, c) && i < |s.drivers| && Active(s.drivers[i]) && s.drivers[i].call in s.db.calls
    ensures var t := AdvanceDriver(s, i, body); c in t.db.calls && t.db.calls[c] == s.db.calls[c] && Unowned(t, c)
  {
    var t := AdvanceDriver(s, i, body);
    AdvanceKeepsOwner(s, i, body);
    if s.drivers[i].call != c {
      AdvanceTouchesOwnCall(s, i, body, c);
    } else {
      LateClaimFails(s, i, body, c);
    }
    forall j | 0 <= j < |t.drivers| ensures Owner(t.drivers[j]) != Some(c) {
      assert j != i ==> t.drivers[j] == s.drivers[j];
    }
  }

  /** All that is left for a stuck call is a claim that comes too late. */
  lemma {:induction false} LateClaimFails(s: State, i: nat, body: BodyResult, c: Id)
    requires Inv(s) && Stuck(s, c) && i < |s.drivers| && Active(s.drivers[i]) && s.drivers[i].call == c
    ensures var t := AdvanceDriver(s, i, body); t.db == s.db && Owner(t.drivers[i]) == None
  {
    assert DriverOk(s, s.drivers[i]) && Owner(s.drivers[i]) != Some(c);
    assert s.drivers[i].Claiming? && s.drivers[i].expected.ApprovalRequired?;
  }

  lemma {:induction false} RecoverLiesStill(d: Db, seen: seq<Id>, c: Id)
    requires c in d.calls && LiesStill(d.calls[c].status)
    ensures var d' := RecoverInterrupted(d, seen); c in d'.calls && LiesStill(d'.calls[c].status)
  {
    if seen != [] {
      RecoverLiesStill(d, seen[..|seen| - 1], c);
    }
  }

  lemma {:induction false} ResolveLiesStill(d: Db, d': Db, approval: Id, v: Verdict, c: Id)
    requires d' == d || Consents(d, d', approval, v) || Refuses(d, d', approval, v)
    requires c in d.calls && LiesStill(d.calls[c].status)
    ensures c in d'.calls && LiesStill(d'.calls[c].status)
  {
  }

  lemma {:induction false} OtherLiesStill(s: State, a: Action, c: Id)
    requires Inv(s) && !a.Advance? && c in s.db.calls && LiesStill(s.db.calls[c].status)
    ensures var t := Step(s, a); c in t.db.calls && LiesStill(t.db.calls[c].status)
  {
    match a {
      case Resolve(approval, v) =>
        ResolveWrites(s, approval, v);
        ResolveLiesStill(s.db, Step(s, a).db, approval, v, c);
      case Recover(seen) => RecoverLiesStill(s.db, seen, c);
      case Enqueue(_, _, _, _, _) =>
      case RunApproved(_, _, _) =>
      case Crash(_) =>
      case _ => BookkeepingKeepsCalls(s.db, a);
    }
  }

  lemma {:induction false} OtherLeavesUnowned(s: State, a: Action, c: Id)
    requires Inv(s) && !a.Advance? && c in s.db.calls && Unowned(s, c)
    ensures Unowned(Step(s, a), c)
  {
    var t := Step(s, a);
    if a.Resolve? { ResolveWrites(s, a.approval, a.verdict); }
    forall j | 0 <= j < |t.drivers| ensures Owner(t.drivers[j]) != Some(c) {
      if j < |s.drivers| && t.drivers[j] == s.drivers[j] {
        assert Owner(s.drivers[j]) != Some(c);
      }
    }
  }

  lemma {:induction false} StuckStep(s: State, a: Action, c: Id)
    requires Inv(s) && Stuck(s, c)
    ensures Stuck(Step(s, a), c)
  {
    FinishedIsStatus(s.db, c);
    FinishedIsStatus(Step(s, a).db, c);
    if a.Advance? {
      if a.driver < |s.drivers| && Active(s.drivers[a.driver]) && s.drivers[a.driver].call in s.db.calls {
        StuckAdvance(s, a.driver, a.body, c);
      }
    } else {
      OtherLiesStill(s, a, c);
      OtherLeavesUnowned(s, a, c);
    }
  }

  lemma {:induction false} StuckForEver(s: State, later: seq<Action>, c: Id)
    requires Inv(s) && Stuck(s, c)
    ensures Stuck(Run(s, later), c)
  {
    if later != [] {
      StuckForEver(s, later[..|later| - 1], c);
      RunKeeps(s, later[..|later| - 1]);
      StuckStep(Run(s, later[..|later| - 1]), later[|later| - 1], c);
    }
  }

  // ----- calls that can ----------------------------------------------------------------------

  lemma {:induction false} RunAfter(s: State, a: Action, later: seq<Action>)
    ensures Run(s, [a] + later) == Run(Step(s, a), later)
  {
    var actions := [a] + later;
    if later == [] {
      assert actions == [a] && [a][..0] == [] && Run(s, []) == s;
    } else {
      assert actions[..|actions| - 1] == [a] + later[..|later| - 1];
      RunAfter(s, a, later[..|later| - 1]);
    }
  }

  lemma {:induction false} EndAtOnce(s: State, a: Action, c: Id) returns (later: seq<Action>)
    requires Finished(Step(s, a).db, c)
    ensures Finished(Run(s, later).db, c)
  {
    later := [a];
    assert [a][..0] == [] && Run(s, []) == s;
  }

  lemma {:induction false} EndExecuting(s: State, i: nat, c: Id) returns (later: seq<Action>)
    requires i < |s.drivers| && s.drivers[i].Executing? && s.drivers[i].call == c && c in s.db.calls
    ensures Finished(Run(s, later).db, c)
  {
    later := EndAtOnce(s, Advance(i, Err("")), c);
  }

  lemma {:induction false} EndClaiming(s: State, i: nat, c: Id) returns (later: seq<Action>)
    requires i < |s.drivers| && s.drivers[i].Claiming? && s.drivers[i].call == c
    requires c in s.db.calls && s.db.calls[c].status == s.drivers[i].expected
    ensures Finished(Run(s, later).db, c)
  {
    var rest := EndExecuting(Step(s, Advance(i, Err(""))), i, c);
    RunAfter(s, Advance(i, Err("")), rest);
    later := [Advance(i, Err(""))] + rest;
  }

  lemma {:induction false} RefusalEnds(s: State, a: Id, c: Id)
    requires c in s.db.calls && s.db.calls[c].status.ApprovalRequired?
    requires a in s.db.approvals && s.db.approvals[a].call == c && s.db.approvals[a].verdict.status.Pending?
    ensures Finished(Step(s, Resolve(a, Verdict(ApprovalStatus.Denied, Once))).db, c)
  {
    var v := Verdict(ApprovalStatus.Denied, Once);
    RefusalWrites(s.db, a, v);
    var d' := CommitVerdict(s.db, a, v).value;
    EvidenceAppended(s.db, d', d'.evidence[|s.db.evidence|], c);
  }

  lemma {:induction false} ApprovedStarts(s: State, a: Id, c: Id) returns (tool: Tool)
    requires c in s.db.calls && s.db.calls[c].status.ApprovalRequired?
    requires a in s.db.approvals && s.db.approvals[a].call == c && s.db.approvals[a].verdict.status.Approved?
    ensures var t := Step(s, RunApproved(c, tool, true));
      t.db == s.db && t.drivers == s.drivers + [Claiming(c, tool, CallStatus.ApprovalRequired)]
  {
    tool := Tool(s.db.calls[c].tool, s.db.calls[c].capability, NoEvidence);
    assert FindsApproved(s.db.approvals, c);
  }

  lemma {:induction false} EndWaiting(s: State, c: Id) returns (later: seq<Action>)
    requires Inv(s) && c in s.db.calls && s.db.calls[c].status.ApprovalRequired?
    ensures Finished(Run(s, later).db, c)
  {
    assert CallOk(s, c);
    var a :| Waits(s.db, c, a);
    if s.db.approvals[a].verdict.status.Pending? {
      RefusalEnds(s, a, c);
      later := EndAtOnce(s, Resolve(a, Verdict(ApprovalStatus.Denied, Once)), c);
    } else {
      var tool := ApprovedStarts(s, a, c);
      var rest := EndClaiming(Step(s, RunApproved(c, tool, true)), |s.drivers|, c);
      RunAfter(s, RunApproved(c, tool, true), rest);
      later := [RunApproved(c, tool, true)] + rest;
    }
  }

  lemma {:induction false} EndApproving(s: State, i: nat, c: Id) returns (later: seq<Action>)
    requires Inv(s) && i < |s.drivers| && s.drivers[i].Approving? && s.drivers[i].call == c && c in s.db.calls
    ensures Finished(Run(s, later).db, c)
  {
    var a := Advance(i, Err(""));
    StepKeeps(s, a);
    var rest := EndWaiting(Step(s, a), c);
    RunAfter(s, a, rest);
    later := [a] + rest;
  }

  lemma {:induction false} DecidedDriver(s: State, i: nat)
    requires i < |s.drivers| && s.drivers[i].Enqueued? && s.drivers[i].call in s.db.calls
    ensures var t, c := Decide(s, i), s.drivers[i].call;
      && i < |t.drivers| && t.drivers[i].call == c
      && (t.drivers[i].ErrorEvidence? || t.drivers[i].DenialEvidence? || t.drivers[i].Approving?
          || (t.drivers[i].Claiming? && t.drivers[i].expected.Pending?))
  {
  }

  lemma {:induction false} DecidedRow(s: State, i: nat)
    requires i < |s.drivers| && s.drivers[i].Enqueued? && s.drivers[i].call in s.db.calls
    ensures var t, c := Decide(s, i), s.drivers[i].call;
      && c in t.db.calls && i < |t.drivers|
      && (t.drivers[i].ErrorEvidence? || t.drivers[i].DenialEvidence? ==> FinalStatus(t.db.calls[c].status))
      && (t.drivers[i].Claiming? ==> t.db == s.db)
  {
  }

  lemma {:induction false} EndEnqueued(s: State, i: nat, c: Id) returns (later: seq<Action>)
    requires Inv(s) && i < |s.drivers| && s.drivers[i].Enqueued? && s.drivers[i].call == c && c in s.db.calls
    ensures Finished(Run(s, later).db, c)
  {
    var a := Advance(i, Err(""));
    var t := Step(s, a);
    assert DriverOk(s, s.drivers[i]) && t == Decide(s, i);
    DecidedDriver(s, i);
    DecidedRow(s, i);
    StepKeeps(s, a);
    var rest;
    if Attesting(t.drivers[i]) {
      FinishedIsStatus(t.db, c);
      rest := [];
      assert Run(t, []) == t;
    } else if t.drivers[i].Approving? {
      rest := EndApproving(t, i, c);
    } else {
      rest := EndClaiming(t, i, c);
    }
    RunAfter(s, a, rest);
    later := [a] + rest;
  }

  /** An owner's next transactions end the call, one way or another. */
  lemma {:induction false} EndOwned(s: State, i: nat, c: Id) returns (later: seq<Action>)
    requires Inv(s) && !Finished(s.db, c) && i < |s.drivers| && Owner(s.drivers[i]) == Some(c)
    ensures Finished(Run(s, later).db, c)
  {
    assert DriverOk(s, s.drivers[i]);
    FinishedIsStatus(s.db, c);
    match s.drivers[i] {
      case Enqueued(_, _, _) => later := EndEnqueued(s, i, c);
      case Approving(_, _) => later := EndApproving(s, i, c);
      case Claiming(_, _, _) => later := EndClaiming(s, i, c);
      case Executing(_, _) => later := EndExecuting(s, i, c);
      case _ => assert false;
    }
  }

  ghost predicate CanEnd(s: State, c: Id) {
    exists later: seq<Action> :: Finished(Run(s, later).db, c)
  }

  lemma {:induction false} MayIsCan(s: State, c: Id)
    requires Inv(s) && c in s.db.calls && !Finished(s.db, c) && MayEnd(s, c)
    ensures CanEnd(s, c)
  {
    if s.db.calls[c].status.ApprovalRequired? {
      var later := EndWaiting(s, c);
    } else {
      var i :| 0 <= i < |s.drivers| && Owner(s.drivers[i]) == Some(c);
      var later := EndOwned(s, i, c);
    }
  }

  /** A call that has not ended still can, exactly if a driver owns it or its approval is still to act on it. */
  lemma {:induction false} EndsExactly(s: State, c: Id)
    requires Inv(s) && c in s.db.calls && !Finished(s.db, c)
    ensures CanEnd(s, c) <==> MayEnd(s, c)
  {
    if MayEnd(s, c) {
      MayIsCan(s, c);
    } else {
      forall later: seq<Action>
        ensures !Finished(Run(s, later).db, c)
      {
        StuckForEver(s, later, c);
      }
    }
  }

  // ----- exactly which stored answers hold ---------------------------------------------------

  /** Paying the evidence changes what a replay returns, and the call stays finished. */
  lemma {:induction false} PayingChanges(s: State, c: Id) returns (a: Action)
    requires Inv(s) && EvidenceOwed(s, c)
    ensures c in s.db.calls && Finished(Step(s, a).db, c)
    ensures ReplayTerminal(Step(s, a).db, c) != ReplayTerminal(s.db, c)
  {
    var j :| 0 <= j < |s.drivers| && Attests(s.drivers[j], c) && Owes(s.drivers[j]);
    a := Advance(j, Err(""));
    EarlyReplayExactly(s, j, Err(""));
    FirstCompletion(s, j, Err(""));
  }

  ghost predicate AlwaysConfirms(s: State, c: Id, b: Transcript.Body) {
    forall later: seq<Action> :: Confirms(Run(s, later), c, b)
  }

  ghost predicate CanContradict(s: State, c: Id, b: Transcript.Body) {
    exists later: seq<Action> :: Contradicts(Run(s, later), c, b)
  }

  lemma {:induction false} OneOrTheOther(s: State, c: Id, b: Transcript.Body)
    ensures !(AlwaysConfirms(s, c, b) && CanContradict(s, c, b))
    ensures AlwaysConfirms(s, c, b) ==> Finished(s.db, c)
  {
    assert Run(s, []) == s;
    if AlwaysConfirms(s, c, b) { assert Confirms(Run(s, []), c, b); }
  }

  lemma {:induction false} SteadyConfirms(s: State, c: Id, b: Transcript.Body)
    requires Inv(s) && Finished(s.db, c) && !EvidenceOwed(s, c) && Recalls(b) == ReplayTerminal(s.db, c)
    ensures AlwaysConfirms(s, c, b)
  {
    forall later: seq<Action>
      ensures Confirms(Run(s, later), c, b)
    {
      SteadyRun(s, later, c);
    }
  }

  lemma {:induction false} OwedContradicts(s: State, c: Id, b: Transcript.Body)
    requires Inv(s) && EvidenceOwed(s, c) && c in s.db.calls && Recalls(b) == ReplayTerminal(s.db, c)
    ensures CanContradict(s, c, b)
  {
    var a := PayingChanges(s, c);
    RunAfter(s, a, []);
    assert Run(Step(s, a), []) == Step(s, a);
    assert Contradicts(Run(s, [a] + []), c, b);
  }

  lemma {:induction false} UnfinishedContradicts(s: State, c: Id, b: Transcript.Body)
    requires c in s.db.calls && !Finished(s.db, c) && Recalls(b) == ReplayTerminal(s.db, c)
    ensures CanContradict(s, c, b) <==> CanEnd(s, c)
  {
    if later: seq<Action> :| Finished(Run(s, later).db, c) {
      assert Contradicts(Run(s, later), c, b);
    }
  }

  /**
    An answer that a recovery stores equals every later replay of its call, whatever happens, exactly if the
    call has succeeded, failed or been denied and no driver owes it evidence.
   */
  lemma {:induction false} AnswerHoldsExactly(s: State, rows: seq<Transcript.Entry>, e: Transcript.Entry, b: Transcript.Body)
    requires Inv(s) && Stores(e, rows, s.db, b)
    ensures AlwaysConfirms(s, e.body.call, b) <==> Finished(s.db, e.body.call) && !EvidenceOwed(s, e.body.call)
  {
    var c := e.body.call;
    StoredRecalls(e, rows, s.db, b);
    OneOrTheOther(s, c, b);
    if EvidenceOwed(s, c) {
      OwedContradicts(s, c, b);
    } else if Finished(s.db, c) {
      SteadyConfirms(s, c, b);
    }
  }

  /**
    And some later end of the call contradicts it exactly if evidence is owed, or the call has not ended and
    still may: a driver owns it, or its approval is still to act on it. Of all other calls, "approved but never
    executed" and "interrupted" stay true for ever.
   */
  lemma {:induction false} AnswerIsContradictedExactly(s: State, rows: seq<Transcript.Entry>, e: Transcript.Entry,
      b: Transcript.Body)
    requires Inv(s) && Stores(e, rows, s.db, b)
    ensures CanContradict(s, e.body.call, b)
      <==> (EvidenceOwed(s, e.body.call) || (!Finished(s.db, e.body.call) && MayEnd(s, e.body.call)))
  {
    var c := e.body.call;
    StoredRecalls(e, rows, s.db, b);
    OneOrTheOther(s, c, b);
    if EvidenceOwed(s, c) {
      OwedContradicts(s, c, b);
    } else if Finished(s.db, c) {
      SteadyConfirms(s, c, b);
    } else {
      EndsExactly(s, c);
      UnfinishedContradicts(s, c, b);
    }
  }

  // ----- a recovery that comes too early, from the start -------------------------------------

  /** Approval `a` of call 0 has this status. */
  predicate ApprovalOf0(d: Db, a: Id, st: ApprovalStatus) {
    a in d.approvals && d.approvals[a].call == 0 && d.approvals[a].verdict.status == st
  }

  predicate Call0(d: Db, tool: Tool, st: CallStatus) {
    0 in d.calls && Matches(d.calls[0], tool) && d.calls[0].status == st
  }

  lemma {:induction false} AskedForApproval(s: State, tool: Tool)
    requires s.drivers == [Enqueued(0, tool, None)] && Call0(s.db, tool, CallStatus.Pending)
    requires Asks(s.db.policy, tool.name, tool.capability)
    ensures var t, a := Step(s, Advance(0, Err(""))), s.db.nextId;
      t.drivers == [Approving(0, a)] && Call0(t.db, tool, CallStatus.Pending) && ApprovalOf0(t.db, a, ApprovalStatus.Pending)
  {
  }

  lemma {:induction false} MarkedWaiting(s: State, tool: Tool, a: Id)
    requires s.drivers == [Approving(0, a)] && Call0(s.db, tool, CallStatus.Pending)
    requires ApprovalOf0(s.db, a, ApprovalStatus.Pending)
    ensures var t := Step(s, Advance(0, Err("")));
      && |t.drivers| == 1 && Call0(t.db, tool, CallStatus.ApprovalRequired)
      && ApprovalOf0(t.db, a, ApprovalStatus.Pending)
  {
  }

  lemma {:induction false} GivenApproval(s: State, tool: Tool, a: Id)
    requires Call0(s.db, tool, CallStatus.ApprovalRequired) && ApprovalOf0(s.db, a, ApprovalStatus.Pending)
    ensures var t := Step(s, Resolve(a, Verdict(ApprovalStatus.Approved, Once)));
      && t.drivers == s.drivers && Call0(t.db, tool, CallStatus.ApprovalRequired)
      && ApprovalOf0(t.db, a, ApprovalStatus.Approved)
  {
  }

  lemma {:induction false} StartedOnceApproved(s: State, tool: Tool, a: Id)
    requires Call0(s.db, tool, CallStatus.ApprovalRequired) && ApprovalOf0(s.db, a, ApprovalStatus.Approved)
    ensures Step(s, RunApproved(0, tool, true)).db == s.db
    ensures Step(s, RunApproved(0, tool, true)).drivers == s.drivers + [Claiming(0, tool, CallStatus.ApprovalRequired)]
  {
    assert FindsApproved(s.db.approvals, 0);
  }

  lemma {:induction false} ClaimedByApproval(s: State, tool: Tool, a: Id)
    requires |s.drivers| == 2 && s.drivers[1] == Claiming(0, tool, CallStatus.ApprovalRequired)
    requires Call0(s.db, tool, CallStatus.ApprovalRequired) && ApprovalOf0(s.db, a, ApprovalStatus.Approved)
    ensures var t := Step(s, Advance(1, Err("")));
      && |t.drivers| == 2 && t.drivers[1] == Executing(0, tool) && Call0(t.db, tool, CallStatus.Running)
      && ApprovalOf0(t.db, a, ApprovalStatus.Approved)
  {
  }

  lemma {:induction false} SucceedsLater(s: State, tool: Tool, output: string)
    requires |s.drivers| == 2 && s.drivers[1] == Executing(0, tool) && Call0(s.db, tool, CallStatus.Running)
    ensures var t := Step(s, Advance(1, Ok(Success(output))));
      0 in t.db.calls && t.db.calls[0].status.Succeeded? && t.db.calls[0].result == Some(Success(output))
  {
  }

  /** Enqueued, asked about, approved, claimed by `runApproved`: the body is running. */
  function Approved0(policy: Policy, run: Id, tool: Tool, args: string): State {
    var waiting := Step(Step(Enqueued0(policy, run, tool, args), Advance(0, Err(""))), Advance(0, Err("")));
    var approved := Step(waiting, Resolve(Enqueued0(policy, run, tool, args).db.nextId, Verdict(ApprovalStatus.Approved, Once)));
    Step(Step(approved, RunApproved(0, tool, true)), Advance(1, Err("")))
  }

  lemma {:induction false} RunsApproved0(policy: Policy, run: Id, tool: Tool, args: string)
    requires Asks(policy, tool.name, tool.capability)
    ensures var s, a := Approved0(policy, run, tool, args), Enqueued0(policy, run, tool, args).db.nextId;
      && |s.drivers| == 2 && s.drivers[1] == Executing(0, tool) && Call0(s.db, tool, CallStatus.Running)
      && ApprovalOf0(s.db, a, ApprovalStatus.Approved)
  {
    var s1 := Enqueued0(policy, run, tool, args);
    var a := s1.db.nextId;
    FirstEnqueued(policy, run, tool, args);
    AskedForApproval(s1, tool);
    var s2 := Step(s1, Advance(0, Err("")));
    MarkedWaiting(s2, tool, a);
    var s3 := Step(s2, Advance(0, Err("")));
    GivenApproval(s3, tool, a);
    var s4 := Step(s3, Resolve(a, Verdict(ApprovalStatus.Approved, Once)));
    StartedOnceApproved(s4, tool, a);
    ClaimedByApproval(Step(s4, RunApproved(0, tool, true)), tool, a);
  }

  /** The rows of a turn that asked for one call and waits for its approval. */
  function WaitingRows(name: string, id: string, a: Id): seq<Transcript.Entry> {
    [Transcript.Asked(Transcript.Words(""), [id]), Transcript.Replied(name, id, Transcript.Waiting(0, Some(a)))]
  }

  lemma {:induction false} EarlyRebuild(d: Db, tool: Tool, a: Id, name: string, id: string)
    requires Call0(d, tool, CallStatus.Running) && ApprovalOf0(d, a, ApprovalStatus.Approved)
    ensures var rows, answer := WaitingRows(name, id, a), Transcript.Replied(name, id, Transcript.NeverExecuted(a));
      Transcript.Rebuild(rows, rows, d) == Transcript.Rebuilt([rows[0], answer], [answer], [])
  {
    var rows := WaitingRows(name, id, a);
    assert rows[..1] == [rows[0]] && [rows[0]][..0] == [];
    assert !Transcript.HasFinal(rows, id);
    var first := Transcript.Rebuild([], rows, d);
    assert Transcript.Rebuild([rows[0]], rows, d) == Transcript.Follow(first, rows[0], Transcript.Kept);
    assert Transcript.FateOf(rows[1], Transcript.Answered(rows, rows[1]), d)
      == Transcript.Replaced(Transcript.NeverExecuted(a));
  }

  /** While the approved call runs, a recovery answers its placeholder, for good. */
  lemma {:induction false} EarlyAnswer(d: Db, later: Db, tool: Tool, a: Id, name: string, id: string)
    requires Call0(d, tool, CallStatus.Running) && ApprovalOf0(d, a, ApprovalStatus.Approved) && id != ""
    ensures var rows, answer := WaitingRows(name, id, a), Transcript.Replied(name, id, Transcript.NeverExecuted(a));
      && Transcript.Rebuild(rows, rows, d) == Transcript.Rebuilt([rows[0], answer], [answer], [])
      && Transcript.Rebuild(rows + [answer], rows + [answer], later).persist == []
  {
    var rows := WaitingRows(name, id, a);
    EarlyRebuild(d, tool, a, name, id);
    TranscriptTheorems.LaterRecoveriesAreIdle(rows, d);
  }

  /**
    A recovery between the claim of an approved call and its end stores that the call was never executed. The call
    then succeeds, and no later recovery says so.
   */
  lemma {:induction false} RecoveredTooEarly(policy: Policy, run: Id, tool: Tool, args: string, output: string,
      name: string, id: string)
    requires Asks(policy, tool.name, tool.capability) && id != ""
    ensures var s, a := Approved0(policy, run, tool, args), Enqueued0(policy, run, tool, args).db.nextId;
      var t := Step(s, Advance(1, Ok(Success(output))));
      var rows, answer := WaitingRows(name, id, a), Transcript.Replied(name, id, Transcript.NeverExecuted(a));
      && Transcript.Rebuild(rows, rows, s.db).persist == [answer]
      && 0 in t.db.calls && ReplayTerminal(t.db, 0) == Replayed(CallSuccess(0, Success(output),
           LatestEvidence(t.db.evidence, 0, ToolResultKind)))
      && forall later: Db :: Transcript.Rebuild(rows + [answer], rows + [answer], later).persist == []
  {
    var s, a := Approved0(policy, run, tool, args), Enqueued0(policy, run, tool, args).db.nextId;
    var rows, answer := WaitingRows(name, id, a), Transcript.Replied(name, id, Transcript.NeverExecuted(a));
    RunsApproved0(policy, run, tool, args);
    SucceedsLater(s, tool, output);
    EarlyAnswer(s.db, s.db, tool, a, name, id);
    forall later: Db
      ensures Transcript.Rebuild(rows + [answer], rows + [answer], later).persist == []
    {
      EarlyAnswer(s.db, later, tool, a, name, id);
    }
  }
}
