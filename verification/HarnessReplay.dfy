/**
  The window between the two transactions that end a call: its status is written, its evidence is not yet.
  What a replay returns in it, what a crash in it leaves behind, and exactly when a replay is the outcome of
  the driver that completed the call.
 */
module HarnessReplay {
  import opened Common
  import opened Journal
  import opened HarnessStore
  import opened HarnessPolicy
  import opened HarnessProtocol
  import opened HarnessInvariant
  import opened HarnessSafety
  import opened HarnessTheorems

  /** In the window: the driver has written the status and is to write the evidence. */
  predicate Attests(dr: Driver, c: Id) {
    Attesting(dr) && dr.call == c
  }

  /** Died in the window. */
  predicate Tore(dr: Driver, c: Id) {
    dr.Dead? && Attests(dr.was, c)
  }

  /** Completed the call and returned its outcome. */
  predicate Gave(dr: Driver, c: Id) {
    dr.Returned? && !dr.outcome.CallWaiting? && dr.outcome.call == c
  }

  /** An approval decision denied the call; that transaction writes its evidence along. */
  ghost predicate Refused(d: Db, c: Id) {
    exists a :: a in d.approvals && IsRefusal(d.approvals[a], c)
  }

  predicate IsRefusal(row: ApprovalRow, c: Id) {
    row.call == c && (row.verdict.status.Denied? || row.verdict.status.Expired?)
  }

  predicate Finished(d: Db, c: Id) {
    c in d.calls && !ReplayTerminal(d, c).NotTerminal?
  }

  predicate FinalStatus(st: CallStatus) {
    st.Succeeded? || st.Failed? || st.Denied?
  }

  lemma {:induction false} FinishedIsStatus(d: Db, c: Id)
    ensures Finished(d, c) <==> c in d.calls && FinalStatus(d.calls[c].status)
  {
  }

  /** The driver still owes the call a row of evidence. */
  predicate Owes(dr: Driver) {
    !(dr.ResultEvidence? && dr.tool.evidence.NoEvidence?)
  }

  /** What a replay finds of a call as long as its evidence is missing. */
  function Bare(dr: Driver): Replay
    requires Attesting(dr)
  {
    match dr
    case ResultEvidence(c, _, result) => Replayed(CallSuccess(c, result, None))
    case ErrorEvidence(c, message, failure) => Replayed(CallFailure(c, message, failure, None))
    case DenialEvidence(_, _) => ReplayThrows
  }

  // ----- inside the window -------------------------------------------------------------------

  lemma {:induction false} WindowReplay(s: State, i: nat)
    requires Inv(s) && i < |s.drivers| && Attesting(s.drivers[i])
    ensures var c := s.drivers[i].call; Finished(s.db, c) && ReplayTerminal(s.db, c) == Bare(s.drivers[i])
  {
    assert DriverOk(s, s.drivers[i]);
  }

  /** In the window a replay equals what the completing driver is about to return exactly if no evidence is owed. */
  lemma {:induction false} EarlyReplayExactly(s: State, i: nat, body: BodyResult)
    requires Inv(s) && i < |s.drivers| && Attesting(s.drivers[i])
    ensures var c, done := s.drivers[i].call, Step(s, Advance(i, body)).drivers[i];
      && c in s.db.calls && done.Returned? && Gave(done, c)
      && (ReplayTerminal(s.db, c) == Replayed(done.outcome) <==> !Owes(s.drivers[i]))
  {
    WindowReplay(s, i);
  }

  // ----- what a decision writes ---------------------------------------------------------------

  /** A pending approval becomes an approved one and nothing else of note changes. */
  ghost predicate Consents(d: Db, d': Db, approval: Id, v: Verdict) {
    && approval in d.approvals && v.status.Approved?
    && d'.calls == d.calls && d'.evidence == d.evidence
    && d'.approvals == d.approvals[approval := d.approvals[approval].(verdict := v)]
  }

  /** A pending approval is refused, its waiting call denied and the denial attested. */
  ghost predicate Refuses(d: Db, d': Db, approval: Id, v: Verdict) {
    && approval in d.approvals && d.approvals[approval].verdict.status.Pending? && !v.status.Approved? && !v.status.Pending?
    && ResolveApproval(d, approval, v).Ok?
    && d'.approvals == d.approvals[approval := d.approvals[approval].(verdict := v)]
    && var c := d.approvals[approval].call;
      && c in d.calls && d.calls[c].status.ApprovalRequired? && c in d'.calls && d'.calls[c].status.Denied?
      && d'.calls == d.calls[c := d'.calls[c]]
      && d'.evidence == d.evidence
           + [EvidenceRow(d.nextId, d.calls[c].run, DenialKind, c, DenialMessage(d.calls[c].tool, v.status))]
  }

  lemma {:induction false} ResolveWrites(s: State, approval: Id, v: Verdict)
    requires Inv(s)
    ensures var t := Step(s, Resolve(approval, v));
      t.drivers == s.drivers
      && (t.db == s.db || Consents(s.db, t.db, approval, v) || Refuses(s.db, t.db, approval, v))
  {
    if approval in s.db.approvals && s.db.approvals[approval].verdict.status.Pending? {
      assert ApprovalOk(s.db, approval);
      if !v.status.Approved? && ResolveApproval(s.db, approval, v).Ok? {
        RefusalWrites(s.db, approval, v);
      }
    }
  }

  // ----- a finished call stays what it is ----------------------------------------------------

  lemma {:induction false} FinishedAdvance(s: State, i: nat, body: BodyResult, c: Id)
    requires Inv(s) && Finished(s.db, c) && i < |s.drivers| && Active(s.drivers[i]) && s.drivers[i].call in s.db.calls
    requires !Attests(s.drivers[i], c)
    ensures SameReplay(s.db, AdvanceDriver(s, i, body).db, c)
  {
    if s.drivers[i].call != c {
      AdvanceTouchesOwnCall(s, i, body, c);
    } else {
      FinishedIsStatus(s.db, c);
      assert DriverOk(s, s.drivers[i]);
      assert s.drivers[i].Claiming? && s.drivers[i].expected.ApprovalRequired?;
    }
  }

  lemma {:induction false} FinishedResolve(d: Db, d': Db, approval: Id, v: Verdict, c: Id)
    requires Finished(d, c) && (d' == d || Consents(d, d', approval, v) || Refuses(d, d', approval, v))
    ensures SameReplay(d, d', c)
  {
    FinishedIsStatus(d, c);
    if Refuses(d, d', approval, v) {
      EvidenceAppended(d, d', d'.evidence[|d.evidence|], c);
    }
  }

  lemma {:induction false} FinishedOther(s: State, a: Action, c: Id)
    requires IdsOk(s.db) && Finished(s.db, c) && !a.Advance? && !a.Resolve?
    ensures SameReplay(s.db, Step(s, a).db, c)
  {
    FinishedIsStatus(s.db, c);
    match a {
      case Recover(seen) => RecoverFrame(s.db, seen, c);
      case AddModelError(_, _, _) =>
        var d' := Step(s, a).db;
        EvidenceAppended(s.db, d', d'.evidence[|s.db.evidence|], c);
      case _ =>
    }
  }

  /** Only the driver that owes the evidence changes what a finished call replays as. */
  lemma {:induction false} FinishedStep(s: State, a: Action, c: Id)
    requires Inv(s) && Finished(s.db, c)
    requires a.Advance? && a.driver < |s.drivers| ==> !Attests(s.drivers[a.driver], c)
    ensures Finished(Step(s, a).db, c) && SameReplay(s.db, Step(s, a).db, c)
  {
    match a {
      case Advance(i, body) =>
        if i < |s.drivers| && Active(s.drivers[i]) && s.drivers[i].call in s.db.calls {
          FinishedAdvance(s, i, body, c);
        }
      case Resolve(approval, v) =>
        ResolveWrites(s, approval, v);
        FinishedResolve(s.db, Step(s, a).db, approval, v, c);
      case _ => FinishedOther(s, a, c);
    }
    SameReplayReplaysSame(s.db, Step(s, a).db, c);
  }

  // ----- who accounts for a finished call ----------------------------------------------------

  ghost predicate AnyGave(drivers: seq<Driver>, c: Id) {
    exists j :: 0 <= j < |drivers| && Gave(drivers[j], c)
  }

  ghost predicate AnyTore(drivers: seq<Driver>, c: Id) {
    exists j :: 0 <= j < |drivers| && Tore(drivers[j], c)
  }

  ghost predicate AnyAttests(drivers: seq<Driver>, c: Id) {
    exists j :: 0 <= j < |drivers| && Attests(drivers[j], c)
  }

  /**
    What was returned is what a replay returns; a torn call replays without its evidence; and a settled call
    was completed, torn or refused, torn excluding the others.
   */
  ghost predicate Accounted(s: State, c: Id) {
    && (forall j :: 0 <= j < |s.drivers| && Gave(s.drivers[j], c) ==>
          Settled(s, c) && ReplayTerminal(s.db, c) == Replayed(s.drivers[j].outcome))
    && (forall j :: 0 <= j < |s.drivers| && Tore(s.drivers[j], c) ==>
          Settled(s, c) && ReplayTerminal(s.db, c) == Bare(s.drivers[j].was))
    && (AnyTore(s.drivers, c) ==> !Refused(s.db, c) && !AnyGave(s.drivers, c))
    && (Settled(s, c) ==> Refused(s.db, c) || AnyGave(s.drivers, c) || AnyTore(s.drivers, c))
  }

  predicate SameRole(x: Driver, y: Driver, c: Id) {
    && (Gave(x, c) || Gave(y, c) ==> x == y)
    && (Tore(x, c) || Tore(y, c) ==> x == y)
  }

  predicate NoRole(dr: Driver, c: Id) {
    !Gave(dr, c) && !Tore(dr, c)
  }

  ghost predicate SameRoles(s: State, s': State, c: Id) {
    && |s.drivers| <= |s'.drivers|
    && (forall j :: 0 <= j < |s.drivers| ==> SameRole(s.drivers[j], s'.drivers[j], c))
    && (forall j :: |s.drivers| <= j < |s'.drivers| ==> NoRole(s'.drivers[j], c))
  }

  lemma {:induction false} RolesStay(s: State, s': State, c: Id)
    requires SameRoles(s, s', c)
    ensures AnyGave(s'.drivers, c) <==> AnyGave(s.drivers, c)
    ensures AnyTore(s'.drivers, c) <==> AnyTore(s.drivers, c)
  {
    if j :| 0 <= j < |s.drivers| && Gave(s.drivers[j], c) { assert SameRole(s.drivers[j], s'.drivers[j], c); }
    if j :| 0 <= j < |s.drivers| && Tore(s.drivers[j], c) { assert SameRole(s.drivers[j], s'.drivers[j], c); }
    if j :| 0 <= j < |s'.drivers| && Gave(s'.drivers[j], c) { assert j < |s.drivers| && Gave(s.drivers[j], c); }
    if j :| 0 <= j < |s'.drivers| && Tore(s'.drivers[j], c) { assert j < |s.drivers| && Tore(s.drivers[j], c); }
  }

  /** A step that plays no part in the call's end keeps the account. */
  lemma {:induction false} AccountStays(s: State, s': State, c: Id)
    requires Accounted(s, c) && SameRoles(s, s', c) && (Refused(s'.db, c) <==> Refused(s.db, c))
    requires Settled(s, c) <==> Settled(s', c)
    requires Settled(s, c) ==> ReplayTerminal(s'.db, c) == ReplayTerminal(s.db, c)
    ensures Accounted(s', c)
  {
    RolesStay(s, s', c);
    forall j | 0 <= j < |s'.drivers| && (Gave(s'.drivers[j], c) || Tore(s'.drivers[j], c))
      ensures j < |s.drivers| && s.drivers[j] == s'.drivers[j]
    {
      assert j < |s.drivers| ==> SameRole(s.drivers[j], s'.drivers[j], c);
    }
  }

  // ----- the account, step by step -----------------------------------------------------------

  /** The decision that denies the call's waiting approval, if it is accepted. */
  ghost predicate RefusesNow(s: State, a: Action, c: Id) {
    && a.Resolve? && a.approval in s.db.approvals && s.db.approvals[a.approval].call == c
    && s.db.approvals[a.approval].verdict.status.Pending? && !a.verdict.status.Approved?
    && ResolveApproval(s.db, a.approval, a.verdict).Ok?
  }

  /** The action takes the call's attesting driver a step further, or kills it. */
  predicate EndsWindow(s: State, a: Action, c: Id) {
    (a.Advance? || a.Crash?) && a.driver < |s.drivers| && Attests(s.drivers[a.driver], c)
  }

  lemma {:induction false} FinishedOwnerAttests(s: State, j: nat, c: Id)
    requires Inv(s) && Finished(s.db, c) && j < |s.drivers| && Owner(s.drivers[j]) == Some(c)
    ensures Attests(s.drivers[j], c)
  {
    FinishedIsStatus(s.db, c);
    assert DriverOk(s, s.drivers[j]);
  }

  lemma {:induction false} AdvanceRole(s: State, i: nat, body: BodyResult, c: Id)
    requires i < |s.drivers| && Active(s.drivers[i]) && s.drivers[i].call in s.db.calls && !Attests(s.drivers[i], c)
    ensures var t := AdvanceDriver(s, i, body);
      t.drivers == s.drivers[i := t.drivers[i]] && NoRole(s.drivers[i], c) && NoRole(t.drivers[i], c)
  {
  }

  lemma {:induction false} StartedRole(d: Db, call: Id, tool: Tool, argsValid: bool, c: Id)
    ensures NoRole(StartApproved(d, call, tool, argsValid), c)
  {
  }

  lemma {:induction false} RolesStep(s: State, a: Action, c: Id)
    requires !EndsWindow(s, a, c)
    ensures SameRoles(s, Step(s, a), c)
  {
    match a {
      case Advance(i, body) =>
        if i < |s.drivers| && Active(s.drivers[i]) && s.drivers[i].call in s.db.calls { AdvanceRole(s, i, body, c); }
      case RunApproved(call, tool, argsValid) => StartedRole(s.db, call, tool, argsValid, c);
      case _ =>
    }
  }

  lemma {:induction false} AdvanceKeepsRefused(s: State, i: nat, body: BodyResult, a: Id, c: Id)
    requires i < |s.drivers| && Active(s.drivers[i]) && s.drivers[i].call in s.db.calls
    requires a in AdvanceDriver(s, i, body).db.approvals && IsRefusal(AdvanceDriver(s, i, body).db.approvals[a], c)
    ensures a in s.db.approvals && IsRefusal(s.db.approvals[a], c)
  {
  }

  lemma {:induction false} ResolveAddsRefusal(d: Db, d': Db, approval: Id, v: Verdict, x: Id, c: Id)
    requires d' == d || Consents(d, d', approval, v) || (Refuses(d, d', approval, v) && d.approvals[approval].call != c)
    requires x in d'.approvals && IsRefusal(d'.approvals[x], c)
    ensures x in d.approvals && IsRefusal(d.approvals[x], c)
  {
  }

  lemma {:induction false} RefusalIsOld(s: State, a: Action, x: Id, c: Id)
    requires Inv(s) && !RefusesNow(s, a, c)
    requires x in Step(s, a).db.approvals && IsRefusal(Step(s, a).db.approvals[x], c)
    ensures x in s.db.approvals && IsRefusal(s.db.approvals[x], c)
  {
    match a {
      case Advance(i, body) =>
        if i < |s.drivers| && Active(s.drivers[i]) && s.drivers[i].call in s.db.calls {
          AdvanceKeepsRefused(s, i, body, x, c);
        }
      case Resolve(approval, v) =>
        ResolveWrites(s, approval, v);
        ResolveAddsRefusal(s.db, Step(s, a).db, approval, v, x, c);
      case Recover(seen) => RecoverLeavesApprovals(s.db, seen);
      case Enqueue(_, _, _, _, _) =>
      case RunApproved(_, _, _) =>
      case Crash(_) =>
      case _ => BookkeepingKeepsApprovals(s.db, a);
    }
  }

  lemma {:induction false} RefusedStep(s: State, a: Action, c: Id)
    requires Inv(s) && !RefusesNow(s, a, c)
    ensures Refused(Step(s, a).db, c) <==> Refused(s.db, c)
  {
    if Refused(s.db, c) {
      var x :| x in s.db.approvals && IsRefusal(s.db.approvals[x], c);
      DecidedStaysDecided(s, a, x);
    }
    if Refused(Step(s, a).db, c) {
      var x :| x in Step(s, a).db.approvals && IsRefusal(Step(s, a).db.approvals[x], c);
      RefusalIsOld(s, a, x, c);
    }
  }

  lemma {:induction false} AdvanceFinishes(s: State, i: nat, body: BodyResult, c: Id)
    requires Inv(s) && i < |s.drivers| && Active(s.drivers[i]) && s.drivers[i].call in s.db.calls
    requires !Finished(s.db, c) && Finished(AdvanceDriver(s, i, body).db, c)
    ensures Attests(AdvanceDriver(s, i, body).drivers[i], c)
  {
    var t := AdvanceDriver(s, i, body);
    FinishedIsStatus(s.db, c);
    FinishedIsStatus(t.db, c);
    assert DriverOk(s, s.drivers[i]);
    if c in s.db.calls && c != s.drivers[i].call { AdvanceTouchesOwnCall(s, i, body, c); }
  }

  lemma {:induction false} ResolveFinishes(d: Db, d': Db, approval: Id, v: Verdict, c: Id)
    requires d' == d || Consents(d, d', approval, v) || (Refuses(d, d', approval, v) && d.approvals[approval].call != c)
    requires !Finished(d, c)
    ensures !Finished(d', c)
  {
    FinishedIsStatus(d, c);
    FinishedIsStatus(d', c);
  }

  lemma {:induction false} RecoverFinishes(d: Db, seen: seq<Id>, c: Id)
    requires !Finished(d, c)
    ensures !Finished(RecoverInterrupted(d, seen), c)
  {
    FinishedIsStatus(d, c);
    if seen != [] {
      var before := RecoverInterrupted(d, seen[..|seen| - 1]);
      RecoverFinishes(d, seen[..|seen| - 1], c);
      FinishedIsStatus(before, c);
      FinishedIsStatus(RecoverInterrupted(d, seen), c);
    }
  }

  lemma {:induction false} BookkeepingKeepsCalls(d: Db, a: Action)
    requires Bookkeeping(a)
    ensures Bookkeep(d, a).calls == d.calls
  {
  }

  lemma {:induction false} OtherStepFinishes(s: State, a: Action, c: Id)
    requires Inv(s) && !a.Advance? && !RefusesNow(s, a, c) && !Finished(s.db, c)
    ensures !Finished(Step(s, a).db, c)
  {
    FinishedIsStatus(s.db, c);
    FinishedIsStatus(Step(s, a).db, c);
    match a {
      case Resolve(approval, v) =>
        ResolveWrites(s, approval, v);
        ResolveFinishes(s.db, Step(s, a).db, approval, v, c);
      case Recover(seen) => RecoverFinishes(s.db, seen, c);
      case Enqueue(_, _, _, _, _) =>
      case RunApproved(_, _, _) =>
      case Crash(_) =>
      case _ => BookkeepingKeepsCalls(s.db, a);
    }
  }

  /** A driver that another action leaves alone. */
  lemma {:induction false} OtherDriverStays(s: State, a: Action, j: nat)
    requires j < |s.drivers| && !((a.Advance? || a.Crash?) && a.driver == j)
    ensures j < |Step(s, a).drivers| && Step(s, a).drivers[j] == s.drivers[j]
  {
    match a {
      case Advance(i, body) =>
        if i < |s.drivers| && Active(s.drivers[i]) && s.drivers[i].call in s.db.calls {
          assert AdvanceDriver(s, i, body).drivers == s.drivers[i := AdvanceDriver(s, i, body).drivers[i]];
        }
      case _ =>
    }
  }

  /** No call becomes settled but through its window's end or a refusal. */
  lemma {:induction false} SettlesOnlySo(s: State, a: Action, c: Id)
    requires Inv(s) && !EndsWindow(s, a, c) && !RefusesNow(s, a, c) && !Settled(s, c)
    ensures !Settled(Step(s, a), c)
  {
    var t := Step(s, a);
    if Finished(s.db, c) {
      var j :| 0 <= j < |s.drivers| && Owner(s.drivers[j]) == Some(c);
      FinishedOwnerAttests(s, j, c);
      OtherDriverStays(s, a, j);
      assert Owner(t.drivers[j]) == Some(c);
    } else if a.Advance? {
      if a.driver < |s.drivers| && Active(s.drivers[a.driver]) && s.drivers[a.driver].call in s.db.calls && Finished(t.db, c) {
        AdvanceFinishes(s, a.driver, a.body, c);
        assert Owner(t.drivers[a.driver]) == Some(c);
      }
    } else {
      OtherStepFinishes(s, a, c);
    }
  }

  lemma {:induction false} OrdinaryStep(s: State, a: Action, c: Id)
    requires Inv(s) && Accounted(s, c) && !EndsWindow(s, a, c) && !RefusesNow(s, a, c)
    ensures Accounted(Step(s, a), c)
  {
    RolesStep(s, a, c);
    RefusedStep(s, a, c);
    if Settled(s, c) {
      SettledStep(s, a, c);
      SameReplayReplaysSame(s.db, Step(s, a).db, c);
    } else {
      SettlesOnlySo(s, a, c);
    }
    AccountStays(s, Step(s, a), c);
  }

  /** While a driver attests the call, nobody has returned its outcome, torn its window or refused it. */
  lemma {:induction false} WindowIsOpen(s: State, i: nat, c: Id)
    requires Inv(s) && Accounted(s, c) && i < |s.drivers| && Attests(s.drivers[i], c)
    ensures !Settled(s, c) && !AnyGave(s.drivers, c) && !AnyTore(s.drivers, c) && !Refused(s.db, c)
  {
    assert Owner(s.drivers[i]) == Some(c);
    assert DriverOk(s, s.drivers[i]);
    if Refused(s.db, c) { RefusedIsAttested(s, c); }
  }

  lemma {:induction false} RefusedIsAttested(s: State, c: Id)
    requires Inv(s) && Refused(s.db, c)
    ensures c in s.db.calls && s.db.calls[c].status.Denied? && LatestEvidence(s.db.evidence, c, DenialKind).Some?
  {
    var x :| x in s.db.approvals && IsRefusal(s.db.approvals[x], c);
    assert ApprovalOk(s.db, x);
  }

  lemma {:induction false} AttestStep(s: State, i: nat, body: BodyResult, c: Id)
    requires Inv(s) && Accounted(s, c) && i < |s.drivers| && Attests(s.drivers[i], c)
    ensures Accounted(Step(s, Advance(i, body)), c)
  {
    var t := Step(s, Advance(i, body));
    WindowIsOpen(s, i, c);
    FirstCompletion(s, i, body);
    assert DriverOk(s, s.drivers[i]);
    assert t.drivers == s.drivers[i := t.drivers[i]];
    assert Gave(t.drivers[i], c);
    forall j | 0 <= j < |t.drivers| && j != i
      ensures NoRole(t.drivers[j], c)
    {
      assert t.drivers[j] == s.drivers[j];
    }
  }

  lemma {:induction false} TearStep(s: State, i: nat, c: Id)
    requires Inv(s) && Accounted(s, c) && i < |s.drivers| && Attests(s.drivers[i], c)
    ensures Accounted(Step(s, Crash(i)), c)
  {
    var t := Step(s, Crash(i));
    WindowIsOpen(s, i, c);
    WindowReplay(s, i);
    assert t.drivers == s.drivers[i := Dead(s.drivers[i])] && t.db == s.db;
    assert Tore(t.drivers[i], c);
    forall j | 0 <= j < |t.drivers| && j != i
      ensures NoRole(t.drivers[j], c) && Owner(t.drivers[j]) != Some(c)
    {
      assert t.drivers[j] == s.drivers[j] && Owner(s.drivers[i]) == Some(c);
    }
  }

  lemma {:induction false} NobodyEnded(s: State, c: Id)
    requires Accounted(s, c) && !Finished(s.db, c)
    ensures !AnyGave(s.drivers, c) && !AnyTore(s.drivers, c)
  {
  }

  lemma {:induction false} RefusesCall(s: State, a: Action, c: Id)
    requires Inv(s) && RefusesNow(s, a, c)
    ensures Step(s, a).drivers == s.drivers && !Finished(s.db, c) && Refused(Step(s, a).db, c)
  {
    var t := Step(s, a);
    assert ApprovalOk(s.db, a.approval);
    RefusalWrites(s.db, a.approval, a.verdict);
    FinishedIsStatus(s.db, c);
    assert IsRefusal(t.db.approvals[a.approval], c);
  }

  lemma {:induction false} RefuseStep(s: State, a: Action, c: Id)
    requires Inv(s) && Accounted(s, c) && RefusesNow(s, a, c)
    ensures Accounted(Step(s, a), c)
  {
    RefusesCall(s, a, c);
    NobodyEnded(s, c);
  }

  lemma {:induction false} AccountStep(s: State, a: Action, c: Id)
    requires Inv(s) && Accounted(s, c)
    ensures Accounted(Step(s, a), c)
  {
    if RefusesNow(s, a, c) {
      RefuseStep(s, a, c);
    } else if EndsWindow(s, a, c) {
      if a.Advance? { AttestStep(s, a.driver, a.body, c); } else { TearStep(s, a.driver, c); }
    } else {
      OrdinaryStep(s, a, c);
    }
  }

  lemma {:induction false} RunAccounts(policy: Policy, actions: seq<Action>, c: Id)
    ensures Inv(Run(Initial(policy), actions)) && Accounted(Run(Initial(policy), actions), c)
  {
    if actions != [] {
      RunAccounts(policy, actions[..|actions| - 1], c);
      StepKeeps(Run(Initial(policy), actions[..|actions| - 1]), actions[|actions| - 1]);
      AccountStep(Run(Initial(policy), actions[..|actions| - 1]), actions[|actions| - 1], c);
    }
  }

  // ----- exactly when a replay is the outcome ------------------------------------------------

  /**
    In every reachable state, for every finished call: the driver that completed it has returned, or a decision
    refused it, if and only if no driver is attesting it and none died doing so. Then a replay is that outcome,
    the one that every returned driver of the call has; in a torn window it is the outcome without its
    evidence, which for a denial means that the replay throws.
   */
  lemma {:induction false} ReplayExactly(policy: Policy, actions: seq<Action>, c: Id)
    requires Finished(Run(Initial(policy), actions).db, c)
    ensures var s := Run(Initial(policy), actions);
      && (AnyGave(s.drivers, c) || Refused(s.db, c) <==> !AnyAttests(s.drivers, c) && !AnyTore(s.drivers, c))
      && (forall j :: 0 <= j < |s.drivers| && Gave(s.drivers[j], c) ==>
            ReplayTerminal(s.db, c) == Replayed(s.drivers[j].outcome))
      && (Refused(s.db, c) ==> ReplayTerminal(s.db, c).Replayed? && ReplayTerminal(s.db, c).outcome.CallRefused?)
      && (forall j :: 0 <= j < |s.drivers| && Attests(s.drivers[j], c) ==> ReplayTerminal(s.db, c) == Bare(s.drivers[j]))
      && (forall j :: 0 <= j < |s.drivers| && Tore(s.drivers[j], c) ==> ReplayTerminal(s.db, c) == Bare(s.drivers[j].was))
  {
    var s := Run(Initial(policy), actions);
    RunAccounts(policy, actions, c);
    if Refused(s.db, c) { RefusedIsAttested(s, c); }
    forall j | 0 <= j < |s.drivers| && Attests(s.drivers[j], c)
      ensures ReplayTerminal(s.db, c) == Bare(s.drivers[j]) && !AnyGave(s.drivers, c) && !Refused(s.db, c)
    {
      WindowReplay(s, j);
      WindowIsOpen(s, j, c);
    }
    if !AnyAttests(s.drivers, c) { UnattestedIsSettled(s, c); }
  }

  lemma {:induction false} UnattestedIsSettled(s: State, c: Id)
    requires Inv(s) && Finished(s.db, c) && !AnyAttests(s.drivers, c)
    ensures Settled(s, c)
  {
    forall j | 0 <= j < |s.drivers|
      ensures Owner(s.drivers[j]) != Some(c)
    {
      if Owner(s.drivers[j]) == Some(c) { FinishedOwnerAttests(s, j, c); }
    }
  }

  // ----- exactly which replies are final -----------------------------------------------------

  /** Some driver is still to add evidence to what a replay of the call returns. */
  ghost predicate EvidenceOwed(s: State, c: Id) {
    exists j :: 0 <= j < |s.drivers| && Attests(s.drivers[j], c) && Owes(s.drivers[j])
  }

  ghost predicate Steady(s: State, later: seq<Action>, c: Id)
    requires c in s.db.calls
  {
    c in Run(s, later).db.calls && ReplayTerminal(Run(s, later).db, c) == ReplayTerminal(s.db, c)
  }

  lemma {:induction false} AttestingPaysNothing(s: State, i: nat, body: BodyResult, c: Id)
    requires Inv(s) && i < |s.drivers| && Attests(s.drivers[i], c) && !Owes(s.drivers[i])
    ensures Step(s, Advance(i, body)).db == s.db
  {
    assert DriverOk(s, s.drivers[i]);
  }

  lemma {:induction false} NewAttestersOweNothing(s: State, a: Action, c: Id)
    requires Inv(s) && Finished(s.db, c) && !EvidenceOwed(s, c)
    ensures !EvidenceOwed(Step(s, a), c)
  {
    var t := Step(s, a);
    forall j | 0 <= j < |t.drivers|
      ensures !(Attests(t.drivers[j], c) && Owes(t.drivers[j]))
    {
      if j < |s.drivers| && t.drivers[j] == s.drivers[j] {
        assert !(Attests(s.drivers[j], c) && Owes(s.drivers[j]));
      } else {
        NewDriverDoesNotAttest(s, a, j, c);
      }
    }
  }

  lemma {:induction false} NewDriverDoesNotAttest(s: State, a: Action, j: nat, c: Id)
    requires Inv(s) && Finished(s.db, c) && j < |Step(s, a).drivers|
    requires j < |s.drivers| ==> Step(s, a).drivers[j] != s.drivers[j]
    ensures !Attests(Step(s, a).drivers[j], c)
  {
    FinishedIsStatus(s.db, c);
    match a {
      case Advance(i, body) =>
        if i < |s.drivers| && Active(s.drivers[i]) && s.drivers[i].call in s.db.calls {
          assert DriverOk(s, s.drivers[i]);
          AdvanceKeepsOwner(s, i, body);
        }
      case RunApproved(call, tool, argsValid) =>
      case _ =>
    }
  }

  lemma {:induction false} SteadyStep(s: State, a: Action, c: Id)
    requires Inv(s) && Finished(s.db, c) && !EvidenceOwed(s, c)
    ensures Finished(Step(s, a).db, c) && !EvidenceOwed(Step(s, a), c)
    ensures ReplayTerminal(Step(s, a).db, c) == ReplayTerminal(s.db, c)
  {
    NewAttestersOweNothing(s, a, c);
    if a.Advance? && a.driver < |s.drivers| && Attests(s.drivers[a.driver], c) {
      AttestingPaysNothing(s, a.driver, a.body, c);
    } else {
      FinishedStep(s, a, c);
      SameReplayReplaysSame(s.db, Step(s, a).db, c);
    }
  }

  lemma {:induction false} SteadyRun(s: State, later: seq<Action>, c: Id)
    requires Inv(s) && Finished(s.db, c) && !EvidenceOwed(s, c)
    ensures Finished(Run(s, later).db, c) && !EvidenceOwed(Run(s, later), c) && Steady(s, later, c)
  {
    if later != [] {
      SteadyRun(s, later[..|later| - 1], c);
      RunKeeps(s, later[..|later| - 1]);
      SteadyStep(Run(s, later[..|later| - 1]), later[|later| - 1], c);
    }
  }

  /**
    What a finished call replays as now is what it replays as for ever, whatever happens, if and only if no
    driver still owes it evidence: not one that died in its window, and not a success that wants none.
   */
  lemma {:induction false} ReplayIsFinalExactly(s: State, c: Id)
    requires Inv(s) && Finished(s.db, c)
    ensures (forall later: seq<Action> :: Steady(s, later, c)) <==> !EvidenceOwed(s, c)
  {
    if !EvidenceOwed(s, c) {
      forall later: seq<Action>
        ensures Steady(s, later, c)
      {
        SteadyRun(s, later, c);
      }
    } else {
      var j :| 0 <= j < |s.drivers| && Attests(s.drivers[j], c) && Owes(s.drivers[j]);
      var a := Advance(j, Err(""));
      EarlyReplayExactly(s, j, Err(""));
      FirstCompletion(s, j, Err(""));
      assert [a][..0] == [] && Run(s, []) == s;
      assert Run(s, [a]) == Step(s, a);
      assert !Steady(s, [a], c);
    }
  }

  // ----- the window, from the start ----------------------------------------------------------

  /** A window torn by a crash stays torn: every later replay lacks the evidence, and of a denial throws. */
  lemma {:induction false} TornForEver(s: State, i: nat, later: seq<Action>)
    requires Inv(s) && i < |s.drivers| && Attesting(s.drivers[i])
    ensures var c, t := s.drivers[i].call, Run(Step(s, Crash(i)), later);
      c in t.db.calls && ReplayTerminal(t.db, c) == Bare(s.drivers[i])
  {
    var c, t := s.drivers[i].call, Step(s, Crash(i));
    WindowReplay(s, i);
    assert t.drivers == s.drivers[i := Dead(s.drivers[i])] && t.db == s.db;
    forall j | 0 <= j < |t.drivers|
      ensures Owner(t.drivers[j]) != Some(c)
    {
      assert j != i ==> t.drivers[j] == s.drivers[j] && Owner(s.drivers[i]) == Some(c);
    }
    StepKeeps(s, Crash(i));
    SettledForEver(t, later, c);
  }

  function Enqueued0(policy: Policy, run: Id, tool: Tool, args: string): State {
    Step(Initial(policy), Enqueue(run, None, tool, args, None))
  }

  lemma {:induction false} FirstEnqueued(policy: Policy, run: Id, tool: Tool, args: string)
    ensures var s := Enqueued0(policy, run, tool, args);
      && Inv(s) && s.db.policy == policy && s.drivers == [Enqueued(0, tool, None)]
      && 0 in s.db.calls && Matches(s.db.calls[0], tool) && s.db.calls[0].status.Pending?
  {
    StepKeeps(Initial(policy), Enqueue(run, None, tool, args, None));
  }

  /** Denied by the policy, killed before the evidence: whatever happens later, every replay of the call throws. */
  lemma {:induction false} TornDenialThrows(policy: Policy, run: Id, tool: Tool, args: string, later: seq<Action>)
    requires Ruled(policy, tool.name, tool.capability, Deny)
    ensures var s := Run(Step(Step(Enqueued0(policy, run, tool, args), Advance(0, Err(""))), Crash(0)), later);
      0 in s.db.calls && ReplayTerminal(s.db, 0) == ReplayThrows && StartApproved(s.db, 0, tool, true) == Threw
  {
    var s1 := Enqueued0(policy, run, tool, args);
    var s2 := Step(s1, Advance(0, Err("")));
    FirstEnqueued(policy, run, tool, args);
    StepKeeps(s1, Advance(0, Err("")));
    DeniedAttests(s1, tool);
    TornForEver(s2, 0, later);
  }

  lemma {:induction false} DeniedAttests(s: State, tool: Tool)
    requires s.drivers == [Enqueued(0, tool, None)] && 0 in s.db.calls
    requires Ruled(s.db.policy, tool.name, tool.capability, Deny)
    ensures |Step(s, Advance(0, Err(""))).drivers| == 1
    ensures Step(s, Advance(0, Err(""))).drivers[0].DenialEvidence? && Step(s, Advance(0, Err(""))).drivers[0].call == 0
  {
  }

  /** In the window a second caller is told the success without the evidence that the first caller is given. */
  lemma {:induction false} EarlyReplayLacksEvidence(s: State, i: nat, body: BodyResult, argsValid: bool)
    requires Inv(s) && i < |s.drivers| && s.drivers[i].ResultEvidence? && Owes(s.drivers[i])
    requires s.drivers[i].call in s.db.calls && Matches(s.db.calls[s.drivers[i].call], s.drivers[i].tool)
    ensures var ResultEvidence(c, tool, result) := s.drivers[i];
      && StartApproved(s.db, c, tool, argsValid) == Repeated(CallSuccess(c, result, None))
      && Step(s, Advance(i, body)).drivers[i] == Returned(CallSuccess(c, result, Some(s.db.nextId)))
  {
    WindowReplay(s, i);
  }

  lemma {:induction false} AllowedClaims(s: State, tool: Tool)
    requires s.drivers == [Enqueued(0, tool, None)] && 0 in s.db.calls && s.db.calls[0].status.Pending?
    requires Matches(s.db.calls[0], tool) && Ruled(s.db.policy, tool.name, tool.capability, Allow)
    ensures var t := Step(s, Advance(0, Err("")));
      t.drivers == [Claiming(0, tool, CallStatus.Pending)] && t.db == s.db
  {
  }

  lemma {:induction false} ClaimedExecutes(s: State, tool: Tool)
    requires s.drivers == [Claiming(0, tool, CallStatus.Pending)] && 0 in s.db.calls && s.db.calls[0].status.Pending?
    requires Matches(s.db.calls[0], tool)
    ensures var t := Step(s, Advance(0, Err("")));
      t.drivers == [Executing(0, tool)] && 0 in t.db.calls && Matches(t.db.calls[0], tool)
  {
  }

  lemma {:induction false} ExecutedAttests(s: State, tool: Tool, output: string)
    requires s.drivers == [Executing(0, tool)] && 0 in s.db.calls && Matches(s.db.calls[0], tool)
    ensures var t := Step(s, Advance(0, Ok(Success(output))));
      t.drivers == [ResultEvidence(0, tool, Success(output))] && 0 in t.db.calls && Matches(t.db.calls[0], tool)
  {
  }

  /** Such a window is reached: allowed, claimed, run, and a second `runApproved` before the evidence is written. */
  lemma {:induction false} EarlyReplayHappens(policy: Policy, run: Id, tool: Tool, args: string, output: string)
    requires Ruled(policy, tool.name, tool.capability, Allow) && !tool.evidence.NoEvidence?
    ensures var s1 := Enqueued0(policy, run, tool, args);
      var s3 := Step(Step(s1, Advance(0, Err(""))), Advance(0, Err("")));
      var s := Step(s3, Advance(0, Ok(Success(output))));
      && |s.drivers| == 1
      && StartApproved(s.db, 0, tool, true) == Repeated(CallSuccess(0, Success(output), None))
      && Step(s, Advance(0, Err(""))).drivers[0] == Returned(CallSuccess(0, Success(output), Some(s.db.nextId)))
  {
    var s1 := Enqueued0(policy, run, tool, args);
    FirstEnqueued(policy, run, tool, args);
    AllowedClaims(s1, tool);
    var s2 := Step(s1, Advance(0, Err("")));
    StepKeeps(s1, Advance(0, Err("")));
    ClaimedExecutes(s2, tool);
    var s3 := Step(s2, Advance(0, Err("")));
    StepKeeps(s2, Advance(0, Err("")));
    ExecutedAttests(s3, tool, output);
    StepKeeps(s3, Advance(0, Ok(Success(output))));
    EarlyReplayLacksEvidence(Step(s3, Advance(0, Ok(Success(output)))), 0, Err(""), true);
  }
}
