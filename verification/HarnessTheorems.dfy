/**
  What follows for whole runs of the driver system: the log tells the stored statuses, decisions are final
  and repeatable, and a finished call replays its first outcome for ever.
 */
module HarnessTheorems {
  import opened Common
  import opened Journal
  import opened HarnessStore
  import opened HarnessPolicy
  import opened HarnessJournal
  import opened HarnessProtocol
  import opened HarnessInvariant
  import opened HarnessSafety

  // ----- journal agreement -------------------------------------------------------------------

  lemma {:induction false} BookkeepAgrees(s: State, a: Action)
    requires IdsOk(s.db) && Agrees(s.db) && Bookkeeping(a)
    ensures Agrees(Step(s, a).db)
  {
    match a
    case AddRun => CreateRunAgrees(s.db);
    case SetRunStatus(run, st) => UpdateRunStatusAgrees(s.db, run, st);
    case AddStep(run, st) => CreateStepAgrees(s.db, run, st);
    case SetStepStatus(step, st) => UpdateStepStatusAgrees(s.db, step, st);
    case AddMessage => RecordsAgree(s.db);
    case AddSnapshot => RecordsAgree(s.db);
    case AddModelError(run, source, content) => EvidenceAgrees(s.db, run, ModelErrorKind, source, content);
    case SetPolicy(policy) => PolicyAgrees(s.db, policy);
  }

  lemma {:induction false} DecideAgrees(s: State, i: nat)
    requires Agrees(s.db) && i < |s.drivers| && s.drivers[i].Enqueued? && s.drivers[i].call in s.db.calls
    ensures Agrees(Decide(s, i).db)
  {
    var Enqueued(call, tool, invalid) := s.drivers[i];
    if invalid.Some? {
      FailToolCallAgrees(s.db, call, invalid.value, None);
    } else {
      CreateApprovalAgrees(s.db, s.db.calls[call].run, call);
      DenyToolCallAgrees(s.db, call, "Tool " + tool.name + " denied by permission policy");
    }
  }

  lemma {:induction false} CompleteAgrees(s: State, i: nat, body: BodyResult)
    requires Agrees(s.db) && i < |s.drivers| && s.drivers[i].Executing? && s.drivers[i].call in s.db.calls
    ensures Agrees(Complete(s, i, body).db)
  {
    var call := s.drivers[i].call;
    match body
    case Ok(Success(output)) => SucceedToolCallAgrees(s.db, call, Success(output));
    case Ok(Failure(message)) => FailToolCallAgrees(s.db, call, message, Some(Failure(message)));
    case Err(message) => FailToolCallAgrees(s.db, call, message, None);
  }

  lemma {:induction false} AttestAgrees(s: State, i: nat)
    requires Agrees(s.db) && i < |s.drivers| && Attesting(s.drivers[i]) && s.drivers[i].call in s.db.calls
    ensures Agrees(Attest(s, i).db)
  {
    var run := s.db.calls[s.drivers[i].call].run;
    match s.drivers[i]
    case ResultEvidence(call, _, _) => EvidenceAgrees(s.db, run, ToolResultKind, call, "result");
    case ErrorEvidence(call, message, _) => EvidenceAgrees(s.db, run, ToolErrorKind, call, message);
    case DenialEvidence(call, message) => EvidenceAgrees(s.db, run, DenialKind, call, message);
  }

  lemma {:induction false} AdvanceAgrees(s: State, i: nat, body: BodyResult)
    requires Agrees(s.db) && i < |s.drivers| && Active(s.drivers[i]) && s.drivers[i].call in s.db.calls
    ensures Agrees(AdvanceDriver(s, i, body).db)
  {
    match s.drivers[i]
    case Enqueued(_, _, _) => DecideAgrees(s, i);
    case Approving(call, _) => MarkApprovalRequiredAgrees(s.db, call);
    case Claiming(call, _, expected) => MarkRunningAgrees(s.db, call, expected);
    case Executing(_, _) => CompleteAgrees(s, i, body);
    case _ => AttestAgrees(s, i);
  }

  lemma {:induction false} AdvanceStepAgrees(s: State, i: nat, body: BodyResult)
    requires Agrees(s.db)
    ensures Agrees(Step(s, Advance(i, body)).db)
  {
    if i < |s.drivers| && Active(s.drivers[i]) && s.drivers[i].call in s.db.calls { AdvanceAgrees(s, i, body); }
  }

  lemma {:induction false} ResolveAgrees(s: State, approval: Id, v: Verdict)
    requires Agrees(s.db)
    ensures Agrees(Step(s, Resolve(approval, v)).db)
  {
    if approval in s.db.approvals { CommitVerdictAgrees(s.db, approval, v); }
  }

  lemma {:induction false} StepAgrees(s: State, a: Action)
    requires IdsOk(s.db) && Agrees(s.db)
    ensures Agrees(Step(s, a).db)
  {
    match a
    case Enqueue(run, step, tool, args, _) => CreateToolCallAgrees(s.db, run, step, tool, args);
    case Advance(i, body) => AdvanceStepAgrees(s, i, body);
    case Resolve(approval, v) => ResolveAgrees(s, approval, v);
    case Recover(seen) => RecoveryAgrees(s.db, seen);
    case RunApproved(_, _, _) =>
    case Crash(_) =>
    case _ => BookkeepAgrees(s, a);
  }

  /**
    Journal agreement. In every reachable state, folding the log gives exactly the stored status of every
    run, step, call and approval, and every recorded previous status is the fold just before its event.
   */
  lemma {:induction false} JournalAgreement(policy: Policy, actions: seq<Action>)
    ensures Agrees(Run(Initial(policy), actions).db)
  {
    if actions != [] {
      var before := actions[..|actions| - 1];
      JournalAgreement(policy, before);
      RunKeeps(Initial(policy), before);
      StepAgrees(Run(Initial(policy), before), actions[|actions| - 1]);
    }
  }

  // ----- starts are logged -------------------------------------------------------------------

  predicate TellsStart(e: Event) {
    e.CallIs? && e.callStatus.Running?
  }

  /** The calls the log reports as running, in order. */
  function Starts(log: seq<Event>): seq<Id> {
    if log == [] then []
    else
      var e := log[|log| - 1];
      Starts(log[..|log| - 1]) + (if TellsStart(e) then [e.call] else [])
  }

  /** The log only grows, and what is added reports no start. */
  ghost predicate GrowsQuietly(log: seq<Event>, log': seq<Event>) {
    log <= log' && forall k :: |log| <= k < |log'| ==> !TellsStart(log'[k])
  }

  lemma {:induction false} QuietKeepsStarts(log: seq<Event>, log': seq<Event>)
    requires GrowsQuietly(log, log')
    ensures Starts(log') == Starts(log)
  {
    if |log'| > |log| {
      QuietKeepsStarts(log, log'[..|log'| - 1]);
    } else {
      assert log' == log;
    }
  }

  lemma {:induction false} RecoveryIsQuiet(d: Db, seen: seq<Id>)
    ensures GrowsQuietly(d.events, RecoverInterrupted(d, seen).events)
  {
    if seen != [] {
      RecoveryIsQuiet(d, seen[..|seen| - 1]);
    }
  }

  lemma {:induction false} ResolutionIsQuiet(d: Db, approval: Id, v: Verdict)
    requires approval in d.approvals
    ensures CommitVerdict(d, approval, v).Ok? ==> GrowsQuietly(d.events, CommitVerdict(d, approval, v).value.events)
  {
  }

  lemma {:induction false} DecideIsQuiet(s: State, i: nat)
    requires i < |s.drivers| && s.drivers[i].Enqueued? && s.drivers[i].call in s.db.calls
    ensures GrowsQuietly(s.db.events, Decide(s, i).db.events) && Decide(s, i).started == s.started
  {
  }

  lemma {:induction false} EndingIsQuiet(s: State, i: nat, body: BodyResult)
    requires i < |s.drivers| && Active(s.drivers[i]) && s.drivers[i].call in s.db.calls
    ensures s.drivers[i].Executing? ==>
      GrowsQuietly(s.db.events, Complete(s, i, body).db.events) && Complete(s, i, body).started == s.started
    ensures Attesting(s.drivers[i]) ==>
      GrowsQuietly(s.db.events, Attest(s, i).db.events) && Attest(s, i).started == s.started
  {
  }

  lemma {:induction false} ClaimTells(s: State, i: nat)
    requires i < |s.drivers| && s.drivers[i].Claiming? && s.drivers[i].call in s.db.calls
    requires Starts(s.db.events) == s.started
    ensures Starts(Claim(s, i).db.events) == Claim(s, i).started
  {
  }

  lemma {:induction false} AdvanceTells(s: State, i: nat, body: BodyResult)
    requires i < |s.drivers| && Active(s.drivers[i]) && s.drivers[i].call in s.db.calls
    requires Starts(s.db.events) == s.started
    ensures Starts(AdvanceDriver(s, i, body).db.events) == AdvanceDriver(s, i, body).started
  {
    if s.drivers[i].Claiming? {
      ClaimTells(s, i);
    } else {
      if s.drivers[i].Enqueued? { DecideIsQuiet(s, i); } else { EndingIsQuiet(s, i, body); }
      QuietKeepsStarts(s.db.events, AdvanceDriver(s, i, body).db.events);
    }
  }

  lemma {:induction false} StepTells(s: State, a: Action)
    requires Starts(s.db.events) == s.started
    ensures Starts(Step(s, a).db.events) == Step(s, a).started
  {
    match a {
      case Advance(i, body) =>
        if i < |s.drivers| && Active(s.drivers[i]) && s.drivers[i].call in s.db.calls {
          AdvanceTells(s, i, body);
        }
      case _ =>
        OtherStepsAreQuiet(s, a);
        QuietKeepsStarts(s.db.events, Step(s, a).db.events);
    }
  }

  lemma {:induction false} BookkeepingIsQuiet(d: Db, a: Action)
    requires Bookkeeping(a)
    ensures GrowsQuietly(d.events, Bookkeep(d, a).events)
  {
  }

  lemma {:induction false} OtherStepsAreQuiet(s: State, a: Action)
    requires !a.Advance?
    ensures GrowsQuietly(s.db.events, Step(s, a).db.events) && Step(s, a).started == s.started
  {
    match a {
      case Recover(seen) => RecoveryIsQuiet(s.db, seen);
      case Resolve(approval, v) => if approval in s.db.approvals { ResolutionIsQuiet(s.db, approval, v); }
      case Enqueue(_, _, _, _, _) =>
      case RunApproved(_, _, _) =>
      case Crash(_) =>
      case _ => BookkeepingIsQuiet(s.db, a);
    }
  }

  /** The durable log records every start of a tool body, in order; so it shows each call starting at most once. */
  lemma {:induction false} StartsAreLogged(policy: Policy, actions: seq<Action>)
    ensures var s := Run(Initial(policy), actions);
      Starts(s.db.events) == s.started && NoRepeats(Starts(s.db.events))
  {
    if actions != [] {
      var before := actions[..|actions| - 1];
      StartsAreLogged(policy, before);
      StepTells(Run(Initial(policy), before), actions[|actions| - 1]);
    }
    AtMostOnceAuthorised(policy, actions);
  }

  // ----- every start has its authority behind it ---------------------------------------------

  function At(policy: Policy, actions: seq<Action>, m: nat): State
    requires m <= |actions|
  {
    Run(Initial(policy), actions[..m])
  }

  lemma {:induction false} AtNext(policy: Policy, actions: seq<Action>, m: nat)
    requires m < |actions|
    ensures At(policy, actions, m + 1) == Step(At(policy, actions, m), actions[m])
    ensures Inv(At(policy, actions, m))
  {
    assert actions[..m + 1][..m] == actions[..m];
    RunKeeps(Initial(policy), actions[..m]);
  }

  /** Action `k` is the enqueue decision about the call, and the first rule of that moment about its tool says allow. */
  ghost predicate AllowsAt(policy: Policy, actions: seq<Action>, k: nat, c: Id) {
    && k < |actions|
    && var s := At(policy, actions, k);
       && actions[k].Advance? && actions[k].driver < |s.drivers|
       && s.drivers[actions[k].driver].Enqueued? && s.drivers[actions[k].driver].call == c && c in s.db.calls
       && Ruled(s.db.policy, s.db.calls[c].tool, s.db.calls[c].capability, Allow)
  }

  /** Action `m` starts the call's body. */
  ghost predicate StartsAt(policy: Policy, actions: seq<Action>, m: nat, c: Id) {
    m < |actions| && c !in At(policy, actions, m).started && c in At(policy, actions, m + 1).started
  }

  ghost predicate AuthorisedBefore(policy: Policy, actions: seq<Action>, m: nat, c: Id)
    requires m <= |actions|
  {
    (exists k: nat :: k < m && AllowsAt(policy, actions, k, c)) || HasApproved(At(policy, actions, m).db, c)
  }

  lemma {:induction false} AllowanceIsEnqueue(s: State, a: Action, c: Id)
    requires Inv(s) && c !in s.allowed && c in Step(s, a).allowed
    ensures a.Advance? && a.driver < |s.drivers| && s.drivers[a.driver].Enqueued? && s.drivers[a.driver].call == c
  {
  }

  lemma {:induction false} AllowedWasDecided(policy: Policy, actions: seq<Action>, m: nat, c: Id)
    requires m <= |actions| && c in At(policy, actions, m).allowed
    ensures exists k: nat :: k < m && AllowsAt(policy, actions, k, c)
  {
    assert actions[..0] == [];
    if m > 0 {
      AtNext(policy, actions, m - 1);
      if c in At(policy, actions, m - 1).allowed {
        AllowedWasDecided(policy, actions, m - 1, c);
      } else {
        AllowanceIsEnqueue(At(policy, actions, m - 1), actions[m - 1], c);
        AllowedByPolicyOnly(At(policy, actions, m - 1), actions[m - 1], c);
        assert AllowsAt(policy, actions, m - 1, c);
      }
    }
  }

  lemma {:induction false} StartIsClaim(s: State, a: Action, c: Id)
    requires Inv(s) && c !in s.started && c in Step(s, a).started
    ensures c in s.allowed || HasApproved(s.db, c)
  {
    assert a.Advance? && a.driver < |s.drivers| && s.drivers[a.driver].Claiming?;
    assert DriverOk(s, s.drivers[a.driver]);
  }

  /**
    Every start has its authority behind it: before the action that starts a body there is the enqueue decision
    "allow" for that call, by the policy of that moment, or an approved approval of the call at that action.
   */
  lemma {:induction false} EveryStartIsAuthorised(policy: Policy, actions: seq<Action>, n: nat, c: Id)
    requires n <= |actions| && c in At(policy, actions, n).started
    ensures exists m: nat :: m < n && StartsAt(policy, actions, m, c) && AuthorisedBefore(policy, actions, m, c)
  {
    assert actions[..0] == [];
    if n > 0 {
      AtNext(policy, actions, n - 1);
      if c in At(policy, actions, n - 1).started {
        EveryStartIsAuthorised(policy, actions, n - 1, c);
      } else {
        assert StartsAt(policy, actions, n - 1, c);
        StartIsClaim(At(policy, actions, n - 1), actions[n - 1], c);
        if c in At(policy, actions, n - 1).allowed { AllowedWasDecided(policy, actions, n - 1, c); }
      }
    }
  }

  // ----- decisions ---------------------------------------------------------------------------

  predicate ScopeFits(v: Verdict) {
    (v.scope.Always? ==> v.status.Approved?) && (v.scope.Never? ==> v.status.Denied?)
  }

  /**
    Exactly when a decision is accepted in a reachable state: it repeats the recorded one, or it decides an
    undecided approval and, being a refusal, finds the call already marked as waiting.
   */
  lemma {:induction false} DecisionAccepted(s: State, approval: Id, v: Verdict)
    requires Inv(s) && approval in s.db.approvals
    ensures ResolveApproval(s.db, approval, v).Ok? <==>
      && ScopeFits(v)
      && (var row := s.db.approvals[approval];
          if row.verdict.status.Pending?
          then v.status.Approved? || (!v.status.Pending? && s.db.calls[row.call].status.ApprovalRequired?)
          else row.verdict == v)
  {
  }

  /** Once decided, the same decision changes nothing and any other is refused. */
  lemma {:induction false} DecisionIsFinal(d: Db, approval: Id, v: Verdict, again: Verdict)
    requires ResolveApproval(d, approval, v).Ok?
    ensures var d' := ResolveApproval(d, approval, v).value;
      && ResolveApproval(d', approval, v) == Ok(d')
      && (ResolveApproval(d', approval, again).Ok? <==> again == v)
  {
  }

  lemma {:induction false} RecoverFrame(d: Db, seen: seq<Id>, c: Id)
    requires c in d.calls
    ensures var d' := RecoverInterrupted(d, seen);
      && c in d'.calls && d'.approvals == d.approvals && d'.evidence == d.evidence
      && (d'.calls[c] == d.calls[c] || d.calls[c].status.Running?)
  {
    if seen != [] {
      RecoverFrame(d, seen[..|seen| - 1], c);
    }
  }

  lemma {:induction false} RecoverLeavesApprovals(d: Db, seen: seq<Id>)
    ensures RecoverInterrupted(d, seen).approvals == d.approvals
  {
    if seen != [] {
      RecoverLeavesApprovals(d, seen[..|seen| - 1]);
    }
  }

  lemma {:induction false} AdvanceKeepsApprovals(s: State, i: nat, body: BodyResult)
    requires IdsOk(s.db) && i < |s.drivers| && Active(s.drivers[i]) && s.drivers[i].call in s.db.calls
    ensures forall a :: a in s.db.approvals ==>
      a in AdvanceDriver(s, i, body).db.approvals
      && AdvanceDriver(s, i, body).db.approvals[a] == s.db.approvals[a]
  {
  }

  lemma {:induction false} ResolveKeepsOthers(s: State, other: Id, v: Verdict, approval: Id)
    requires Inv(s) && approval in s.db.approvals
    requires other != approval || !s.db.approvals[approval].verdict.status.Pending?
    ensures approval in Step(s, Resolve(other, v)).db.approvals
      && Step(s, Resolve(other, v)).db.approvals[approval] == s.db.approvals[approval]
  {
    if other in s.db.approvals && s.db.approvals[other].verdict.status.Pending? && !v.status.Approved? {
      assert ApprovalOk(s.db, other);
      RefusalWrites(s.db, other, v);
    }
  }

  lemma {:induction false} BookkeepingKeepsApprovals(d: Db, a: Action)
    requires Bookkeeping(a)
    ensures Bookkeep(d, a).approvals == d.approvals
  {
  }

  /** No action of any driver or user alters a decided approval. */
  lemma {:induction false} DecidedStaysDecided(s: State, a: Action, approval: Id)
    requires Inv(s) && approval in s.db.approvals && !s.db.approvals[approval].verdict.status.Pending?
    ensures approval in Step(s, a).db.approvals && Step(s, a).db.approvals[approval] == s.db.approvals[approval]
  {
    match a {
      case Recover(seen) => RecoverLeavesApprovals(s.db, seen);
      case Resolve(other, v) => ResolveKeepsOthers(s, other, v, approval);
      case Advance(i, body) =>
        if i < |s.drivers| && Active(s.drivers[i]) && s.drivers[i].call in s.db.calls {
          AdvanceKeepsApprovals(s, i, body);
        }
      case Enqueue(_, _, _, _, _) =>
      case RunApproved(_, _, _) =>
      case Crash(_) =>
      case _ => BookkeepingKeepsApprovals(s.db, a);
    }
  }

  // ----- replay ------------------------------------------------------------------------------

  /** The call has finished and no driver will write its row or attest it any more. */
  ghost predicate Settled(s: State, c: Id) {
    c in s.db.calls && Unowned(s, c) && !ReplayTerminal(s.db, c).NotTerminal?
  }

  ghost predicate SameReplay(d: Db, d': Db, c: Id)
    requires c in d.calls
  {
    c in d'.calls && d'.calls[c] == d.calls[c] && SameEvidence(d, d', c)
  }

  lemma {:induction false} SameReplayReplaysSame(d: Db, d': Db, c: Id)
    requires c in d.calls && SameReplay(d, d', c)
    ensures ReplayTerminal(d', c) == ReplayTerminal(d, c)
  {
  }

  lemma {:induction false} AttestTouchesOwnCall(s: State, i: nat, c: Id)
    requires i < |s.drivers| && Attesting(s.drivers[i]) && s.drivers[i].call in s.db.calls
    requires c in s.db.calls && c != s.drivers[i].call
    ensures SameReplay(s.db, Attest(s, i).db, c)
  {
  }

  /** A driver's transaction leaves the row and the evidence of every other call alone. */
  lemma {:induction false} AdvanceTouchesOwnCall(s: State, i: nat, body: BodyResult, c: Id)
    requires i < |s.drivers| && Active(s.drivers[i]) && s.drivers[i].call in s.db.calls
    requires c in s.db.calls && c != s.drivers[i].call
    ensures SameReplay(s.db, AdvanceDriver(s, i, body).db, c)
  {
    if Attesting(s.drivers[i]) {
      AttestTouchesOwnCall(s, i, c);
    } else {
      assert AdvanceDriver(s, i, body).db.evidence == s.db.evidence;
    }
  }

  lemma {:induction false} AdvanceKeepsOwner(s: State, i: nat, body: BodyResult)
    requires Inv(s) && i < |s.drivers| && Active(s.drivers[i]) && s.drivers[i].call in s.db.calls
    ensures var s' := AdvanceDriver(s, i, body);
      && s'.drivers == s.drivers[i := s'.drivers[i]]
      && (Owner(s'.drivers[i]) == None || Owner(s'.drivers[i]) == Some(s.drivers[i].call))
  {
  }

  lemma {:induction false} SettledAdvance(s: State, i: nat, body: BodyResult, c: Id)
    requires Inv(s) && Settled(s, c)
    ensures var s' := Step(s, Advance(i, body)); Settled(s', c) && SameReplay(s.db, s'.db, c)
  {
    if i < |s.drivers| && Active(s.drivers[i]) {
      assert DriverOk(s, s.drivers[i]);
      var s' := AdvanceDriver(s, i, body);
      AdvanceKeepsOwner(s, i, body);
      if s.drivers[i].call != c {
        AdvanceTouchesOwnCall(s, i, body, c);
        SameReplayReplaysSame(s.db, s'.db, c);
      } else {
        assert s.drivers[i].Claiming? && s.drivers[i].expected.ApprovalRequired?;
      }
    }
  }

  lemma {:induction false} SettledResolve(s: State, approval: Id, v: Verdict, c: Id)
    requires Inv(s) && Settled(s, c)
    ensures SameReplay(s.db, Step(s, Resolve(approval, v)).db, c)
  {
    if ResolveApproval(s.db, approval, v).Ok? && s.db.approvals[approval].verdict.status.Pending? {
      assert ApprovalOk(s.db, approval);
      if !v.status.Approved? {
        RefusalWrites(s.db, approval, v);
        var d' := CommitVerdict(s.db, approval, v).value;
        EvidenceAppended(s.db, d', d'.evidence[|s.db.evidence|], c);
      }
    }
  }

  lemma {:induction false} SettledStep(s: State, a: Action, c: Id)
    requires Inv(s) && Settled(s, c)
    ensures Settled(Step(s, a), c) && SameReplay(s.db, Step(s, a).db, c)
  {
    var s' := Step(s, a);
    match a {
      case Advance(i, body) => SettledAdvance(s, i, body, c);
      case Resolve(approval, v) => SettledResolve(s, approval, v, c);
      case Recover(seen) => RecoverFrame(s.db, seen, c);
      case AddModelError(_, _, _) => EvidenceAppended(s.db, s'.db, s'.db.evidence[|s.db.evidence|], c);
      case _ =>
    }
    SameReplayReplaysSame(s.db, s'.db, c);
  }

  lemma {:induction false} SettledForEver(s: State, later: seq<Action>, c: Id)
    requires Inv(s) && Settled(s, c)
    ensures var s' := Run(s, later);
      Settled(s', c) && s'.db.calls[c] == s.db.calls[c] && ReplayTerminal(s'.db, c) == ReplayTerminal(s.db, c)
  {
    if later != [] {
      var before := later[..|later| - 1];
      SettledForEver(s, before, c);
      RunKeeps(s, before);
      SettledStep(Run(s, before), later[|later| - 1], c);
      SameReplayReplaysSame(Run(s, before).db, Run(s, later).db, c);
    }
  }

  /** The transaction that ends a driver settles its call, and a replay gives the outcome just returned. */
  lemma {:induction false} FirstCompletion(s: State, i: nat, body: BodyResult)
    requires Inv(s) && i < |s.drivers| && Attesting(s.drivers[i])
    ensures var s' := Step(s, Advance(i, body));
      var c := s.drivers[i].call;
      && s'.drivers[i].Returned? && Settled(s', c)
      && ReplayTerminal(s'.db, c) == Replayed(s'.drivers[i].outcome)
  {
    assert DriverOk(s, s.drivers[i]);
    var c := s.drivers[i].call;
    var s' := Step(s, Advance(i, body));
    if s'.db != s.db {
      EvidenceAppended(s.db, s'.db, s'.db.evidence[|s.db.evidence|], c);
    }
    forall j | 0 <= j < |s'.drivers| ensures Owner(s'.drivers[j]) != Some(c) {
      if j != i {
        assert Owner(s.drivers[i]) == Some(c) && s'.drivers[j] == s.drivers[j];
      }
    }
  }

  /**
    Replay. Whatever happens after a call's first completion - further decisions, recoveries, crashes and
    other drivers' work - `runApproved` on it starts no body and returns that first outcome: same status,
    result, error and evidence id.
   */
  lemma {:induction false} ReplayReturnsFirstOutcome(s: State, i: nat, body: BodyResult, later: seq<Action>,
      tool: Tool, argsValid: bool)
    requires Inv(s) && i < |s.drivers| && Attesting(s.drivers[i])
    requires Matches(s.db.calls[s.drivers[i].call], tool)
    ensures var done := Step(s, Advance(i, body));
      done.drivers[i].Returned?
      && StartApproved(Run(done, later).db, s.drivers[i].call, tool, argsValid) == Repeated(done.drivers[i].outcome)
  {
    FirstCompletion(s, i, body);
    StepKeeps(s, Advance(i, body));
    SettledForEver(Step(s, Advance(i, body)), later, s.drivers[i].call);
  }

  /** A refusal settles its call as well: from then on every replay reports the denial and its evidence. */
  lemma {:induction false} RefusalSettles(s: State, approval: Id, v: Verdict, later: seq<Action>)
    requires Inv(s) && approval in s.db.approvals && s.db.approvals[approval].verdict.status.Pending?
    requires !v.status.Approved? && ResolveApproval(s.db, approval, v).Ok?
    ensures var c := s.db.approvals[approval].call;
      var s' := Run(Step(s, Resolve(approval, v)), later);
      c in s'.db.calls
      && ReplayTerminal(s'.db, c)
      == Replayed(CallRefused(c, DenialMessage(s.db.calls[c].tool, v.status), s.db.nextId))
  {
    var c := s.db.approvals[approval].call;
    assert ApprovalOk(s.db, approval);
    RefusalWrites(s.db, approval, v);
    WaitingIsUnowned(s, c);
    var s' := Step(s, Resolve(approval, v));
    EvidenceAppended(s.db, s'.db, s'.db.evidence[|s.db.evidence|], c);
    StepKeeps(s, Resolve(approval, v));
    SettledForEver(s', later, c);
  }

  // ----- the rules over time -----------------------------------------------------------------

  /** A tool no rule speaks about, or a rule asks about, is parked: nothing starts, and the user has it to decide. */
  lemma {:induction false} UnruledWaits(s: State, run: Id, step: Option<Id>, tool: Tool, args: string)
    requires Asks(s.db.policy, tool.name, tool.capability)
    ensures var i, c := |s.drivers|, s.db.nextId;
      var t := Step(Step(Step(s, Enqueue(run, step, tool, args, None)), Advance(i, Err(""))), Advance(i, Err("")));
      && i < |t.drivers| && t.drivers[i] == Returned(CallWaiting(c, c + 1))
      && t.started == s.started && t.allowed == s.allowed
      && c in t.db.calls && t.db.calls[c].status.ApprovalRequired?
      && c + 1 in t.db.approvals && t.db.approvals[c + 1] == ApprovalRow(run, c, Verdict(ApprovalStatus.Pending, Once))
  {
    DecidesExactly(s.db.policy, tool.name, tool.capability);
  }

  /** Neither a policy edit nor a decision "always" or "never". */
  predicate LeavesPolicy(a: Action) {
    !a.SetPolicy? && (a.Resolve? ==> a.verdict.scope.Once?)
  }

  lemma {:induction false} RecoveryLeavesPolicy(d: Db, seen: seq<Id>)
    ensures RecoverInterrupted(d, seen).policy == d.policy
  {
    if seen != [] {
      RecoveryLeavesPolicy(d, seen[..|seen| - 1]);
    }
  }

  lemma {:induction false} DecideLeavesPolicy(s: State, i: nat)
    requires i < |s.drivers| && s.drivers[i].Enqueued? && s.drivers[i].call in s.db.calls
    ensures Decide(s, i).db.policy == s.db.policy
  {
  }

  lemma {:induction false} CompleteLeavesPolicy(s: State, i: nat, body: BodyResult)
    requires i < |s.drivers| && s.drivers[i].Executing? && s.drivers[i].call in s.db.calls
    ensures Complete(s, i, body).db.policy == s.db.policy
  {
  }

  lemma {:induction false} AttestLeavesPolicy(s: State, i: nat)
    requires i < |s.drivers| && Attesting(s.drivers[i]) && s.drivers[i].call in s.db.calls
    ensures Attest(s, i).db.policy == s.db.policy
  {
  }

  lemma {:induction false} ClaimLeavesPolicy(s: State, i: nat)
    requires i < |s.drivers| && s.drivers[i].Claiming? && s.drivers[i].call in s.db.calls
    ensures Claim(s, i).db.policy == s.db.policy
  {
  }

  lemma {:induction false} DriversLeavePolicy(s: State, i: nat, body: BodyResult)
    requires i < |s.drivers| && Active(s.drivers[i]) && s.drivers[i].call in s.db.calls
    ensures AdvanceDriver(s, i, body).db.policy == s.db.policy
  {
    match s.drivers[i] {
      case Enqueued(_, _, _) => DecideLeavesPolicy(s, i);
      case Approving(_, _) =>
      case Claiming(_, _, _) => ClaimLeavesPolicy(s, i);
      case Executing(_, _) => CompleteLeavesPolicy(s, i, body);
      case _ => AttestLeavesPolicy(s, i);
    }
  }

  lemma {:induction false} StepLeavesPolicy(s: State, a: Action)
    requires LeavesPolicy(a)
    ensures Step(s, a).db.policy == s.db.policy
  {
    match a {
      case Advance(i, body) =>
        if i < |s.drivers| && Active(s.drivers[i]) && s.drivers[i].call in s.db.calls { DriversLeavePolicy(s, i, body); }
      case Recover(seen) => RecoveryLeavesPolicy(s.db, seen);
      case Resolve(approval, v) =>
        if ResolveApproval(s.db, approval, v).Ok? { OnceChangesNothing(s.db, approval, v); }
      case _ =>
    }
  }

  lemma {:induction false} RunLeavesPolicy(s: State, later: seq<Action>)
    requires forall k :: 0 <= k < |later| ==> LeavesPolicy(later[k])
    ensures Run(s, later).db.policy == s.db.policy
  {
    if later != [] {
      RunLeavesPolicy(s, later[..|later| - 1]);
      StepLeavesPolicy(Run(s, later[..|later| - 1]), later[|later| - 1]);
    }
  }

  /**
    "Never" lasts: once it is accepted, and until the policy is edited or another decision remembered, every call of
    the tool is denied as it is enqueued, unless a workspace rule speaks first.
   */
  lemma {:induction false} NeverLasts(s: State, approval: Id, later: seq<Action>, run: Id, step: Option<Id>, tool: Tool,
      args: string)
    requires DecidesNow(s.db, approval, Verdict(ApprovalStatus.Denied, Never)) && ToolOf(s.db, approval) == tool.name != ""
    requires Silent(s.db.policy.workspace, tool.name, tool.capability)
    requires forall k :: 0 <= k < |later| ==> LeavesPolicy(later[k])
    ensures var t := Run(Step(s, Resolve(approval, Verdict(ApprovalStatus.Denied, Never))), later);
      var u := Step(Step(t, Enqueue(run, step, tool, args, None)), Advance(|t.drivers|, Err("")));
      && t.db.nextId in u.db.calls && u.db.calls[t.db.nextId].status.Denied? && u.started == t.started
      && u.allowed == t.allowed
  {
    var v := Verdict(ApprovalStatus.Denied, Never);
    NeverDenies(s.db, approval, tool.capability);
    RunLeavesPolicy(Step(s, Resolve(approval, v)), later);
    var t := Run(Step(s, Resolve(approval, v)), later);
    DecidesExactly(t.db.policy, tool.name, tool.capability);
    DenialIsImmediate(t, run, step, tool, args);
  }

  lemma {:induction false} DenialIsImmediate(t: State, run: Id, step: Option<Id>, tool: Tool, args: string)
    requires Ruled(t.db.policy, tool.name, tool.capability, Deny)
    ensures var u := Step(Step(t, Enqueue(run, step, tool, args, None)), Advance(|t.drivers|, Err("")));
      && t.db.nextId in u.db.calls && u.db.calls[t.db.nextId].status.Denied? && u.started == t.started
      && u.allowed == t.allowed
  {
    DecidesExactly(t.db.policy, tool.name, tool.capability);
  }
}
