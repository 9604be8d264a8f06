/**
  Safety of the driver system over every interleaving: each action keeps the invariant, so that in every
  reachable state a tool body has started at most once, only when authorised, and log and tables agree.
 */
module HarnessSafety {
  import opened Common
  import opened Journal
  import opened HarnessStore
  import opened HarnessPolicy
  import opened HarnessProtocol
  import opened HarnessInvariant

  // ----- what one transaction does to the call it works on -----------------------------------

  lemma {:induction false} EvidenceAppended(d: Db, d': Db, row: EvidenceRow, c: Id)
    requires d'.evidence == d.evidence + [row]
    ensures row.source != c || row.kind.ModelErrorKind? ==> SameEvidence(d, d', c)
    ensures row.source == c ==> LatestEvidence(d'.evidence, c, row.kind) == Some(row.id)
    ensures LatestEvidence(d.evidence, c, DenialKind).Some? ==> LatestEvidence(d'.evidence, c, DenialKind).Some?
  {
  }

  lemma {:induction false} FreshIsUnattested(d: Db, c: Id)
    requires IdsOk(d) && c !in d.calls
    ensures Unattested(d, c)
  {
    LatestHasRow(d.evidence, c, ToolResultKind);
    LatestHasRow(d.evidence, c, ToolErrorKind);
    LatestHasRow(d.evidence, c, DenialKind);
  }

  // ----- each action keeps the invariant -----------------------------------------------------

  /** A transaction that writes one call row, old or new, and nothing else but events. */
  lemma {:induction false} RowIsLocal(s: State, s': State, c: Id, row: CallRow)
    requires IdsOk(s.db) && (c in s.db.calls || c == s.db.nextId)
    requires s'.db == SetCall(s.db, c, row).(events := s'.db.events, nextId := s'.db.nextId)
    requires s'.db.nextId >= s.db.nextId && c < s'.db.nextId
    requires s'.allowed == s.allowed || s'.allowed == s.allowed + {c}
    requires s'.started == s.started || (s'.started == s.started + [c] && c !in s.started)
    requires NoRepeats(s.started) && (forall c :: c in s.started ==> c in s.db.calls)
    requires CallOk(s', c)
    ensures Local(s, s', c)
  {
    assert s'.db.calls == s.db.calls[c := row];
  }

  lemma {:induction false} EnqueueKeeps(s: State, run: Id, step: Option<Id>, tool: Tool, args: string, invalid: Option<string>)
    requires Inv(s)
    ensures Inv(Step(s, Enqueue(run, step, tool, args, invalid)))
  {
    var c := s.db.nextId;
    var s' := Step(s, Enqueue(run, step, tool, args, invalid));
    FreshIsUnattested(s.db, c);
    RowIsLocal(s, s', c, s'.db.calls[c]);
    LocalSpawn(s, s', c, Enqueued(c, tool, invalid));
  }

  /** A step of an owning driver that only rewrites its call's row. */
  lemma {:induction false} RowStep(s: State, s': State, i: nat, row: CallRow)
    requires Inv(s) && i < |s.drivers| == |s'.drivers| && Owner(s.drivers[i]).Some?
    requires s'.db == SetCall(s.db, s.drivers[i].call, row).(events := s'.db.events)
    requires s'.allowed == s.allowed || s'.allowed == s.allowed + {s.drivers[i].call}
    requires s'.started == s.started || (s'.started == s.started + [s.drivers[i].call] && s.drivers[i].call !in s.started)
    requires s'.drivers == s.drivers[i := s'.drivers[i]]
    requires Owner(s'.drivers[i]) == None || Owner(s'.drivers[i]) == Owner(s.drivers[i])
    requires CallOk(s', s.drivers[i].call) && DriverOk(s', s'.drivers[i])
    requires forall a :: a in s.db.approvals && s.db.approvals[a].call == s.drivers[i].call ==> ApprovalOk(s'.db, a)
    ensures Inv(s')
  {
    RowIsLocal(s, s', s.drivers[i].call, row);
    LocalStep(s, s', s.drivers[i].call, i);
  }

  lemma {:induction false} InvalidKeeps(s: State, i: nat, message: string)
    requires Inv(s) && i < |s.drivers| && s.drivers[i].Enqueued?
    ensures var c := s.drivers[i].call;
      Inv(Put(s, i, FailToolCall(s.db, c, message, None), ErrorEvidence(c, message, None)))
  {
    var c := s.drivers[i].call;
    var s' := Put(s, i, FailToolCall(s.db, c, message, None), ErrorEvidence(c, message, None));
    RowStep(s, s', i, s'.db.calls[c]);
  }

  lemma {:induction false} DenyKeeps(s: State, i: nat, message: string)
    requires Inv(s) && i < |s.drivers| && s.drivers[i].Enqueued?
    ensures var c := s.drivers[i].call; Inv(Put(s, i, DenyToolCall(s.db, c, message), DenialEvidence(c, message)))
  {
    var c := s.drivers[i].call;
    var s' := Put(s, i, DenyToolCall(s.db, c, message), DenialEvidence(c, message));
    RowStep(s, s', i, s'.db.calls[c]);
  }

  lemma {:induction false} AllowKeeps(s: State, i: nat)
    requires Inv(s) && i < |s.drivers| && s.drivers[i].Enqueued?
    ensures var Enqueued(c, tool, _) := s.drivers[i];
      Inv(Put(s, i, s.db, Claiming(c, tool, CallStatus.Pending)).(allowed := s.allowed + {c}))
  {
  }

  /** Inserting the one approval of a call that had none. */
  lemma {:induction false} ApprovalIsLocal(s: State, s': State, c: Id)
    requires IdsOk(s.db) && c in s.db.calls && CallOk(s, c) && s.db.calls[c].status.Pending?
    requires NoRepeats(s.started) && (forall c :: c in s.started ==> c in s.db.calls)
    requires s' == s.(db := CreateApproval(s.db, s.db.calls[c].run, c), drivers := s'.drivers)
    requires !HasApproval(s.db, c)
    ensures Local(s, s', c) && ApprovalsAbout(s'.db, c) && Waits(s'.db, c, s.db.nextId)
  {
    var a := s.db.nextId;
    assert s'.db.approvals == s.db.approvals[a := s'.db.approvals[a]] && a !in s.db.approvals;
    forall x | x in s.db.calls && x != c ensures Untouched(s, s', x) {
      assert SameApprovals(s.db, s'.db, x);
    }
  }

  lemma {:induction false} AskKeeps(s: State, i: nat)
    requires Inv(s) && i < |s.drivers| && s.drivers[i].Enqueued?
    ensures var c := s.drivers[i].call;
      Inv(Put(s, i, CreateApproval(s.db, s.db.calls[c].run, c), Approving(c, s.db.nextId)))
  {
    var c := s.drivers[i].call;
    var s' := Put(s, i, CreateApproval(s.db, s.db.calls[c].run, c), Approving(c, s.db.nextId));
    ApprovalIsLocal(s, s', c);
    LocalStep(s, s', c, i);
  }

  lemma {:induction false} MarkKeeps(s: State, i: nat)
    requires Inv(s) && i < |s.drivers| && s.drivers[i].Approving?
    ensures var Approving(c, a) := s.drivers[i];
      Inv(Put(s, i, MarkApprovalRequired(s.db, c), Returned(CallWaiting(c, a))))
  {
    var Approving(c, a) := s.drivers[i];
    var s' := Put(s, i, MarkApprovalRequired(s.db, c), Returned(CallWaiting(c, a)));
    assert Waits(s'.db, c, a);
    RowStep(s, s', i, s'.db.calls[c]);
  }

  lemma {:induction false} CompleteKeeps(s: State, i: nat, body: BodyResult)
    requires Inv(s) && i < |s.drivers| && s.drivers[i].Executing?
    ensures Inv(Complete(s, i, body))
  {
    var c := s.drivers[i].call;
    var s' := Complete(s, i, body);
    RowStep(s, s', i, s'.db.calls[c]);
  }

  /** A driver that gives up its call, or ends, changes nothing else. */
  lemma {:induction false} RetireKeeps(s: State, i: nat, next: Driver)
    requires Inv(s) && i < |s.drivers| && !Active(next)
    ensures Inv(s.(drivers := s.drivers[i := next]))
  {
  }

  lemma {:induction false} WaitingIsUnowned(s: State, c: Id)
    requires Inv(s) && c in s.db.calls && s.db.calls[c].status.ApprovalRequired?
    ensures Unowned(s, c)
  {
  }

  /** Whoever wins the claim was authorised and is the first to start the call. */
  lemma {:induction false} WinnerIsAuthorised(s: State, i: nat)
    requires Inv(s) && i < |s.drivers| && s.drivers[i].Claiming?
    requires MarkRunning(s.db, s.drivers[i].call, s.drivers[i].expected).Some?
    ensures var c := s.drivers[i].call;
      && c !in s.started && (c in s.allowed || HasApproved(s.db, c))
      && (forall j :: 0 <= j < |s.drivers| && j != i ==> Owner(s.drivers[j]) != Some(c))
      && (forall a :: a in s.db.approvals && s.db.approvals[a].call == c ==> s.db.approvals[a].verdict.status.Approved?)
  {
  }

  lemma {:induction false} ClaimKeeps(s: State, i: nat)
    requires Inv(s) && i < |s.drivers| && s.drivers[i].Claiming?
    ensures Inv(Claim(s, i))
  {
    var Claiming(c, tool, expected) := s.drivers[i];
    var s' := Claim(s, i);
    if MarkRunning(s.db, c, expected).Some? {
      WinnerIsAuthorised(s, i);
      StartedCallOk(s, s', c);
      RowIsLocal(s, s', c, s'.db.calls[c]);
      LocalStep(s, s', c, i);
    } else {
      RetireKeeps(s, i, s'.drivers[i]);
    }
  }

  lemma {:induction false} StartedCallOk(s: State, s': State, c: Id)
    requires c in s.db.calls && CallOk(s, c)
    requires s.db.calls[c].status.Pending? || s.db.calls[c].status.ApprovalRequired?
    requires c in s'.db.calls && s'.db.calls[c].status.Running?
    requires s'.allowed == s.allowed && s'.db.approvals == s.db.approvals && s'.db.evidence == s.db.evidence
    requires c in s.allowed || HasApproved(s.db, c)
    ensures CallOk(s', c)
  {
  }

  /** A tool-kind evidence row about a finished call. */
  lemma {:induction false} EvidenceIsLocal(s: State, s': State, c: Id, run: Id, kind: EvidenceKind, content: string)
    requires Inv(s) && c in s.db.calls && !kind.ModelErrorKind?
    requires s.db.calls[c].status.Succeeded? || s.db.calls[c].status.Failed? || s.db.calls[c].status.Denied?
    requires s' == s.(db := CreateEvidence(s.db, run, kind, c, content), drivers := s'.drivers)
    ensures Local(s, s', c) && ApprovalsAbout(s'.db, c)
  {
    var row := EvidenceRow(s.db.nextId, run, kind, c, content);
    forall x | x in s.db.calls ensures x != c ==> Untouched(s, s', x) {
      EvidenceAppended(s.db, s'.db, row, x);
    }
    EvidenceAppended(s.db, s'.db, row, c);
    forall a | a in s.db.approvals && s.db.approvals[a].call == c ensures ApprovalOk(s'.db, a) {
      assert ApprovalOk(s.db, a);
    }
    assert CallOk(s, c);
    assert HasApproved(s.db, c) ==> HasApproved(s'.db, c);
  }

  lemma {:induction false} AttestKeeps(s: State, i: nat)
    requires Inv(s) && i < |s.drivers| && Attesting(s.drivers[i])
    ensures Inv(Attest(s, i))
  {
    var c := s.drivers[i].call;
    var s' := Attest(s, i);
    assert DriverOk(s, s.drivers[i]);
    if s'.db == s.db {
      RetireKeeps(s, i, s'.drivers[i]);
    } else {
      var row := s'.db.evidence[|s.db.evidence|];
      EvidenceIsLocal(s, s', c, row.run, row.kind, row.content);
      LocalStep(s, s', c, i);
    }
  }

  lemma {:induction false} RunApprovedKeeps(s: State, call: Id, tool: Tool, argsValid: bool)
    requires Inv(s)
    ensures Inv(Step(s, RunApproved(call, tool, argsValid)))
  {
    var s' := Step(s, RunApproved(call, tool, argsValid));
    SpawnedOwners(s.drivers, StartApproved(s.db, call, tool, argsValid));
    forall j | 0 <= j < |s'.drivers| ensures DriverOk(s', s'.drivers[j]) {
      if j < |s.drivers| {
        assert DriverOk(s, s.drivers[j]);
      }
    }
  }

  lemma {:induction false} VerdictLeavesOthers(d: Db, d': Db, approval: Id, v: Verdict, x: Id)
    requires approval in d.approvals && d.approvals[approval].call != x
    requires d'.approvals == d.approvals[approval := d.approvals[approval].(verdict := v)]
    ensures SameApprovals(d, d', x)
  {
  }

  lemma {:induction false} ApproveIsLocal(s: State, s': State, approval: Id, v: Verdict, policy: Policy)
    requires IdsOk(s.db) && approval in s.db.approvals && s.db.approvals[approval].verdict.status.Pending?
    requires NoRepeats(s.started) && (forall c :: c in s.started ==> c in s.db.calls)
    requires CallOk(s, s.db.approvals[approval].call)
    requires v.status.Approved? && s' == s.(db := RecordVerdict(s.db, approval, v).(policy := policy))
    ensures Local(s, s', s.db.approvals[approval].call)
  {
    var c := s.db.approvals[approval].call;
    assert Waits(s'.db, c, approval);
    assert HasApproved(s'.db, c);
    forall x | x in s.db.calls && x != c ensures Untouched(s, s', x) {
      VerdictLeavesOthers(s.db, s'.db, approval, v, x);
    }
  }

  lemma {:induction false} ApproveKeeps(s: State, approval: Id, v: Verdict, policy: Policy)
    requires Inv(s) && approval in s.db.approvals && s.db.approvals[approval].verdict.status.Pending?
    requires v.status.Approved?
    ensures Inv(s.(db := RecordVerdict(s.db, approval, v).(policy := policy)))
  {
    var s' := s.(db := RecordVerdict(s.db, approval, v).(policy := policy));
    var c := s.db.approvals[approval].call;
    ApproveIsLocal(s, s', approval, v, policy);
    forall j | 0 <= j < |s.drivers| && Owner(s.drivers[j]) == Some(c) ensures DriverOk(s', s.drivers[j]) {
      assert DriverOk(s, s.drivers[j]) && CallOk(s, c) && ApprovalOk(s.db, approval);
      assert HasApproval(s.db, c);
      if s.drivers[j].Approving? {
        assert Waits(s'.db, c, s.drivers[j].approval);
      }
    }
    LocalKeeps(s, s', c);
  }

  lemma {:induction false} RefuseIsLocal(s: State, s': State, approval: Id, v: Verdict, row: EvidenceRow)
    requires IdsOk(s.db) && approval in s.db.approvals
    requires NoRepeats(s.started) && (forall c :: c in s.started ==> c in s.db.calls)
    requires var c := s.db.approvals[approval].call;
      && c !in s.started && c < s.db.nextId && row.source == c && c in s'.db.calls
      && s'.db.calls == s.db.calls[c := s'.db.calls[c]] && s'.db.calls[c].status.Denied?
    requires s' == s.(db := s.db.(calls := s'.db.calls, evidence := s.db.evidence + [row], events := s'.db.events,
      approvals := s.db.approvals[approval := s.db.approvals[approval].(verdict := v)],
      policy := s'.db.policy, nextId := s.db.nextId + 1))
    requires !s.db.approvals[approval].verdict.status.Approved?
    ensures Local(s, s', s.db.approvals[approval].call)
  {
    var c := s.db.approvals[approval].call;
    forall x | x in s.db.calls && x != c ensures Untouched(s, s', x) {
      EvidenceAppended(s.db, s'.db, row, x);
      VerdictLeavesOthers(s.db, s'.db, approval, v, x);
    }
  }

  /** What a committed refusal of an undecided approval writes: verdict, denied row, one evidence row. */
  lemma {:induction false} RefusalWrites(d: Db, approval: Id, v: Verdict)
    requires approval in d.approvals && d.approvals[approval].call in d.calls && !v.status.Approved?
    requires !d.calls[d.approvals[approval].call].status.Denied?
    ensures CommitVerdict(d, approval, v).Ok? <==> d.calls[d.approvals[approval].call].status.ApprovalRequired?
    ensures CommitVerdict(d, approval, v).Ok? ==>
      var d' := CommitVerdict(d, approval, v).value;
      var c := d.approvals[approval].call;
      var message := DenialMessage(d.calls[c].tool, v.status);
      d' == d.(
        calls := d.calls[c := d.calls[c].(status := CallStatus.Denied, error := Some(message))],
        approvals := d.approvals[approval := d.approvals[approval].(verdict := v)],
        evidence := d.evidence + [EvidenceRow(d.nextId, d.calls[c].run, DenialKind, c, message)],
        events := d'.events, policy := d'.policy, nextId := d.nextId + 1)
  {
  }

  /** With a waiting call, a refusal denies the call and attests it in the same transaction. */
  lemma {:induction false} RefuseKeeps(s: State, approval: Id, v: Verdict, s': State, row: EvidenceRow)
    requires Inv(s) && approval in s.db.approvals
    requires s.db.calls[s.db.approvals[approval].call].status.ApprovalRequired?
    requires !s.db.approvals[approval].verdict.status.Approved? && (v.status.Denied? || v.status.Expired?)
    requires var c := s.db.approvals[approval].call;
      && row.source == c && row.kind.DenialKind? && c in s'.db.calls
      && s'.db.calls == s.db.calls[c := s'.db.calls[c]] && s'.db.calls[c].status.Denied?
    requires s' == s.(db := s.db.(calls := s'.db.calls, evidence := s.db.evidence + [row], events := s'.db.events,
      approvals := s.db.approvals[approval := s.db.approvals[approval].(verdict := v)],
      policy := s'.db.policy, nextId := s.db.nextId + 1))
    ensures Inv(s')
  {
    var c := s.db.approvals[approval].call;
    assert CallOk(s, c);
    WaitingIsUnowned(s, c);
    RefuseIsLocal(s, s', approval, v, row);
    EvidenceAppended(s.db, s'.db, row, c);
    LocalKeeps(s, s', c);
  }

  lemma {:induction false} CommitKeeps(s: State, approval: Id, v: Verdict)
    requires Inv(s) && approval in s.db.approvals && s.db.approvals[approval].verdict.status.Pending?
    requires !v.status.Pending? && CommitVerdict(s.db, approval, v).Ok?
    ensures Inv(s.(db := CommitVerdict(s.db, approval, v).value))
  {
    var s' := s.(db := CommitVerdict(s.db, approval, v).value);
    if v.status.Approved? {
      ApproveKeeps(s, approval, v, s'.db.policy);
    } else {
      assert ApprovalOk(s.db, approval);
      RefusalWrites(s.db, approval, v);
      RefuseKeeps(s, approval, v, s', s'.db.evidence[|s.db.evidence|]);
    }
  }

  lemma {:induction false} ResolveKeeps(s: State, approval: Id, v: Verdict)
    requires Inv(s)
    ensures Inv(Step(s, Resolve(approval, v)))
  {
    var r := ResolveApproval(s.db, approval, v);
    if r.Ok? && s.db.approvals[approval].verdict.status.Pending? {
      CommitKeeps(s, approval, v);
    }
  }

  lemma {:induction false} InterruptKeeps(s: State, c: Id)
    requires Inv(s)
    ensures Inv(s.(db := InterruptCall(s.db, c)))
  {
    if c in s.db.calls && s.db.calls[c].status.Running? {
      var s' := s.(db := InterruptCall(s.db, c));
      RowIsLocal(s, s', c, s'.db.calls[c]);
      LocalKeeps(s, s', c);
    }
  }

  lemma {:induction false} RecoverKeeps(s: State, seen: seq<Id>)
    requires Inv(s)
    ensures Inv(Step(s, Recover(seen)))
  {
    if seen != [] {
      var n := |seen| - 1;
      RecoverKeeps(s, seen[..n]);
      InterruptKeeps(Step(s, Recover(seen[..n])), seen[n]);
    }
  }

  lemma {:induction false} BookkeepIsLocal(s: State, a: Action)
    requires IdsOk(s.db) && Bookkeeping(a)
    requires NoRepeats(s.started) && (forall c :: c in s.started ==> c in s.db.calls)
    ensures var s' := Step(s, a); Local(s, s', s'.db.nextId)
  {
    var s' := Step(s, a);
    forall x | x in s.db.calls ensures Untouched(s, s', x) {
      if a.AddModelError? {
        EvidenceAppended(s.db, s'.db, s'.db.evidence[|s.db.evidence|], x);
      }
    }
  }

  lemma {:induction false} BookkeepKeeps(s: State, a: Action)
    requires Inv(s) && Bookkeeping(a)
    ensures Inv(Step(s, a))
  {
    BookkeepIsLocal(s, a);
    LocalKeeps(s, Step(s, a), Step(s, a).db.nextId);
  }

  lemma {:induction false} DecideKeeps(s: State, i: nat)
    requires Inv(s) && i < |s.drivers| && s.drivers[i].Enqueued?
    ensures Inv(Decide(s, i))
  {
    var Enqueued(call, tool, invalid) := s.drivers[i];
    if invalid.Some? {
      InvalidKeeps(s, i, invalid.value);
    } else {
      match DecidePermission(s.db.policy, tool.name, tool.capability)
      case Ask => AskKeeps(s, i);
      case Deny => DenyKeeps(s, i, "Tool " + tool.name + " denied by permission policy");
      case Allow => AllowKeeps(s, i);
    }
  }

  lemma {:induction false} AdvanceKeeps(s: State, i: nat, body: BodyResult)
    requires Inv(s) && i < |s.drivers| && Active(s.drivers[i]) && s.drivers[i].call in s.db.calls
    ensures Inv(AdvanceDriver(s, i, body))
  {
    match s.drivers[i]
    case Enqueued(_, _, _) => DecideKeeps(s, i);
    case Approving(_, _) => MarkKeeps(s, i);
    case Claiming(_, _, _) => ClaimKeeps(s, i);
    case Executing(_, _) => CompleteKeeps(s, i, body);
    case _ => AttestKeeps(s, i);
  }

  /** Every action, in every state where the invariant holds, leads to such a state. */
  lemma {:induction false} StepKeeps(s: State, a: Action)
    requires Inv(s)
    ensures Inv(Step(s, a))
  {
    match a
    case Enqueue(run, step, tool, args, invalid) => EnqueueKeeps(s, run, step, tool, args, invalid);
    case RunApproved(call, tool, argsValid) => RunApprovedKeeps(s, call, tool, argsValid);
    case Advance(i, body) =>
      if i < |s.drivers| && Active(s.drivers[i]) && s.drivers[i].call in s.db.calls { AdvanceKeeps(s, i, body); }
    case Crash(i) => if i < |s.drivers| && Active(s.drivers[i]) { RetireKeeps(s, i, Dead(s.drivers[i])); }
    case Resolve(approval, v) => ResolveKeeps(s, approval, v);
    case Recover(seen) => RecoverKeeps(s, seen);
    case _ => BookkeepKeeps(s, a);
  }

  lemma {:induction false} RunKeeps(s: State, actions: seq<Action>)
    requires Inv(s)
    ensures Inv(Run(s, actions))
  {
    if actions != [] {
      RunKeeps(s, actions[..|actions| - 1]);
      StepKeeps(Run(s, actions[..|actions| - 1]), actions[|actions| - 1]);
    }
  }

  /**
    At-most-once, authorised execution. Over every interleaving of enqueues, decisions, claims, completions,
    recoveries and crashes, no tool body starts twice, and each start was allowed by the policy at enqueue or
    has an approved approval.
   */
  lemma {:induction false} AtMostOnceAuthorised(policy: Policy, actions: seq<Action>)
    ensures var s := Run(Initial(policy), actions);
      && NoRepeats(s.started)
      && forall c :: c in s.started ==> c in s.allowed || HasApproved(s.db, c)
  {
    RunKeeps(Initial(policy), actions);
    var s := Run(Initial(policy), actions);
    forall c | c in s.started ensures c in s.allowed || HasApproved(s.db, c) {
      assert CallOk(s, c);
    }
  }

  /** A call enters the allowed set only when the first rule that speaks about its own tool says allow. */
  lemma {:induction false} AllowedByPolicyOnly(s: State, a: Action, c: Id)
    requires Inv(s) && c !in s.allowed && c in Step(s, a).allowed
    ensures c in s.db.calls && Ruled(s.db.policy, s.db.calls[c].tool, s.db.calls[c].capability, Allow)
  {
    assert a.Advance? && s.drivers[a.driver].Enqueued?;
    assert DriverOk(s, s.drivers[a.driver]);
    DecidesExactly(s.db.policy, s.db.calls[c].tool, s.db.calls[c].capability);
  }

  /**
    Coupling of the two machines in every reachable state: a waiting call has exactly one approval and it is
    pending or approved; an undecided approval has a call that did not run; a denied or expired approval has
    a denied call with denial evidence.
   */
  lemma {:induction false} ApprovalCoupling(policy: Policy, actions: seq<Action>)
    ensures var d := Run(Initial(policy), actions).db;
      && (forall c :: c in d.calls && d.calls[c].status.ApprovalRequired? ==> exists a :: Waits(d, c, a))
      && (forall a, b :: a in d.approvals && b in d.approvals && d.approvals[a].call == d.approvals[b].call ==> a == b)
      && (forall a :: a in d.approvals ==> d.approvals[a].call in d.calls && ApprovalOk(d, a))
  {
    RunKeeps(Initial(policy), actions);
    var s := Run(Initial(policy), actions);
    forall c | c in s.db.calls && s.db.calls[c].status.ApprovalRequired? ensures exists a :: Waits(s.db, c, a) {
      assert CallOk(s, c);
    }
  }
}
