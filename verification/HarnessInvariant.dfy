/**
  The inductive invariant of the driver system, and the lemma that localises its proof: a step that works
  on one call, and leaves every other call as it was, only has to re-establish what concerns that call.
 */
module HarnessInvariant {
  import opened Common
  import opened Journal
  import opened HarnessStore
  import opened HarnessProtocol

  // ----- evidence about a call ---------------------------------------------------------------

  lemma {:induction false} LatestHasRow(evidence: seq<EvidenceRow>, call: Id, kind: EvidenceKind)
    ensures LatestEvidence(evidence, call, kind).Some?
        ==> exists k :: 0 <= k < |evidence| && evidence[k].source == call && evidence[k].kind == kind
  {
    if evidence != [] {
      var n := |evidence| - 1;
      if !(evidence[n].source == call && evidence[n].kind == kind) {
        LatestHasRow(evidence[..n], call, kind);
      }
    }
  }

  ghost predicate Unattested(d: Db, call: Id) {
    && LatestEvidence(d.evidence, call, ToolResultKind).None?
    && LatestEvidence(d.evidence, call, ToolErrorKind).None?
    && LatestEvidence(d.evidence, call, DenialKind).None?
  }

  // ----- the invariant -----------------------------------------------------------------------

  ghost predicate IdsOk(d: Db) {
    && (forall r :: r in d.runs ==> r < d.nextId)
    && (forall s :: s in d.steps ==> s < d.nextId)
    && (forall c :: c in d.calls ==> c < d.nextId)
    && (forall a :: a in d.approvals ==> a < d.nextId && d.approvals[a].call in d.calls)
    && (forall k :: 0 <= k < |d.evidence| && !d.evidence[k].kind.ModelErrorKind? ==> d.evidence[k].source in d.calls)
  }

  ghost predicate HasApproval(d: Db, call: Id) {
    exists a :: a in d.approvals && d.approvals[a].call == call
  }

  ghost predicate Waits(d: Db, call: Id, a: Id) {
    && a in d.approvals && d.approvals[a].call == call
    && (d.approvals[a].verdict.status.Pending? || d.approvals[a].verdict.status.Approved?)
  }

  /** A started call was authorised and is past waiting; a waiting call has a live approval. */
  ghost predicate CallOk(s: State, c: Id)
    requires c in s.db.calls
  {
    var st := s.db.calls[c].status;
    && (c in s.started ==> !st.Pending? && !st.ApprovalRequired? && (c in s.allowed || HasApproved(s.db, c)))
    && (st.ApprovalRequired? ==> exists a :: Waits(s.db, c, a))
    && (st.Pending? || st.ApprovalRequired? || st.Running? || st.Interrupted? ==> Unattested(s.db, c))
  }

  /** An undecided approval belongs to a call that has not run; a refusal has denied its call, with evidence. */
  ghost predicate ApprovalOk(d: Db, a: Id)
    requires a in d.approvals && d.approvals[a].call in d.calls
  {
    var st := d.calls[d.approvals[a].call].status;
    match d.approvals[a].verdict.status
    case Pending => st.Pending? || st.ApprovalRequired?
    case Approved => true
    case _ => st.Denied? && LatestEvidence(d.evidence, d.approvals[a].call, DenialKind).Some?
  }

  ghost predicate DriverOk(s: State, dr: Driver) {
    Active(dr) ==>
      dr.call in s.db.calls &&
      var row := s.db.calls[dr.call];
      match dr
      case Enqueued(c, tool, _) => row.status.Pending? && Matches(row, tool) && !HasApproval(s.db, c)
      case Approving(c, a) => row.status.Pending? && Waits(s.db, c, a)
      case Claiming(c, _, expected) =>
        if expected.Pending? then row.status.Pending? && !HasApproval(s.db, c) && c in s.allowed
        else expected.ApprovalRequired? && HasApproved(s.db, c)
      case Executing(c, _) => (row.status.Running? || row.status.Interrupted?) && c in s.started
      case ResultEvidence(c, _, result) =>
        row.status.Succeeded? && row.result == Some(result) && result.Success? && Unattested(s.db, c)
      case ErrorEvidence(c, message, failure) =>
        row.status.Failed? && row.error == Some(message) && row.result == failure && Unattested(s.db, c)
      case DenialEvidence(c, message) => row.status.Denied? && row.error == Some(message) && Unattested(s.db, c)
  }

  /** The call whose row only this driver may write, if any. A claim on a waiting call owns nothing yet. */
  function Owner(dr: Driver): Option<Id> {
    if Active(dr) && !(dr.Claiming? && !dr.expected.Pending?) then Some(dr.call) else None
  }

  ghost predicate Unowned(s: State, call: Id) {
    forall i :: 0 <= i < |s.drivers| ==> Owner(s.drivers[i]) != Some(call)
  }

  ghost predicate OwnersDistinct(drivers: seq<Driver>) {
    forall i, j :: 0 <= i < j < |drivers| && Owner(drivers[i]).Some? ==> Owner(drivers[i]) != Owner(drivers[j])
  }

  ghost predicate NoRepeats(ids: seq<Id>) {
    forall i, j :: 0 <= i < j < |ids| ==> ids[i] != ids[j]
  }

  ghost predicate ApprovalsOk(d: Db)
    requires IdsOk(d)
  {
    && (forall a :: a in d.approvals ==> ApprovalOk(d, a))
    && (forall a, b :: a in d.approvals && b in d.approvals && d.approvals[a].call == d.approvals[b].call ==> a == b)
  }

  ghost predicate Inv(s: State) {
    && IdsOk(s.db)
    && (forall c :: c in s.db.calls ==> CallOk(s, c))
    && ApprovalsOk(s.db)
    && (forall i :: 0 <= i < |s.drivers| ==> DriverOk(s, s.drivers[i]))
    && OwnersDistinct(s.drivers)
    && NoRepeats(s.started)
    && (forall c :: c in s.started ==> c in s.db.calls)
  }

  // ----- locality ----------------------------------------------------------------------------

  ghost predicate SameEvidence(d: Db, d': Db, c: Id) {
    forall kind: EvidenceKind :: !kind.ModelErrorKind? ==> LatestEvidence(d'.evidence, c, kind) == LatestEvidence(d.evidence, c, kind)
  }

  ghost predicate SameApprovals(d: Db, d': Db, c: Id) {
    && (forall a :: a in d.approvals && d.approvals[a].call == c ==> a in d'.approvals && d'.approvals[a] == d.approvals[a])
    && (forall a :: a in d'.approvals && d'.approvals[a].call == c ==> a in d.approvals && d.approvals[a].call == c)
  }

  /** Everything the invariant says about a call is read from these. */
  ghost predicate Untouched(s: State, s': State, c: Id)
    requires c in s.db.calls
  {
    && c in s'.db.calls && s'.db.calls[c] == s.db.calls[c]
    && SameEvidence(s.db, s'.db, c)
    && SameApprovals(s.db, s'.db, c)
    && (c in s'.started <==> c in s.started)
    && (c in s.allowed ==> c in s'.allowed)
  }

  /** No approval row disappears, moves to another call, or loses its approval. */
  ghost predicate ApprovalsPersist(d: Db, d': Db) {
    forall a :: a in d.approvals ==>
      && a in d'.approvals && d'.approvals[a].call == d.approvals[a].call
      && (d.approvals[a].verdict.status.Approved? ==> d'.approvals[a].verdict.status.Approved?)
  }

  lemma {:induction false} UntouchedCall(s: State, s': State, c: Id)
    requires c in s.db.calls && CallOk(s, c) && Untouched(s, s', c)
    ensures CallOk(s', c)
  {
    if s.db.calls[c].status.ApprovalRequired? {
      var a :| Waits(s.db, c, a);
      assert Waits(s'.db, c, a);
    }
    if HasApproved(s.db, c) {
      var a :| a in s.db.approvals && s.db.approvals[a].call == c && s.db.approvals[a].verdict.status.Approved?;
      assert a in s'.db.approvals && s'.db.approvals[a] == s.db.approvals[a];
    }
  }

  lemma {:induction false} UntouchedDriver(s: State, s': State, dr: Driver)
    requires DriverOk(s, dr) && (Active(dr) ==> Untouched(s, s', dr.call))
    ensures DriverOk(s', dr)
  {
  }

  /** A driver that owns nothing only relies on approvals staying approved. */
  lemma {:induction false} OwnerlessDriver(s: State, s': State, dr: Driver)
    requires DriverOk(s, dr) && Owner(dr).None?
    requires ApprovalsPersist(s.db, s'.db) && s.db.calls.Keys <= s'.db.calls.Keys
    ensures DriverOk(s', dr)
  {
  }

  /** The conditions under which a step concerns call `c0` alone. */
  ghost predicate Local(s: State, s': State, c0: Id) {
    && IdsOk(s'.db)
    && s.db.calls.Keys <= s'.db.calls.Keys <= s.db.calls.Keys + {c0}
    && (forall c :: c in s.db.calls && c != c0 ==> Untouched(s, s', c))
    && ApprovalsPersist(s.db, s'.db)
    && NoRepeats(s'.started)
    && (forall c :: c in s'.started ==> c in s'.db.calls)
    && (c0 in s'.db.calls ==> CallOk(s', c0))
  }

  ghost predicate ApprovalsAbout(d: Db, c0: Id)
    requires IdsOk(d)
  {
    && (forall a :: a in d.approvals && d.approvals[a].call == c0 ==> ApprovalOk(d, a))
    && (forall a, b :: a in d.approvals && b in d.approvals && d.approvals[a].call == c0 && d.approvals[b].call == c0 ==> a == b)
  }

  lemma {:induction false} LocalCallsOk(s: State, s': State, c0: Id)
    requires Inv(s) && Local(s, s', c0)
    ensures forall c :: c in s'.db.calls ==> CallOk(s', c)
  {
    forall c | c in s'.db.calls ensures CallOk(s', c) {
      if c != c0 { UntouchedCall(s, s', c); }
    }
  }

  lemma {:induction false} LocalApprovalsOk(s: State, s': State, c0: Id)
    requires Inv(s) && Local(s, s', c0) && ApprovalsAbout(s'.db, c0)
    ensures ApprovalsOk(s'.db)
  {
    forall a | a in s'.db.approvals && s'.db.approvals[a].call != c0
      ensures ApprovalOk(s'.db, a) && a in s.db.approvals && s.db.approvals[a] == s'.db.approvals[a]
    {
      assert Untouched(s, s', s'.db.approvals[a].call);
      assert a in s.db.approvals && s.db.approvals[a].call == s'.db.approvals[a].call;
      assert ApprovalOk(s.db, a);
    }
  }

  /** A step of driver `i` on the call it owns, or comes to own. */
  lemma {:induction false} LocalStep(s: State, s': State, c0: Id, i: nat)
    requires Inv(s) && Local(s, s', c0) && ApprovalsAbout(s'.db, c0)
    requires i < |s.drivers| == |s'.drivers| && s'.drivers == s.drivers[i := s'.drivers[i]]
    requires forall j :: 0 <= j < |s.drivers| && j != i ==> Owner(s.drivers[j]) != Some(c0)
    requires Owner(s'.drivers[i]) == None || Owner(s'.drivers[i]) == Some(c0)
    requires DriverOk(s', s'.drivers[i])
    ensures Inv(s')
  {
    LocalCallsOk(s, s', c0);
    LocalApprovalsOk(s, s', c0);
    OtherDriversOk(s, s', c0, i);
  }

  /** A step outside the drivers: whoever owns the call must still find what it relies on. */
  lemma {:induction false} LocalKeeps(s: State, s': State, c0: Id)
    requires Inv(s) && Local(s, s', c0) && ApprovalsAbout(s'.db, c0)
    requires s'.drivers == s.drivers
    requires forall j :: 0 <= j < |s.drivers| && Owner(s.drivers[j]) == Some(c0) ==> DriverOk(s', s.drivers[j])
    ensures Inv(s')
  {
    LocalCallsOk(s, s', c0);
    LocalApprovalsOk(s, s', c0);
    forall j | 0 <= j < |s.drivers| ensures DriverOk(s', s.drivers[j]) {
      var dr := s.drivers[j];
      if Owner(dr).None? {
        OwnerlessDriver(s, s', dr);
      } else if Owner(dr) != Some(c0) {
        UntouchedDriver(s, s', dr);
      }
    }
  }

  /** A step that starts a driver on a call no driver owns. */
  lemma {:induction false} LocalSpawn(s: State, s': State, c0: Id, dr: Driver)
    requires Inv(s) && Local(s, s', c0) && ApprovalsAbout(s'.db, c0)
    requires s'.drivers == s.drivers + [dr] && DriverOk(s', dr)
    requires Unowned(s, c0)
    requires Owner(dr) == None || Owner(dr) == Some(c0)
    ensures Inv(s')
  {
    LocalCallsOk(s, s', c0);
    LocalApprovalsOk(s, s', c0);
    OtherDriversOk(s, s', c0, -1);
    forall j | 0 <= j < |s'.drivers| ensures DriverOk(s', s'.drivers[j]) {
      assert j < |s.drivers| ==> s'.drivers[j] == s.drivers[j];
    }
    SpawnedOwners(s.drivers, dr);
  }

  lemma {:induction false} SpawnedOwners(drivers: seq<Driver>, dr: Driver)
    requires OwnersDistinct(drivers)
    requires Owner(dr).None? || forall i :: 0 <= i < |drivers| ==> Owner(drivers[i]) != Owner(dr)
    ensures OwnersDistinct(drivers + [dr])
  {
  }

  lemma {:induction false} OtherDriversOk(s: State, s': State, c0: Id, i: int)
    requires Inv(s) && Local(s, s', c0)
    requires forall j :: 0 <= j < |s.drivers| && j != i ==> Owner(s.drivers[j]) != Some(c0)
    ensures forall j :: 0 <= j < |s.drivers| && j != i ==> DriverOk(s', s.drivers[j])
  {
    forall j | 0 <= j < |s.drivers| && j != i ensures DriverOk(s', s.drivers[j]) {
      var dr := s.drivers[j];
      if Owner(dr).None? {
        OwnerlessDriver(s, s', dr);
      } else {
        UntouchedDriver(s, s', dr);
      }
    }
  }
}
