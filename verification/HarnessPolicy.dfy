/**
  The permission policy, read from its two tables alone: which rule speaks about a tool, and what a remembered
  decision changes.
 */
module HarnessPolicy {
  import opened Common
  import opened Journal
  import opened HarnessStore

  // ----- which rule speaks -------------------------------------------------------------------

  predicate Says(rules: map<Target, Decision>, target: Target, decision: Decision) {
    target in rules && rules[target] == decision
  }

  predicate Silent(rules: map<Target, Decision>, tool: string, capability: string) {
    ToolTarget(tool) !in rules && CapabilityTarget(capability) !in rules
  }

  /** In one table a rule for the tool speaks before one for its capability. */
  predicate Rules(rules: map<Target, Decision>, tool: string, capability: string, decision: Decision) {
    || Says(rules, ToolTarget(tool), decision)
    || (ToolTarget(tool) !in rules && Says(rules, CapabilityTarget(capability), decision))
  }

  /** The first rule that speaks, the workspace table before the global one, is this decision. */
  predicate Ruled(p: Policy, tool: string, capability: string, decision: Decision) {
    || Rules(p.workspace, tool, capability, decision)
    || (Silent(p.workspace, tool, capability) && Rules(p.rules, tool, capability, decision))
  }

  predicate Unruled(p: Policy, tool: string, capability: string) {
    Silent(p.workspace, tool, capability) && Silent(p.rules, tool, capability)
  }

  /** The user is asked: a rule says so, or no rule speaks at all. */
  predicate Asks(p: Policy, tool: string, capability: string) {
    Ruled(p, tool, capability, Ask) || Unruled(p, tool, capability)
  }

  /** The policy's answer from the tables alone: the first rule that speaks, and "ask" if none does. */
  lemma {:induction false} DecidesExactly(p: Policy, tool: string, capability: string)
    ensures DecidePermission(p, tool, capability).Allow? <==> Ruled(p, tool, capability, Allow)
    ensures DecidePermission(p, tool, capability).Deny? <==> Ruled(p, tool, capability, Deny)
    ensures DecidePermission(p, tool, capability).Ask? <==> Asks(p, tool, capability)
  {
  }

  /** One rule, and no more than one, decides. */
  lemma {:induction false} OneRuleDecides(p: Policy, tool: string, capability: string)
    ensures Unruled(p, tool, capability) <==> forall decision :: !Ruled(p, tool, capability, decision)
    ensures forall x, y :: Ruled(p, tool, capability, x) && Ruled(p, tool, capability, y) ==> x == y
  {
    if !Unruled(p, tool, capability) {
      var d := DecidePermission(p, tool, capability);
      DecidesExactly(p, tool, capability);
      assert Ruled(p, tool, capability, d);
    }
  }

  // ----- what a remembered decision changes --------------------------------------------------

  /** The tool of an approval's call. */
  function ToolOf(d: Db, approval: Id): string {
    if approval in d.approvals && d.approvals[approval].call in d.calls then d.calls[d.approvals[approval].call].tool else ""
  }

  /** An undecided approval of a known tool, decided now. */
  predicate DecidesNow(d: Db, approval: Id, v: Verdict) {
    && approval in d.approvals && d.approvals[approval].verdict.status.Pending?
    && ResolveApproval(d, approval, v).Ok?
  }

  /** "Always" makes the policy allow the tool from then on, exactly unless a workspace rule says otherwise. */
  lemma {:induction false} AlwaysAllows(d: Db, approval: Id, capability: string)
    requires DecidesNow(d, approval, Verdict(ApprovalStatus.Approved, Always)) && ToolOf(d, approval) != ""
    ensures var p', tool := ResolveApproval(d, approval, Verdict(ApprovalStatus.Approved, Always)).value.policy, ToolOf(d, approval);
      Ruled(p', tool, capability, Allow) <==>
        Silent(d.policy.workspace, tool, capability) || Rules(d.policy.workspace, tool, capability, Allow)
  {
  }

  /** "Never" makes the policy deny the tool from then on, exactly unless a workspace rule says otherwise. */
  lemma {:induction false} NeverDenies(d: Db, approval: Id, capability: string)
    requires DecidesNow(d, approval, Verdict(ApprovalStatus.Denied, Never)) && ToolOf(d, approval) != ""
    ensures var p', tool := ResolveApproval(d, approval, Verdict(ApprovalStatus.Denied, Never)).value.policy, ToolOf(d, approval);
      Ruled(p', tool, capability, Deny) <==>
        Silent(d.policy.workspace, tool, capability) || Rules(d.policy.workspace, tool, capability, Deny)
  {
  }

  /** Whatever is decided, and whether it is accepted: rules for other targets, and the workspace's, stay. */
  lemma {:induction false} OtherRulesStay(d: Db, approval: Id, v: Verdict, target: Target)
    requires ResolveApproval(d, approval, v).Ok? && target != ToolTarget(ToolOf(d, approval))
    ensures var p' := ResolveApproval(d, approval, v).value.policy;
      && p'.workspace == d.policy.workspace
      && (target in p'.rules <==> target in d.policy.rules)
      && (target in p'.rules ==> p'.rules[target] == d.policy.rules[target])
  {
  }

  /** A decision for this once, one repeated, and one about a nameless tool leave the policy as it was. */
  lemma {:induction false} OnceChangesNothing(d: Db, approval: Id, v: Verdict)
    requires ResolveApproval(d, approval, v).Ok?
    requires v.scope.Once? || !DecidesNow(d, approval, v) || ToolOf(d, approval) == ""
    ensures ResolveApproval(d, approval, v).value.policy == d.policy
  {
  }
}
