/**
  Write leases on scopes (paths) and the collaboration gate in front of them.

  The lease table is a sequence of rows in insertion order; a lease's id is its position. Instants are
  milliseconds; the texts the table stores compare like the numbers.
 */
module ScopeLeases {
  import opened Common
  import EventLog

  datatype Lease = Lease(
    task: Id,
    scope: string,
    active: bool,
    hierarchical: bool,
    created: nat,
    heartbeat: nat,
    expires: nat,
    released: Option<nat>)

  datatype Grant = Granted(lease: Id) | Conflict(owner: Id)

  /** One statement sequence of the store, with the instants it read. */
  datatype Op =
    | Claim(task: Id, scope: string, now: nat, beat: nat, expires: nat)
    | Heartbeat(lease: Id, now: nat, expires: nat)
    | Release(task: Id, now: nat)

  // ----- the statements ----------------------------------------------------------------------

  /** Math.max(30, ttlSeconds) * 1000. */
  function LifeOf(ttlSeconds: int): nat {
    (if ttlSeconds > 30 then ttlSeconds else 30) * 1000
  }

  predicate Live(l: Lease, now: nat) {
    l.active && l.expires > now
  }

  function Ended(l: Lease, now: nat): Lease {
    l.(active := false, released := Some(now))
  }

  /** Releases every active lease whose expiry has come. */
  function Sweep(leases: seq<Lease>, now: nat): (swept: seq<Lease>)
    ensures |swept| == |leases|
  {
    seq(|leases|, i requires 0 <= i < |leases| =>
      if leases[i].active && leases[i].expires <= now then Ended(leases[i], now) else leases[i])
  }

  function ReleaseTask(leases: seq<Lease>, task: Id, now: nat): (left: seq<Lease>)
    ensures |left| == |leases|
  {
    seq(|leases|, i requires 0 <= i < |leases| =>
      if leases[i].active && leases[i].task == task then Ended(leases[i], now) else leases[i])
  }

  /** The first active row with exactly this scope. */
  function FindActive(leases: seq<Lease>, scope: string, from: nat): (found: Option<Id>)
    requires from <= |leases|
    ensures found.Some? ==>
      from <= found.value < |leases| && leases[found.value].active && leases[found.value].scope == scope
    ensures found.None? ==> forall i :: from <= i < |leases| && leases[i].active ==> leases[i].scope != scope
    decreases |leases| - from
  {
    if from == |leases| then None
    else if leases[from].active && leases[from].scope == scope then Some(from)
    else FindActive(leases, scope, from + 1)
  }

  /** `a` lies under `b`: it starts with `b` and a slash. */
  predicate Under(a: string, b: string) {
    b + "/" <= a
  }

  predicate Nested(a: string, b: string) {
    Under(a, b) || Under(b, a)
  }

  predicate OverlapsOtherTask(leases: seq<Lease>, task: Id, scope: string) {
    exists i | 0 <= i < |leases| :: leases[i].active && leases[i].task != task && Nested(leases[i].scope, scope)
  }

  function Renew(leases: seq<Lease>, lease: Id, beat: nat, expires: nat): seq<Lease>
    requires lease < |leases|
  {
    leases[lease := leases[lease].(heartbeat := beat, expires := expires)]
  }

  function Grants(leases: seq<Lease>, c: Op): Grant
    requires c.Claim?
  {
    var swept := Sweep(leases, c.now);
    var exact := FindActive(swept, c.scope, 0);
    if exact.None? then Granted(|swept|)
    else if swept[exact.value].task == c.task then Granted(exact.value)
    else Conflict(swept[exact.value].task)
  }

  function AfterClaim(leases: seq<Lease>, c: Op): seq<Lease>
    requires c.Claim?
  {
    var swept := Sweep(leases, c.now);
    var exact := FindActive(swept, c.scope, 0);
    if exact.None? then
      var nested := OverlapsOtherTask(swept, c.task, c.scope);
      swept + [Lease(c.task, c.scope, true, nested, c.now, c.now, c.expires, None)]
    else if swept[exact.value].task == c.task then Renew(swept, exact.value, c.beat, c.expires)
    else swept
  }

  function Apply(leases: seq<Lease>, op: Op): seq<Lease> {
    match op
    case Claim(_, _, _, _, _) => AfterClaim(leases, op)
    case Heartbeat(lease, now, expires) =>
      if lease < |leases| && leases[lease].active then Renew(leases, lease, now, expires) else leases
    case Release(task, now) => ReleaseTask(leases, task, now)
  }

  function Run(leases: seq<Lease>, ops: seq<Op>): seq<Lease>
    decreases |ops|
  {
    if ops == [] then leases else Run(Apply(leases, ops[0]), ops[1..])
  }

  // ----- at most one active lease per scope --------------------------------------------------

  ghost predicate Exclusive(leases: seq<Lease>) {
    forall i, j :: 0 <= i < |leases| && 0 <= j < |leases| && i != j && leases[i].active && leases[j].active ==>
      leases[i].scope != leases[j].scope
  }

  lemma {:induction false} ApplyKeepsExclusive(leases: seq<Lease>, op: Op)
    requires Exclusive(leases)
    ensures Exclusive(Apply(leases, op))
  {
    if op.Claim? {
      assert Exclusive(Sweep(leases, op.now));
    }
  }

  /** Over all claims, heartbeats, releases and clock readings, a scope never has two active leases. */
  lemma {:induction false} RunIsExclusive(leases: seq<Lease>, ops: seq<Op>)
    requires Exclusive(leases)
    ensures Exclusive(Run(leases, ops))
    decreases |ops|
  {
    if ops != [] {
      ApplyKeepsExclusive(leases, ops[0]);
      RunIsExclusive(Apply(leases, ops[0]), ops[1..]);
    }
  }

  // ----- ancestors, by path segments ---------------------------------------------------------

  /** One more character: a slash opens a segment, any other extends the last one. */
  function Extend(parts: seq<string>, c: char): (longer: seq<string>)
    requires parts != []
    ensures longer != []
  {
    if c == '/' then parts + [""] else parts[..|parts| - 1] + [parts[|parts| - 1] + [c]]
  }

  /** The parts between slashes. */
  function Segments(path: string): (parts: seq<string>)
    ensures parts != []
  {
    if path == "" then [""] else Extend(Segments(path[..|path| - 1]), path[|path| - 1])
  }

  function Join(parts: seq<string>): string
    requires parts != []
  {
    if |parts| == 1 then parts[0] else Join(parts[..|parts| - 1]) + "/" + parts[|parts| - 1]
  }

  /** The segments of the one are the first segments of the other. */
  predicate ProperAncestor(a: string, b: string) {
    Segments(a) < Segments(b)
  }

  lemma {:induction false} ExtendAppend(x: seq<string>, y: seq<string>, c: char)
    requires y != []
    ensures Extend(x + y, c) == x + Extend(y, c)
  {
  }

  lemma {:induction false} SegmentsSnoc(path: string, c: char)
    ensures Segments(path + [c]) == Extend(Segments(path), c)
  {
    assert (path + [c])[..|path|] == path;
  }

  lemma {:induction false} SegmentsOfJoint(x: string, y: string)
    ensures Segments(x + "/" + y) == Segments(x) + Segments(y)
  {
    if y == "" {
      SegmentsSnoc(x, '/');
      assert x + "/" + y == x + ['/'];
    } else {
      var init, last := y[..|y| - 1], y[|y| - 1];
      SegmentsOfJoint(x, init);
      SegmentsSnoc(x + "/" + init, last);
      assert x + "/" + y == x + "/" + init + [last];
      ExtendAppend(Segments(x), Segments(init), last);
    }
  }

  lemma {:induction false} JoinExtend(parts: seq<string>, c: char)
    requires parts != []
    ensures Join(Extend(parts, c)) == Join(parts) + [c]
  {
  }

  lemma {:induction false} JoinSegments(path: string)
    ensures Join(Segments(path)) == path
  {
    if path == "" {
      assert Segments(path) == [""];
    } else {
      var init, last := path[..|path| - 1], path[|path| - 1];
      JoinSegments(init);
      JoinExtend(Segments(init), last);
      assert path == init + [last];
    }
  }

  lemma {:induction false} JoinAppend(x: seq<string>, y: seq<string>)
    requires x != [] && y != []
    ensures Join(x + y) == Join(x) + "/" + Join(y)
  {
    assert (x + y)[..|x + y| - 1] == x + y[..|y| - 1];
    if |y| == 1 {
      assert x + y[..0] == x;
    } else {
      JoinAppend(x, y[..|y| - 1]);
    }
  }

  /** The text test the store makes is the ancestor relation on path segments. */
  lemma {:induction false} UnderIsDescent(a: string, b: string)
    ensures Under(a, b) <==> ProperAncestor(b, a)
  {
    if Under(a, b) {
      SegmentsOfJoint(b, a[|b| + 1..]);
      assert a == b + "/" + a[|b| + 1..];
    }
    if ProperAncestor(b, a) {
      var rest := Segments(a)[|Segments(b)|..];
      assert Segments(a) == Segments(b) + rest;
      JoinAppend(Segments(b), rest);
      JoinSegments(a);
      JoinSegments(b);
    }
  }

  lemma {:induction false} NestedIsRelative(a: string, b: string)
    ensures Nested(a, b) <==> ProperAncestor(a, b) || ProperAncestor(b, a)
  {
    UnderIsDescent(a, b);
    UnderIsDescent(b, a);
  }

  // ----- what one claim does -----------------------------------------------------------------

  lemma {:induction false} ExactIs(leases: seq<Lease>, c: Op, i: nat)
    requires c.Claim? && Exclusive(leases) && i < |leases| && Live(leases[i], c.now) && leases[i].scope == c.scope
    ensures FindActive(Sweep(leases, c.now), c.scope, 0) == Some(i) && Sweep(leases, c.now)[i] == leases[i]
  {
  }

  /** A claim on a scope another task holds fails, names the holder and leaves its lease as it was. */
  lemma {:induction false} HeldScopeIsRefused(leases: seq<Lease>, c: Op, i: nat)
    requires c.Claim? && Exclusive(leases) && i < |leases| && Live(leases[i], c.now)
    requires leases[i].scope == c.scope && leases[i].task != c.task
    ensures Grants(leases, c) == Conflict(leases[i].task)
    ensures Apply(leases, c) == Sweep(leases, c.now) && Apply(leases, c)[i] == leases[i]
  {
    ExactIs(leases, c, i);
  }

  /** The holder's own claim creates no lease; it only moves the heartbeat and the expiry of the one it has. */
  lemma {:induction false} ReclaimRenews(leases: seq<Lease>, c: Op, i: nat)
    requires c.Claim? && Exclusive(leases) && i < |leases| && Live(leases[i], c.now)
    requires leases[i].scope == c.scope && leases[i].task == c.task
    ensures Grants(leases, c) == Granted(i) && |Apply(leases, c)| == |leases|
    ensures Apply(leases, c)[i] == leases[i].(heartbeat := c.beat, expires := c.expires)
    ensures forall j :: 0 <= j < |leases| && j != i ==> Apply(leases, c)[j] == Sweep(leases, c.now)[j]
  {
    ExactIs(leases, c, i);
  }

  /** A claim is refused exactly when another task holds a live lease on that very scope. */
  lemma {:induction false} RefusedExactly(leases: seq<Lease>, c: Op)
    requires c.Claim? && Exclusive(leases)
    ensures Grants(leases, c).Conflict? <==>
      exists i :: 0 <= i < |leases| && Live(leases[i], c.now) && leases[i].scope == c.scope && leases[i].task != c.task
  {
    var swept := Sweep(leases, c.now);
    var exact := FindActive(swept, c.scope, 0);
    if exact.Some? {
      assert Live(leases[exact.value], c.now) && swept[exact.value] == leases[exact.value];
    }
    if i :| 0 <= i < |leases| && Live(leases[i], c.now) && leases[i].scope == c.scope && leases[i].task != c.task {
      ExactIs(leases, c, i);
    }
  }

  /**
    A new lease is flagged hierarchical exactly when another task held a live lease on a proper ancestor or
    descendant at that moment; nobody held the scope itself.
   */
  lemma {:induction false} FlagIsExact(leases: seq<Lease>, c: Op)
    requires c.Claim? && |Apply(leases, c)| > |leases|
    ensures var fresh' := Apply(leases, c)[|leases|];
      && fresh'.task == c.task && fresh'.scope == c.scope && fresh'.active && fresh'.expires == c.expires
      && (fresh'.hierarchical <==> exists i :: 0 <= i < |leases| && HoldsRelative(leases[i], c))
    ensures forall i :: 0 <= i < |leases| && Live(leases[i], c.now) ==> leases[i].scope != c.scope
  {
    var swept := Sweep(leases, c.now);
    assert forall i :: 0 <= i < |leases| ==> (swept[i].active <==> Live(leases[i], c.now));
    forall i | 0 <= i < |leases| && Live(leases[i], c.now)
      ensures leases[i].scope != c.scope
    {
      assert swept[i] == leases[i];
    }
    if i :| 0 <= i < |leases| && HoldsRelative(leases[i], c) {
      NestedIsRelative(leases[i].scope, c.scope);
      assert swept[i] == leases[i];
    }
    if i :| 0 <= i < |swept| && swept[i].active && swept[i].task != c.task && Nested(swept[i].scope, c.scope) {
      NestedIsRelative(leases[i].scope, c.scope);
      assert HoldsRelative(leases[i], c);
    }
  }

  ghost predicate HoldsRelative(l: Lease, c: Op)
    requires c.Claim?
  {
    Live(l, c.now) && l.task != c.task && (ProperAncestor(l.scope, c.scope) || ProperAncestor(c.scope, l.scope))
  }

  /** The lease as a claim at that instant leaves it: released if it was active and has expired. */
  ghost predicate Expires(was: Lease, now: nat, left: Lease) {
    left == if was.active && was.expires <= now then was.(active := false, released := Some(now)) else was
  }

  ghost predicate Holds(l: Lease, c: Op)
    requires c.Claim?
  {
    l.active && l.expires > c.now && l.scope == c.scope
  }

  /** The table and the answer after a claim, row by row. */
  ghost predicate Claimed(was: seq<Lease>, c: Op, leases: seq<Lease>, grant: Grant)
    requires c.Claim?
  {
    && |leases| >= |was|
    && (forall i :: 0 <= i < |was| && grant != Granted(i) ==> Expires(was[i], c.now, leases[i]))
    && match grant
       case Conflict(owner) =>
         |leases| == |was| && owner != c.task && exists i :: 0 <= i < |was| && Holds(was[i], c) && was[i].task == owner
       case Granted(lease) =>
         if lease < |was| then
           && |leases| == |was| && Holds(was[lease], c) && was[lease].task == c.task
           && leases[lease] == was[lease].(heartbeat := c.beat, expires := c.expires)
         else
           && lease == |was| && |leases| == |was| + 1 && (forall i :: 0 <= i < |was| ==> !Holds(was[i], c))
           && leases[lease] == Lease(c.task, c.scope, true, leases[lease].hierarchical, c.now, c.now, c.expires, None)
           && (leases[lease].hierarchical <==> exists i :: 0 <= i < |was| && HoldsRelative(was[i], c))
  }

  lemma {:induction false} ClaimExactly(leases: seq<Lease>, c: Op)
    requires c.Claim? && Exclusive(leases)
    ensures Claimed(leases, c, Apply(leases, c), Grants(leases, c))
  {
    var swept := Sweep(leases, c.now);
    var exact := FindActive(swept, c.scope, 0);
    assert forall i :: 0 <= i < |leases| ==> Expires(leases[i], c.now, swept[i]);
    if exact.None? {
      FlagIsExact(leases, c);
    } else {
      assert Holds(leases[exact.value], c);
    }
  }

  // ----- exclusion over time -----------------------------------------------------------------

  /** The step leaves lease `i` alone: its holder does not release, and no claim finds it expired. */
  predicate Spares(leases: seq<Lease>, i: nat, op: Op)
    requires i < |leases|
  {
    match op
    case Claim(_, _, now, _, _) => now < leases[i].expires
    case Heartbeat(_, _, _) => true
    case Release(task, _) => task != leases[i].task
  }

  ghost predicate SparesAll(leases: seq<Lease>, i: nat, ops: seq<Op>)
    requires i < |leases|
    decreases |ops|
  {
    ops == []
    || (Spares(leases, i, ops[0]) && |Apply(leases, ops[0])| >= |leases|
        && SparesAll(Apply(leases, ops[0]), i, ops[1..]))
  }

  predicate SameHold(a: Lease, b: Lease) {
    a.active && b.active && a.task == b.task && a.scope == b.scope
  }

  /** An active lease ends by its holder's release or by a claim that reads a clock past its expiry, and by nothing else. */
  lemma {:induction false} EndsExactly(leases: seq<Lease>, i: nat, op: Op)
    requires Exclusive(leases) && i < |leases| && leases[i].active
    ensures |Apply(leases, op)| >= |leases|
    ensures Spares(leases, i, op) ==> SameHold(leases[i], Apply(leases, op)[i])
    ensures !Spares(leases, i, op) ==> !Apply(leases, op)[i].active
  {
  }

  /**
    While a lease is neither released nor past its expiry, it stays its holder's and every claim of its scope
    by another task is refused, whatever else happens in between.
   */
  lemma {:induction false} ExclusionOverTime(leases: seq<Lease>, i: nat, ops: seq<Op>, c: Op)
    requires Exclusive(leases) && i < |leases| && leases[i].active && SparesAll(leases, i, ops)
    requires c.Claim? && c.scope == leases[i].scope && c.task != leases[i].task
    ensures var later := Run(leases, ops);
      i < |later| && SameHold(leases[i], later[i]) && (c.now < later[i].expires ==> Grants(later, c) == Conflict(leases[i].task))
    decreases |ops|
  {
    if ops == [] {
      if c.now < leases[i].expires { HeldScopeIsRefused(leases, c, i); }
    } else {
      EndsExactly(leases, i, ops[0]);
      ApplyKeepsExclusive(leases, ops[0]);
      ExclusionOverTime(Apply(leases, ops[0]), i, ops[1..], c);
    }
  }

  /** An expired lease that no claim has swept yet is revived by its heartbeat: expiry alone does not end it. */
  lemma {:induction false} HeartbeatRevives(leases: seq<Lease>, i: nat, now: nat, expires: nat, c: Op)
    requires Exclusive(leases) && i < |leases| && leases[i].active && leases[i].expires <= now < expires
    requires c.Claim? && c.scope == leases[i].scope && c.task != leases[i].task && now <= c.now < expires
    ensures Grants(leases, c).Granted?
    ensures Grants(Apply(leases, Heartbeat(i, now, expires)), c) == Conflict(leases[i].task)
  {
    RefusedExactly(leases, c);
    var revived := Apply(leases, Heartbeat(i, now, expires));
    ApplyKeepsExclusive(leases, Heartbeat(i, now, expires));
    HeldScopeIsRefused(revived, c, i);
  }

  /** It happens: after one claim and the same silence, the second task gets the scope unless a heartbeat came first. */
  lemma {:induction false} HeartbeatDecides(task: Id, other: Id, scope: string, start: nat, end: nat, beat: nat, longer: nat,
      claim: nat, expires: nat)
    requires task != other && end <= beat <= claim < longer
    ensures var first, second := Claim(task, scope, start, start, end), Claim(other, scope, claim, claim, expires);
      && Grants(Run([], [first]), second) == Granted(1)
      && Grants(Run([], [first, Heartbeat(0, beat, longer)]), second) == Conflict(task)
  {
    var first, renewal := Claim(task, scope, start, start, end), Heartbeat(0, beat, longer);
    var second := Claim(other, scope, claim, claim, expires);
    var leases := Apply([], first);
    assert leases == [Lease(task, scope, true, false, start, start, end, None)];
    assert [first][1..] == [] && [first, renewal][1..] == [renewal] && [renewal][1..] == [];
    assert Run([], [first, renewal]) == Run(leases, [renewal]) == Apply(leases, renewal);
    HeartbeatRevives(leases, 0, beat, longer, second);
  }

  // ----- the store ---------------------------------------------------------------------------

  /** What the increasing clock reads next. */
  function NextInstant(last: nat, wall: nat): (now: nat)
    ensures now > last
  {
    if wall > last then wall else last + 1
  }

  class LeaseStore {
    var leases: seq<Lease>
    const clock: EventLog.Clock

    ghost predicate Valid()
      reads this
    {
      Exclusive(leases)
    }

    constructor (clock: EventLog.Clock)
      ensures Valid() && leases == [] && this.clock == clock
    {
      leases := [];
      this.clock := clock;
    }

    /** The statements of a claim, after the first clock reading. */
    method Take(task: Id, scope: string, now: nat, wallAtBeat: nat, expires: nat) returns (grant: Grant)
      requires Valid() && clock.last == now
      modifies this, clock
      ensures Valid()
      ensures var op := Claim(task, scope, now, NextInstant(now, wallAtBeat), expires);
        leases == Apply(old(leases), op) && grant == Grants(old(leases), op)
    {
      ApplyKeepsExclusive(leases, Claim(task, scope, now, NextInstant(now, wallAtBeat), expires));
      leases := Sweep(leases, now);
      var exact := FindActive(leases, scope, 0);
      if exact.None? {
        var nested := OverlapsOtherTask(leases, task, scope);
        grant := Granted(|leases|);
        leases := leases + [Lease(task, scope, true, nested, now, now, expires, None)];
      } else if leases[exact.value].task == task {
        var beat := clock.Now(wallAtBeat);
        leases := Renew(leases, exact.value, beat, expires);
        grant := Granted(exact.value);
      } else {
        grant := Conflict(leases[exact.value].task);
      }
    }

    /** The walls are what the system clock shows at each of the reads. */
    method ClaimScopeLease(task: Id, scope: string, ttlSeconds: int, wall: nat, wallAtBeat: nat, wallAtExpiry: nat)
        returns (grant: Grant)
      requires Valid()
      modifies this, clock
      ensures Valid()
      ensures var now := NextInstant(old(clock.last), wall);
        var op := Claim(task, scope, now, NextInstant(now, wallAtBeat), wallAtExpiry + LifeOf(ttlSeconds));
        && leases == Apply(old(leases), op) && grant == Grants(old(leases), op)
        && op.expires == wallAtExpiry + (if ttlSeconds <= 30 then 30_000 else 1000 * ttlSeconds)
        && Claimed(old(leases), op, leases, grant)
    {
      var expires := wallAtExpiry + LifeOf(ttlSeconds);
      var now := clock.Now(wall);
      ClaimExactly(leases, Claim(task, scope, now, NextInstant(now, wallAtBeat), expires));
      grant := Take(task, scope, now, wallAtBeat, expires);
    }

    /** Fails exactly when the lease is missing or inactive. */
    method HeartbeatScopeLease(lease: Id, ttlSeconds: int, wall: nat, wallAtExpiry: nat) returns (ok: bool)
      requires Valid()
      modifies this, clock
      ensures Valid() && old(clock.last) < clock.last
      ensures leases == Apply(old(leases), Heartbeat(lease, clock.last, wallAtExpiry + LifeOf(ttlSeconds)))
      ensures ok <==> lease < |old(leases)| && old(leases)[lease].active
      ensures leases == if !ok then old(leases) else old(leases)[lease := old(leases)[lease].(heartbeat := clock.last,
        expires := wallAtExpiry + (if ttlSeconds <= 30 then 30_000 else 1000 * ttlSeconds))]
    {
      var now := clock.Now(wall);
      ok := lease < |leases| && leases[lease].active;
      if ok {
        leases := Renew(leases, lease, now, wallAtExpiry + LifeOf(ttlSeconds));
      }
    }

    method ReleaseScopeLeases(task: Id, wall: nat)
      requires Valid()
      modifies this, clock
      ensures Valid() && old(clock.last) < clock.last && leases == Apply(old(leases), Release(task, clock.last))
      ensures |leases| == |old(leases)|
      ensures forall i :: 0 <= i < |leases| ==>
        leases[i] == if old(leases)[i].active && old(leases)[i].task == task
                     then old(leases)[i].(active := false, released := Some(clock.last)) else old(leases)[i]
    {
      var now := clock.Now(wall);
      leases := ReleaseTask(leases, task, now);
    }
  }

  // ----- the collaboration gate --------------------------------------------------------------

  /** What a policy pattern compiles to, one item of the regular expression at a time. */
  datatype Item =
    | Exactly(c: char)
    | RawStar          // `*` not yet rewritten
    | AnyChar          // `.`
    | NotSlashes       // `[^/]*`

  /** The first replacement: `**` becomes `.` followed by a star. */
  function FirstRewrite(pattern: string): seq<Item> {
    if pattern == "" then []
    else if "**" <= pattern then [AnyChar, RawStar] + FirstRewrite(pattern[2..])
    else [if pattern[0] == '*' then RawStar else Exactly(pattern[0])] + FirstRewrite(pattern[1..])
  }

  /** The second replacement rewrites every star there is, those of the first replacement included. */
  function SecondRewrite(items: seq<Item>): seq<Item> {
    if items == [] then []
    else [if items[0].RawStar? then NotSlashes else items[0]] + SecondRewrite(items[1..])
  }

  const LINE_ENDS := {'\n', '\r', '\U{2028}', '\U{2029}'}

  predicate Accepts(items: seq<Item>, text: string)
    decreases |items|, |text|
  {
    if items == [] then text == ""
    else
      match items[0]
      case NotSlashes =>
        Accepts(items[1..], text) || (text != "" && text[0] != '/' && Accepts(items, text[1..]))
      case AnyChar => text != "" && text[0] !in LINE_ENDS && Accepts(items[1..], text[1..])
      case Exactly(c) => text != "" && text[0] == c && Accepts(items[1..], text[1..])
      case RawStar => false
  }

  predicate Matches(pattern: string, scope: string) {
    Accepts(SecondRewrite(FirstRewrite(pattern)), scope)
  }

  predicate EndsLine(c: char) {
    c == '\n' || c == '\r' || c == '\U{2028}' || c == '\U{2029}'
  }

  /**
    What a pattern admits, read off it from the left: `**` one character that ends no line and then anything without
    a slash, `*` anything without a slash, every other character itself.
   */
  ghost predicate Fits(pattern: string, text: string)
    decreases |pattern|
  {
    if pattern == "" then text == ""
    else if "**" <= pattern then
      text != "" && !EndsLine(text[0]) && exists cut: nat :: Clear(text, 1, cut) && Fits(pattern[2..], text[cut..])
    else if pattern[0] == '*' then
      exists cut: nat :: Clear(text, 0, cut) && Fits(pattern[1..], text[cut..])
    else text != "" && text[0] == pattern[0] && Fits(pattern[1..], text[1..])
  }

  /** No slash between the two places. */
  predicate Clear(text: string, start: nat, cut: nat) {
    start <= cut <= |text| && '/' !in text[start..cut]
  }

  /** The text has no slash before the cut, and the items accept what follows it. */
  predicate CutFits(rest: seq<Item>, text: string, cut: nat) {
    cut <= |text| && '/' !in text[..cut] && Accepts(rest, text[cut..])
  }

  lemma {:induction false} CutShift(rest: seq<Item>, text: string, cut: nat)
    requires text != ""
    ensures CutFits(rest, text, cut + 1) <==> text[0] != '/' && CutFits(rest, text[1..], cut)
  {
    if cut < |text| {
      assert text[..cut + 1] == [text[0]] + text[1..][..cut] && text[cut + 1..] == text[1..][cut..];
    }
  }

  /** An item for anything without a slash, followed by others, accepts a text that can be cut in two for them. */
  lemma {:induction false} StarAccepts(rest: seq<Item>, text: string)
    ensures Accepts([NotSlashes] + rest, text) <==> exists cut: nat :: CutFits(rest, text, cut)
    decreases |text|
  {
    var items := [NotSlashes] + rest;
    assert items[1..] == rest && text[0..] == text;
    if Accepts(rest, text) {
      assert CutFits(rest, text, 0);
    } else if text != "" {
      StarAccepts(rest, text[1..]);
      if cut: nat :| CutFits(rest, text[1..], cut) {
        CutShift(rest, text, cut);
      }
      if cut: nat :| CutFits(rest, text, cut) {
        CutShift(rest, text, cut - 1);
      }
    }
  }

  /** What the two replacements leave of a pattern accepts exactly what the pattern admits. */
  lemma {:induction false} MatchesExactly(pattern: string, scope: string)
    ensures Matches(pattern, scope) <==> Fits(pattern, scope)
    decreases |pattern|, 1
  {
    if pattern == "" {
    } else if "**" <= pattern {
      DoubleStarFits(pattern, scope);
    } else if pattern[0] == '*' {
      StarFits(pattern, scope);
    } else {
      var items := SecondRewrite(FirstRewrite(pattern));
      assert items[1..] == SecondRewrite(FirstRewrite(pattern[1..]));
      if scope != "" {
        MatchesExactly(pattern[1..], scope[1..]);
      }
    }
  }

  lemma {:induction false} CutMatches(pattern: string, scope: string, start: nat, cut: nat)
    requires start <= |scope|
    ensures CutFits(SecondRewrite(FirstRewrite(pattern)), scope[start..], cut) <==>
      Clear(scope, start, start + cut) && Fits(pattern, scope[start + cut..])
    decreases |pattern|, 2
  {
    if start + cut <= |scope| {
      var rest := scope[start..];
      MatchesExactly(pattern, scope[start + cut..]);
      assert rest[cut..] == scope[start + cut..] && rest[..cut] == scope[start..start + cut];
    }
  }

  lemma {:induction false} StarFits(pattern: string, scope: string)
    requires pattern != "" && !("**" <= pattern) && pattern[0] == '*'
    ensures Matches(pattern, scope) <==> Fits(pattern, scope)
    decreases |pattern|, 0
  {
    var rest := SecondRewrite(FirstRewrite(pattern[1..]));
    assert FirstRewrite(pattern) == [RawStar] + FirstRewrite(pattern[1..]);
    assert SecondRewrite(FirstRewrite(pattern)) == [NotSlashes] + rest && scope[0..] == scope;
    StarAccepts(rest, scope);
    if Matches(pattern, scope) {
      var cut: nat :| CutFits(rest, scope, cut);
      CutMatches(pattern[1..], scope, 0, cut);
      assert Clear(scope, 0, 0 + cut);
    }
    if Fits(pattern, scope) {
      var cut: nat :| Clear(scope, 0, cut) && Fits(pattern[1..], scope[cut..]);
      CutMatches(pattern[1..], scope, 0, cut);
      assert CutFits(rest, scope, cut);
    }
  }

  lemma {:induction false} DoubleStarItems(items: seq<Item>)
    ensures SecondRewrite([AnyChar, RawStar] + items) == [AnyChar, NotSlashes] + SecondRewrite(items)
  {
    var all := [AnyChar, RawStar] + items;
    assert all[1..] == [RawStar] + items && all[1..][1..] == items;
  }

  lemma {:induction false} DoubleStarAccepts(pattern: string, scope: string)
    requires "**" <= pattern
    ensures Matches(pattern, scope) <==>
      scope != "" && !EndsLine(scope[0]) && Accepts([NotSlashes] + SecondRewrite(FirstRewrite(pattern[2..])), scope[1..])
  {
    var rest := SecondRewrite(FirstRewrite(pattern[2..]));
    var items := SecondRewrite(FirstRewrite(pattern));
    DoubleStarItems(FirstRewrite(pattern[2..]));
    assert items == [AnyChar] + ([NotSlashes] + rest) && items[1..] == [NotSlashes] + rest;
  }

  lemma {:induction false} DoubleStarFits(pattern: string, scope: string)
    requires "**" <= pattern
    ensures Matches(pattern, scope) <==> Fits(pattern, scope)
    decreases |pattern|, 0
  {
    DoubleStarAccepts(pattern, scope);
    if scope != "" && !EndsLine(scope[0]) {
      var rest := SecondRewrite(FirstRewrite(pattern[2..]));
      StarAccepts(rest, scope[1..]);
      if Matches(pattern, scope) {
        var cut: nat :| CutFits(rest, scope[1..], cut);
        CutMatches(pattern[2..], scope, 1, cut);
        assert Clear(scope, 1, 1 + cut);
      }
      if Fits(pattern, scope) {
        var cut: nat :| Clear(scope, 1, cut) && Fits(pattern[2..], scope[cut..]);
        CutMatches(pattern[2..], scope, 1, cut - 1);
        assert CutFits(rest, scope[1..], cut - 1);
      }
    }
  }

  lemma {:induction false} AcceptsNotSlashes(text: string)
    ensures Accepts([NotSlashes], text) <==> '/' !in text
  {
    var items := [NotSlashes];
    assert items[1..] == [];
    if text != "" {
      AcceptsNotSlashes(text[1..]);
      assert text == [text[0]] + text[1..];
    }
  }

  /**
    What a trailing `**` really admits: one character of any kind, then no further slash. So the pattern for everything in `src`
    admits the files directly in it and refuses every file in a folder below it.
   */
  lemma {:induction false} DoubleStarStopsAtSlash(folder: string, scope: string)
    requires '*' !in folder
    ensures Matches(folder + "**", scope) <==>
      && folder < scope
      && !EndsLine(scope[|folder|])
      && '/' !in scope[|folder| + 1..]
  {
    var pattern := folder + "**";
    if folder == "" {
      assert pattern == "**" && pattern[2..] == "";
      var items := SecondRewrite(FirstRewrite(pattern));
      assert FirstRewrite(pattern) == [AnyChar, RawStar];
      assert [AnyChar, RawStar][1..] == [RawStar] && [RawStar][1..] == [];
      assert items == [AnyChar, NotSlashes] && items[1..] == [NotSlashes];
      if scope != "" {
        AcceptsNotSlashes(scope[1..]);
      }
    } else {
      var rest := folder[1..];
      assert pattern[1..] == rest + "**" && pattern[0] == folder[0];
      assert !("**" <= pattern) by { assert folder[0] in folder; }
      var items := SecondRewrite(FirstRewrite(pattern));
      assert items[0] == Exactly(folder[0]) && items[1..] == SecondRewrite(FirstRewrite(rest + "**"));
      if scope != "" {
        DoubleStarStopsAtSlash(rest, scope[1..]);
        PrefixStep(folder, scope);
        assert folder < scope ==> scope[1..][|rest|] == scope[|folder|] && scope[1..][|rest| + 1..] == scope[|folder| + 1..];
      }
    }
  }

  lemma {:induction false} PrefixStep(a: string, b: string)
    requires a != "" && b != ""
    ensures a < b <==> a[0] == b[0] && a[1..] < b[1..]
  {
  }

  lemma {:induction false} AdmittedExactly(patterns: seq<string>, scope: string)
    ensures (exists i :: 0 <= i < |patterns| && Matches(patterns[i], scope)) <==> exists p :: p in patterns && Fits(p, scope)
  {
    forall i | 0 <= i < |patterns|
      ensures Matches(patterns[i], scope) <==> Fits(patterns[i], scope)
    {
      MatchesExactly(patterns[i], scope);
    }
    if p :| p in patterns && Fits(p, scope) {
      var i :| 0 <= i < |patterns| && patterns[i] == p;
      assert Matches(patterns[i], scope);
    }
  }

  datatype Gate = NoTask | ScopeDenied | Asked(grant: Grant)

  class Coordinator {
    const store: LeaseStore
    var allowedScopes: map<Id, seq<string>>

    constructor (store: LeaseStore)
      ensures this.store == store && allowedScopes == map[]
    {
      this.store := store;
      allowedScopes := map[];
    }

    method SetTaskPolicy(task: Id, scopes: Option<seq<string>>)
      modifies this
      ensures allowedScopes ==
        if scopes.Some? && scopes.value != [] then old(allowedScopes)[task := scopes.value] else old(allowedScopes)
    {
      if scopes.Some? && scopes.value != [] {
        allowedScopes := allowedScopes[task := scopes.value];
      }
    }

    predicate Admits(task: Id, scope: string)
      reads this
    {
      task in allowedScopes ==> exists i | 0 <= i < |allowedScopes[task]| :: Matches(allowedScopes[task][i], scope)
    }

    /** A refused path never reaches the lease table. */
    method ClaimPath(task: Option<Id>, scope: string, wall: nat, wallAtBeat: nat, wallAtExpiry: nat) returns (gate: Gate)
      requires store.Valid()
      modifies store, store.clock
      ensures store.Valid()
      ensures gate.NoTask? <==> task.None?
      ensures gate.ScopeDenied? <==>
        task.Some? && task.value in allowedScopes && forall p :: p in allowedScopes[task.value] ==> !Fits(p, scope)
      ensures !gate.Asked? ==> store.leases == old(store.leases)
      ensures gate.Asked? ==>
        var now := NextInstant(old(store.clock.last), wall);
        var op := Claim(task.value, scope, now, NextInstant(now, wallAtBeat), wallAtExpiry + 1_800_000);
        && store.leases == Apply(old(store.leases), op) && gate.grant == Grants(old(store.leases), op)
        && Claimed(old(store.leases), op, store.leases, gate.grant)
    {
      if task.None? { return NoTask; }
      if task.value in allowedScopes { AdmittedExactly(allowedScopes[task.value], scope); }
      if !Admits(task.value, scope) { return ScopeDenied; }
      var grant := store.ClaimScopeLease(task.value, scope, 1800, wall, wallAtBeat, wallAtExpiry);
      gate := Asked(grant);
    }

    method ReleaseTask(task: Id, wall: nat)
      requires store.Valid()
      modifies this, store, store.clock
      ensures store.Valid() && allowedScopes == old(allowedScopes) - {task}
      ensures store.leases == Apply(old(store.leases), Release(task, store.clock.last))
    {
      allowedScopes := allowedScopes - {task};
      store.ReleaseScopeLeases(task, wall);
    }
  }
}
