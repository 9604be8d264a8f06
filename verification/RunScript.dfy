/**
  The run loop as functions of a script: what the model answers and how each tool call ends. When the script
  is over, requests fail. One round, the course of the whole loop, and what it writes.
 */
module RunScript {
  import opened Common
  import opened Journal
  import opened HarnessStore
  import opened Transcript
  import opened TranscriptTheorems

  // ----- the script --------------------------------------------------------------------------

  datatype Ending = Waits(call: Id, approval: Id) | Ends(succeeded: bool, text: string)

  datatype Call = Call(id: string, name: string, arguments: string, ending: Ending)

  datatype Fault = Fault(message: string, abort: bool, tooLong: bool)

  datatype Reply = Fails(fault: Fault) | NoChoice | Says(text: string, calls: seq<Call>)

  /** `asked`: the error came with calls of the assistant's last message still to run. */
  datatype Exit = Done | Suspended | Broken(message: string, asked: bool) | Refused(message: string)

  /** No limit on the rounds if `maxRounds` is 0, no loop protection if `maxConsecutive` is. */
  datatype Config = Config(maxRounds: nat, maxConsecutive: nat, budget: Budget)

  function Ids(calls: seq<Call>): (ids: seq<string>)
    ensures |ids| == |calls|
  {
    seq(|calls|, i requires 0 <= i < |calls| => calls[i].id)
  }

  function ReplyRow(c: Call): Entry {
    Replied(c.name, c.id, if c.ending.Waits? then Waiting(c.ending.call, Some(c.ending.approval)) else Words(c.ending.text))
  }

  function ReplyRows(calls: seq<Call>): (rows: seq<Entry>)
    ensures |rows| == |calls|
  {
    seq(|calls|, i requires 0 <= i < |calls| => ReplyRow(calls[i]))
  }

  function StepAfter(e: Ending): StepStatus {
    match e
    case Waits(_, _) => StepStatus.Interrupted
    case Ends(succeeded, _) => if succeeded then StepStatus.Succeeded else StepStatus.Failed
  }

  // ----- trimming ----------------------------------------------------------------------------

  datatype Budget = Budget(fits: seq<Entry> -> bool, summary: Entry -> bool)

  function FirstOf(es: seq<Entry>, p: Entry -> bool): (found: seq<Entry>)
    ensures |found| <= 1
  {
    if es == [] then [] else if p(es[0]) then [es[0]] else FirstOf(es[1..], p)
  }

  function Without(es: seq<Entry>, p: Entry -> bool): seq<Entry> {
    if es == [] then [] else (if p(es[0]) then [] else [es[0]]) + Without(es[1..], p)
  }

  /** Keeps the system message, a summary and the last four other messages, if all does not fit. */
  function Trim(ms: seq<Entry>, b: Budget): seq<Entry> {
    if ms == [] || b.fits(ms) then ms
    else
      var plain := Without(ms[1..], b.summary);
      [ms[0]] + FirstOf(ms[1..], b.summary) + (if |plain| <= 4 then plain else plain[|plain| - 4..])
  }

  function ToolRounds(es: seq<Entry>): nat {
    if es == [] then 0
    else ToolRounds(es[..|es| - 1]) + (if es[|es| - 1].Asked? && es[|es| - 1].calls != [] then 1 else 0)
  }

  // ----- rows --------------------------------------------------------------------------------

  /** The model never uses a call id twice in a run. */
  ghost predicate UniqueIds(rows: seq<Entry>) {
    forall k :: 0 <= k < |rows| && rows[k].Asked? ==> NewIds(rows[k].calls, rows[..k])
  }

  ghost predicate GoodRows(rows: seq<Entry>) {
    WellFormed(rows) && !HasOpen(rows)
  }

  lemma {:induction false} UniquePrefix(rows: seq<Entry>, more: seq<Entry>)
    requires UniqueIds(rows + more)
    ensures UniqueIds(rows)
  {
    forall k | 0 <= k < |rows| && rows[k].Asked?
      ensures NewIds(rows[k].calls, rows[..k])
    {
      assert (rows + more)[k] == rows[k] && (rows + more)[..k] == rows[..k];
    }
  }

  lemma {:induction false} RepliesAreKnown(es: seq<Entry>, id: string)
    requires WellFormed(es) && HasReply(es, id)
    ensures id in CallIds(es)
  {
    HasReplySnoc(es, id);
    var init, last := es[..|es| - 1], es[|es| - 1];
    if HasReply(init, id) {
      RepliesAreKnown(init, id);
    } else {
      LeadIsKnown(init, id);
    }
  }

  lemma {:induction false} LeadIsKnown(es: seq<Entry>, id: string)
    requires id in Lead(es)
    ensures id in CallIds(es)
  {
    var last := es[|es| - 1];
    if last.Replied? { LeadIsKnown(es[..|es| - 1], id); }
  }

  /** An assistant row fits once the approvals before it are through and its ids are new. */
  lemma {:induction false} AskFits(rows: seq<Entry>, text: string, ids: seq<string>)
    requires GoodRows(rows) && UniqueIds(rows + [Asked(Words(text), ids)])
    ensures GoodRows(rows + [Asked(Words(text), ids)])
    ensures forall i :: 0 <= i < |ids| ==> !HasReply(rows + [Asked(Words(text), ids)], ids[i])
  {
    var e := Asked(Words(text), ids);
    var longer := rows + [e];
    assert longer[..|rows|] == rows && longer[|rows|] == e;
    WellFormedSnoc(rows, e);
    forall i: nat | i < |longer|
      ensures !OpenAt(longer, i)
    {
      if i < |rows| && longer[i].body.Waiting? {
        assert !OpenAt(rows, i);
        FinalsGrow(rows, [e], IdOf(rows[i]));
      }
    }
    forall i | 0 <= i < |ids|
      ensures !HasReply(longer, ids[i])
    {
      if HasReply(longer, ids[i]) {
        HasReplySnoc(longer, ids[i]);
        RepliesAreKnown(rows, ids[i]);
      }
    }
  }

  lemma {:induction false} OpenSnoc(es: seq<Entry>, e: Entry)
    requires e.Replied? && e.id != "" && !HasReply(es, e.id)
    ensures HasOpen(es + [e]) <==> HasOpen(es) || e.body.Waiting?
  {
    var longer := es + [e];
    forall i: nat | i < |es|
      ensures OpenAt(longer, i) <==> OpenAt(es, i)
    {
      FinalsGrow(es, [e], IdOf(es[i]));
      assert longer[i] == es[i];
      if es[i].Replied? { assert es[i].id != e.id; }
    }
    FinalsGrow(es, [e], e.id);
    assert OpenAt(longer, |es|) <==> e.body.Waiting?;
    if i: nat :| OpenAt(es, i) { assert OpenAt(longer, i); }
    if i: nat :| OpenAt(longer, i) { assert i == |es| || OpenAt(es, i); }
  }

  /** One more answer of the round fits, and leaves the calls behind it unanswered. */
  lemma {:induction false} ReplyFits(es: seq<Entry>, c: Call)
    requires WellFormed(es) && c.id in Lead(es) && c.id != "" && !HasReply(es, c.id)
    ensures WellFormed(es + [ReplyRow(c)]) && Lead(es + [ReplyRow(c)]) == Lead(es)
    ensures HasOpen(es + [ReplyRow(c)]) <==> HasOpen(es) || c.ending.Waits?
    ensures forall id :: id != c.id && !HasReply(es, id) ==> !HasReply(es + [ReplyRow(c)], id)
  {
    var e := ReplyRow(c);
    WellFormedSnoc(es, e);
    LeadSnoc(es, e);
    OpenSnoc(es, e);
    forall id | id != c.id && !HasReply(es, id)
      ensures !HasReply(es + [e], id)
    {
      assert (es + [e])[..|es|] == es;
      HasReplySnoc(es + [e], id);
    }
  }

  predicate AnyWaits(calls: seq<Call>) {
    calls != [] && (AnyWaits(calls[..|calls| - 1]) || calls[|calls| - 1].ending.Waits?)
  }

  /** The rows of a round, as far as it got. */
  lemma {:induction false} RoundFits(asked: seq<Entry>, calls: seq<Call>, k: nat)
    requires k <= |calls| && GoodRows(asked) && Lead(asked) == Ids(calls)
    requires forall i :: 0 <= i < |calls| ==> calls[i].id != "" && !HasReply(asked, calls[i].id)
    requires forall i, j :: 0 <= i < j < |calls| ==> calls[i].id != calls[j].id
    ensures var es := asked + ReplyRows(calls[..k]);
      && WellFormed(es) && Lead(es) == Ids(calls)
      && (HasOpen(es) <==> AnyWaits(calls[..k]))
      && forall i :: k <= i < |calls| ==> !HasReply(es, calls[i].id)
  {
    if k == 0 {
      assert asked + ReplyRows(calls[..0]) == asked;
    } else {
      RoundFits(asked, calls, k - 1);
      var es := asked + ReplyRows(calls[..k - 1]);
      assert asked + ReplyRows(calls[..k]) == es + [ReplyRow(calls[k - 1])];
      assert calls[k - 1].id == Ids(calls)[k - 1];
      ReplyFits(es, calls[k - 1]);
      AnyWaitsSnoc(calls, k - 1);
    }
  }

  lemma {:induction false} AnyWaitsSnoc(calls: seq<Call>, k: nat)
    requires k < |calls|
    ensures AnyWaits(calls[..k + 1]) <==> AnyWaits(calls[..k]) || calls[k].ending.Waits?
  {
    assert calls[..k + 1][..k] == calls[..k];
  }

  function RoundRows(text: string, calls: seq<Call>, k: nat): seq<Entry>
    requires k <= |calls|
  {
    [Asked(Words(text), Ids(calls))] + ReplyRows(calls[..k])
  }

  /** A whole round on top of good rows: well formed with unique ids, and open exactly if a call waits. */
  lemma {:induction false} RoundKeepsShape(rows: seq<Entry>, text: string, calls: seq<Call>, k: nat)
    requires k <= |calls| && GoodRows(rows) && UniqueIds(rows + RoundRows(text, calls, k))
    ensures WellFormed(rows + RoundRows(text, calls, k))
    ensures HasOpen(rows + RoundRows(text, calls, k)) <==> AnyWaits(calls[..k])
    ensures k < |calls| ==> !AllReplied(rows + RoundRows(text, calls, k))
  {
    var asked := rows + [Asked(Words(text), Ids(calls))];
    var all := rows + RoundRows(text, calls, k);
    assert all == asked + ReplyRows(calls[..k]);
    UniquePrefix(asked, ReplyRows(calls[..k]));
    AskFits(rows, text, Ids(calls));
    LeadSnoc(rows, Asked(Words(text), Ids(calls)));
    assert NewIds(Ids(calls), rows) by {
      assert asked[|rows|].calls == Ids(calls) && asked[..|rows|] == rows;
    }
    forall i | 0 <= i < |calls|
      ensures calls[i].id != "" && !HasReply(asked, calls[i].id)
    {
      assert calls[i].id == Ids(calls)[i];
    }
    forall i, j | 0 <= i < j < |calls|
      ensures calls[i].id != calls[j].id
    {
      assert calls[i].id == Ids(calls)[i] && calls[j].id == Ids(calls)[j];
    }
    RoundFits(asked, calls, k);
    if k < |calls| {
      assert all[|rows|].Asked? && calls[k].id == Ids(calls)[k] && Ids(calls)[k] in all[|rows|].calls;
    }
  }

  lemma {:induction false} RoundCounts(rows: seq<Entry>, text: string, calls: seq<Call>, k: nat)
    requires k <= |calls|
    ensures ToolRounds(rows + RoundRows(text, calls, k)) == ToolRounds(rows) + if calls != [] then 1 else 0
  {
    var all := rows + RoundRows(text, calls, k);
    if k == 0 {
      assert all == rows + [Asked(Words(text), Ids(calls))];
      assert all[..|all| - 1] == rows;
    } else {
      RoundCounts(rows, text, calls, k - 1);
      assert all[..|all| - 1] == rows + RoundRows(text, calls, k - 1);
    }
  }

  // ----- loop protection ---------------------------------------------------------------------

  function Signature(c: Call): string {
    c.name + ":" + c.arguments
  }

  /** The last signature and how often it has come in a row. */
  datatype Streak = Streak(signature: string, length: nat)

  function Counted(s: Streak, c: Call): Streak {
    if Signature(c) == s.signature then Streak(s.signature, s.length + 1) else Streak(Signature(c), 1)
  }

  function CountedAll(s: Streak, calls: seq<Call>): Streak {
    if calls == [] then s else Counted(CountedAll(s, calls[..|calls| - 1]), calls[|calls| - 1])
  }

  /** Only a repetition is looked at, so the first call of a streak never stops the loop. */
  predicate Stops(s: Streak, c: Call, maxConsecutive: nat) {
    maxConsecutive > 0 && Signature(c) == s.signature && s.length + 1 >= maxConsecutive
  }

  predicate NeverStops(s: Streak, calls: seq<Call>, maxConsecutive: nat) {
    calls == []
    || (NeverStops(s, calls[..|calls| - 1], maxConsecutive)
        && !Stops(CountedAll(s, calls[..|calls| - 1]), calls[|calls| - 1], maxConsecutive))
  }

  lemma {:induction false} CountedSnoc(s: Streak, calls: seq<Call>, k: nat, maxConsecutive: nat)
    requires k < |calls|
    ensures CountedAll(s, calls[..k + 1]) == Counted(CountedAll(s, calls[..k]), calls[k])
    ensures NeverStops(s, calls[..k + 1], maxConsecutive) <==>
      NeverStops(s, calls[..k], maxConsecutive) && !Stops(CountedAll(s, calls[..k]), calls[k], maxConsecutive)
  {
    assert calls[..k + 1][..k] == calls[..k];
  }

  lemma {:induction false} CountedAppend(s: Streak, x: seq<Call>, y: seq<Call>, maxConsecutive: nat)
    ensures CountedAll(s, x + y) == CountedAll(CountedAll(s, x), y)
    ensures NeverStops(s, x + y, maxConsecutive) <==>
      NeverStops(s, x, maxConsecutive) && NeverStops(CountedAll(s, x), y, maxConsecutive)
  {
    if y == [] {
      assert x + y == x;
    } else {
      assert (x + y)[..|x + y| - 1] == x + y[..|y| - 1];
      CountedAppend(s, x, y[..|y| - 1], maxConsecutive);
    }
  }

  /** The last `n` calls of a history are identical. */
  ghost predicate LastIdentical(calls: seq<Call>, n: nat) {
    n <= |calls| && forall i :: |calls| - n <= i < |calls| ==> Signature(calls[i]) == Signature(calls[|calls| - 1])
  }

  lemma {:induction false} ShiftIdentical(calls: seq<Call>, n: nat)
    requires calls != [] && n >= 2
    ensures LastIdentical(calls, n) ==> LastIdentical(calls[..|calls| - 1], n - 1)
  {
    var init := calls[..|calls| - 1];
    assert forall i :: 0 <= i < |init| ==> init[i] == calls[i];
    assert LastIdentical(calls, n) ==> Signature(calls[|calls| - 2]) == Signature(calls[|calls| - 1]);
  }

  lemma {:induction false} StreakIsSuffix(calls: seq<Call>)
    requires calls != []
    ensures var s := CountedAll(Streak("", 0), calls);
      && s.signature == Signature(calls[|calls| - 1]) && 1 <= s.length <= |calls|
      && LastIdentical(calls, s.length) && !LastIdentical(calls, s.length + 1)
  {
    var init, last := calls[..|calls| - 1], calls[|calls| - 1];
    assert ':' in Signature(last) && Signature(last) != "";
    if init != [] {
      StreakIsSuffix(init);
      var s := CountedAll(Streak("", 0), init);
      if Signature(last) == s.signature {
        assert LastIdentical(calls, s.length + 1);
        ShiftIdentical(calls, s.length + 2);
      } else {
        assert Signature(calls[|calls| - 2]) != Signature(last);
      }
    }
  }

  lemma {:induction false} ShorterIdentical(calls: seq<Call>, n: nat, m: nat)
    requires LastIdentical(calls, n) && m <= n
    ensures LastIdentical(calls, m)
  {
  }

  /** How many identical calls in a row are too many: as many as configured, and two at least. */
  function TooMany(maxConsecutive: nat): (n: nat)
    ensures n >= 2
  {
    if maxConsecutive > 2 then maxConsecutive else 2
  }

  /** The protection stops a call exactly when, with it, the last calls made would be too many identical ones. */
  lemma {:induction false} StopsOnRepetition(calls: seq<Call>, c: Call, maxConsecutive: nat)
    requires maxConsecutive > 0
    ensures Stops(CountedAll(Streak("", 0), calls), c, maxConsecutive) <==>
      LastIdentical(calls + [c], TooMany(maxConsecutive))
  {
    var longer, n := calls + [c], TooMany(maxConsecutive);
    assert longer[..|calls|] == calls;
    StreakIsSuffix(longer);
    var s := CountedAll(Streak("", 0), longer);
    if LastIdentical(longer, n) && n > s.length { ShorterIdentical(longer, n, s.length + 1); }
    if n <= s.length { ShorterIdentical(longer, s.length, n); }
    assert ':' in Signature(c) && Signature(c) != "";
    if calls != [] { StreakIsSuffix(calls); }
  }

  /** Nowhere in the history are `n` calls in a row identical. */
  ghost predicate NoRepetition(calls: seq<Call>, n: nat) {
    forall k :: 0 <= k <= |calls| ==> !LastIdentical(calls[..k], n)
  }

  lemma {:induction false} UnstoppedIsUnrepeated(calls: seq<Call>, maxConsecutive: nat)
    requires maxConsecutive > 0 && NeverStops(Streak("", 0), calls, maxConsecutive)
    ensures NoRepetition(calls, TooMany(maxConsecutive))
  {
    if calls != [] {
      var init, last := calls[..|calls| - 1], calls[|calls| - 1];
      UnstoppedIsUnrepeated(init, maxConsecutive);
      StopsOnRepetition(init, last, maxConsecutive);
      assert init + [last] == calls;
      forall k | 0 <= k <= |calls| ensures !LastIdentical(calls[..k], TooMany(maxConsecutive)) {
        if k == |calls| { assert calls[..k] == calls; } else { assert calls[..k] == init[..k]; }
      }
    }
  }

  /** The old steps are as they were and none of the new ones is running. */
  ghost predicate StepsClosed(before: seq<StepStatus>, after: seq<StepStatus>) {
    && |before| <= |after|
    && after[..|before|] == before
    && forall i :: |before| <= i < |after| ==> !after[i].Running?
  }

  // ----- one round and the whole course ------------------------------------------------------

  datatype Turn = Finished | Paused | Next | Threw(fault: Fault, asked: bool)

  /** What a round wrote: whether the assistant spoke, its calls, how many were run, and whether tools ran at all. */
  datatype Report = Report(spoke: bool, text: string, calls: seq<Call>, done: nat, ran: bool)

  const SILENT := Report(false, "", [], 0, false)
  const OUT_OF_SCRIPT := Fault("connection lost", false, false)
  const NO_CHOICES := Fault("Model returned no choices", false, false)
  const LIMIT := Fault("Tool loop exceeded maxToolRounds", false, false)
  const REPEATED := Fault("Repeated identical tool call", false, false)

  datatype Sent = Sent(reply: Result<Reply, Fault>, messages: seq<Entry>, used: nat)

  function Heard(reply: Reply): Result<Reply, Fault> {
    match reply
    case Fails(fault) => Err(fault)
    case NoChoice => Err(NO_CHOICES)
    case Says(_, _) => Ok(reply)
  }

  /** A request; one that is too long for the model is repeated once if trimming shortens the messages. */
  function Send(b: Budget, messages: seq<Entry>, replies: seq<Reply>, used: nat): (s: Sent)
    requires used <= |replies|
    ensures used <= s.used <= |replies| && (s.reply.Ok? ==> s.reply.value.Says? && used < s.used)
    ensures messages != [] ==> s.messages != []
  {
    if used == |replies| then Sent(Err(OUT_OF_SCRIPT), messages, used)
    else if replies[used].Fails? && replies[used].fault.tooLong && |Trim(messages, b)| < |messages| then
      if used + 1 == |replies| then Sent(Err(OUT_OF_SCRIPT), Trim(messages, b), used + 1)
      else Sent(Heard(replies[used + 1]), Trim(messages, b), used + 2)
    else Sent(Heard(replies[used]), messages, used + 1)
  }

  /** How many of the calls run: up to the first the loop protection stops. */
  function RunsFrom(s: Streak, calls: seq<Call>, k: nat, maxConsecutive: nat): (done: nat)
    requires k <= |calls|
    ensures k <= done <= |calls|
    decreases |calls| - k
  {
    if k == |calls| || Stops(CountedAll(s, calls[..k]), calls[k], maxConsecutive) then k
    else RunsFrom(s, calls, k + 1, maxConsecutive)
  }

  /** The one that stops is the first that the protection stops. */
  lemma {:induction false} RunsUntilStopped(s: Streak, calls: seq<Call>, k: nat, maxConsecutive: nat)
    requires k <= |calls| && NeverStops(s, calls[..k], maxConsecutive)
    ensures var done := RunsFrom(s, calls, k, maxConsecutive);
      && NeverStops(s, calls[..done], maxConsecutive)
      && (done < |calls| ==> Stops(CountedAll(s, calls[..done]), calls[done], maxConsecutive))
    decreases |calls| - k
  {
    if k < |calls| && !Stops(CountedAll(s, calls[..k]), calls[k], maxConsecutive) {
      CountedSnoc(s, calls, k, maxConsecutive);
      RunsUntilStopped(s, calls, k + 1, maxConsecutive);
    }
  }

  function StepsAfter(calls: seq<Call>): (steps: seq<StepStatus>)
    ensures |steps| == |calls|
  {
    seq(|calls|, i requires 0 <= i < |calls| => StepAfter(calls[i].ending))
  }

  datatype Played = Played(turn: Turn, messages: seq<Entry>, used: nat, streak: Streak, report: Report, steps: seq<StepStatus>)

  function PlayTools(c: Config, messages: seq<Entry>, used: nat, streak: Streak, text: string, calls: seq<Call>): Played {
    var done := RunsFrom(streak, calls, 0, c.maxConsecutive);
    Played(if done < |calls| then Threw(REPEATED, true) else if AnyWaits(calls) then Paused else Next,
           messages + ReplyRows(calls[..done]), used, CountedAll(streak, calls[..done]),
           Report(true, text, calls, done, true), [StepStatus.Succeeded] + StepsAfter(calls[..done]))
  }

  /** What follows a stored assistant message; tools run only below the round limit. */
  function Respond(c: Config, messages: seq<Entry>, round: nat, used: nat, streak: Streak, text: string,
      calls: seq<Call>): Played
  {
    var asked := messages + [Asked(Words(text), Ids(calls))];
    var report := Report(true, text, calls, 0, false);
    if calls == [] then Played(Finished, asked, used, streak, report, [StepStatus.Succeeded])
    else if c.maxRounds > 0 && round >= c.maxRounds then
      Played(Threw(LIMIT, true), asked, used, streak, report, [StepStatus.Succeeded])
    else PlayTools(c, asked, used, streak, text, calls)
  }

  /**
    One round. The model step is closed whichever way the request ends; `aborted` tells whether the caller's
    signal is aborted by the time an error is caught.
   */
  function Play(c: Config, messages: seq<Entry>, round: nat, replies: seq<Reply>, aborted: bool, used: nat,
      streak: Streak): (p: Played)
    requires used <= |replies|
    ensures used <= p.used <= |replies| && (p.turn.Next? ==> used < p.used && p.report.ran)
    ensures messages != [] ==> p.messages != []
  {
    var sent := Send(c.budget, messages, replies, used);
    if sent.reply.Err? then
      var closed := if aborted || sent.reply.error.abort then StepStatus.Interrupted else StepStatus.Failed;
      Played(Threw(sent.reply.error, false), sent.messages, sent.used, streak, SILENT, [closed])
    else Respond(c, sent.messages, round, sent.used, streak, sent.reply.value.text, sent.reply.value.calls)
  }

  /** What the loop has behind it: its whole rounds, the rows they wrote and the steps they closed. */
  datatype Log = Log(full: seq<Report>, rows: seq<Entry>, steps: seq<StepStatus>)

  function Logged(log: Log, p: Played): Log {
    Log(log.full + [p.report], log.rows + Written(p.report), log.steps + p.steps)
  }

  const EMPTY := Log([], [], [])

  datatype Course = Course(turn: Turn, full: seq<Report>, last: Report, rows: seq<Entry>, steps: seq<StepStatus>)

  /** Plays one round of a fixed script: messages, round, replies used so far, streak. */
  type Player = (seq<Entry>, nat, nat, Streak) -> Played

  function PlayerOf(c: Config, replies: seq<Reply>, aborted: bool): Player {
    (messages: seq<Entry>, round: nat, used: nat, streak: Streak) =>
      if used <= |replies| then Play(c, messages, round, replies, aborted, used, streak)
      else Played(Threw(OUT_OF_SCRIPT, false), messages, used, streak, SILENT, [])
  }

  ghost predicate Plays(play: Player, c: Config, replies: seq<Reply>, aborted: bool) {
    forall messages, round: nat, used: nat, streak {:trigger Play(c, messages, round, replies, aborted, used, streak)} ::
      used <= |replies| ==> play(messages, round, used, streak) == Play(c, messages, round, replies, aborted, used, streak)
  }

  /** The loop from a round on, after what it already has behind it. */
  function Rounds(play: Player, limit: nat, script: nat, messages: seq<Entry>, round: nat, system: Entry, used: nat,
      streak: Streak, log: Log): Course
    requires used <= script && messages != []
    decreases script - used
  {
    if limit > 0 && round > limit then Course(Threw(LIMIT, false), log.full, SILENT, log.rows, log.steps)
    else
      var p := play(messages[0 := system], round, used, streak);
      if p.turn.Next? && used < p.used <= script && p.messages != [] then
        Rounds(play, limit, script, p.messages, round + 1, system, p.used, p.streak, Logged(log, p))
      else Course(p.turn, log.full, p.report, log.rows + Written(p.report), log.steps + p.steps)
  }

  function CourseOf(c: Config, messages: seq<Entry>, startRound: nat, system: Entry, replies: seq<Reply>, aborted: bool): Course
    requires messages != []
  {
    Rounds(PlayerOf(c, replies, aborted), c.maxRounds, |replies|, messages, startRound, system, 0, Streak("", 0), EMPTY)
  }

  ghost predicate NoneRunning(steps: seq<StepStatus>) {
    forall i :: 0 <= i < |steps| ==> !steps[i].Running?
  }

  /** What one round guarantees. */
  ghost predicate RoundOk(c: Config, round: nat, p: Played) {
    && p.report.done <= |p.report.calls|
    && (p.report.ran ==> p.report.spoke && p.report.calls != [] && (c.maxRounds > 0 ==> round < c.maxRounds))
    && (p.turn.Next? ==> Whole(p.report))
    && (p.turn.Finished? ==> p.report.spoke && p.report.calls == [])
    && (p.turn.Paused? ==> p.report.spoke && p.report.done == |p.report.calls| && AnyWaits(p.report.calls))
    && (Cut(p.turn) <==> p.report.spoke && p.report.done < |p.report.calls|)
    && NoneRunning(p.steps)
  }

  /** The loop broke off with calls of the last message still to run. */
  predicate Cut(turn: Turn) {
    turn.Threw? && turn.asked
  }

  lemma {:induction false} PlayIsOk(c: Config, messages: seq<Entry>, round: nat, replies: seq<Reply>, aborted: bool, used: nat,
      streak: Streak)
    requires used <= |replies|
    ensures RoundOk(c, round, Play(c, messages, round, replies, aborted, used, streak))
  {
  }

  ghost predicate CourseOk(c: Config, startRound: nat, course: Course) {
    var ran := |course.full| + if course.last.ran then 1 else 0;
    && AllWhole(course.full)
    && course.last.done <= |course.last.calls| && (course.last.ran ==> course.last.spoke && course.last.calls != [])
    && (c.maxRounds > 0 && ran > 0 ==> startRound + ran <= c.maxRounds)
    && !course.turn.Next?
    && (course.turn.Finished? ==> course.last.spoke && course.last.calls == [])
    && (course.turn.Paused? ==>
          course.last.spoke && course.last.done == |course.last.calls| && AnyWaits(course.last.calls))
    && (Cut(course.turn) <==> course.last.spoke && course.last.done < |course.last.calls|)
    && NoneRunning(course.steps)
  }

  ghost predicate Behind(c: Config, startRound: nat, log: Log) {
    && AllWhole(log.full) && NoneRunning(log.steps)
    && (c.maxRounds > 0 && log.full != [] ==> startRound + |log.full| <= c.maxRounds)
  }

  lemma {:induction false} BehindGrows(c: Config, startRound: nat, log: Log, p: Played)
    requires Behind(c, startRound, log) && RoundOk(c, startRound + |log.full|, p) && p.turn.Next?
    ensures Behind(c, startRound, Logged(log, p))
  {
    assert (log.full + [p.report])[..|log.full|] == log.full;
  }

  lemma {:induction false} EndIsOk(c: Config, startRound: nat, log: Log, p: Played)
    requires Behind(c, startRound, log) && RoundOk(c, startRound + |log.full|, p) && !p.turn.Next?
    ensures CourseOk(c, startRound, Course(p.turn, log.full, p.report, log.rows + Written(p.report), log.steps + p.steps))
  {
  }

  ghost predicate PlaysWell(play: Player, c: Config, script: nat) {
    forall messages, round: nat, used: nat, streak :: used <= script ==>
      PlayedWell(c, script, messages, round, used, play(messages, round, used, streak))
  }

  ghost predicate PlayedWell(c: Config, script: nat, messages: seq<Entry>, round: nat, used: nat, p: Played) {
    RoundOk(c, round, p) && (p.turn.Next? ==> used < p.used <= script) && (messages != [] ==> p.messages != [])
  }

  lemma {:induction false} PlayerPlaysWell(c: Config, replies: seq<Reply>, aborted: bool)
    ensures PlaysWell(PlayerOf(c, replies, aborted), c, |replies|)
  {
    forall messages, round: nat, used: nat, streak | used <= |replies|
      ensures PlayedWell(c, |replies|, messages, round, used, PlayerOf(c, replies, aborted)(messages, round, used, streak))
    {
      PlayIsOk(c, messages, round, replies, aborted, used, streak);
    }
  }

  lemma {:induction false} RoundsAreOk(c: Config, play: Player, script: nat, messages: seq<Entry>, startRound: nat,
      system: Entry, used: nat, streak: Streak, log: Log)
    requires used <= script && messages != [] && Behind(c, startRound, log) && PlaysWell(play, c, script)
    ensures CourseOk(c, startRound,
      Rounds(play, c.maxRounds, script, messages, startRound + |log.full|, system, used, streak, log))
    decreases script - used
  {
    var round := startRound + |log.full|;
    if !(c.maxRounds > 0 && round > c.maxRounds) {
      var p := play(messages[0 := system], round, used, streak);
      assert PlayedWell(c, script, messages[0 := system], round, used, p);
      if p.turn.Next? {
        BehindGrows(c, startRound, log, p);
        RoundsAreOk(c, play, script, p.messages, startRound, system, p.used, p.streak, Logged(log, p));
      } else {
        EndIsOk(c, startRound, log, p);
      }
    }
  }

  /** The rows of a course are what its rounds wrote. */
  lemma {:induction false} RoundsWrite(play: Player, limit: nat, script: nat, messages: seq<Entry>, round: nat,
      system: Entry, used: nat, streak: Streak, log: Log)
    requires used <= script && messages != [] && log.rows == Recorded(log.full)
    ensures var course := Rounds(play, limit, script, messages, round, system, used, streak, log);
      course.rows == Recorded(course.full) + Written(course.last)
    decreases script - used
  {
    if limit > 0 && round > limit {
      assert log.rows + Written(SILENT) == log.rows;
    } else {
      var p := play(messages[0 := system], round, used, streak);
      if p.turn.Next? && used < p.used <= script && p.messages != [] {
        assert (log.full + [p.report])[..|log.full|] == log.full;
        RoundsWrite(play, limit, script, p.messages, round + 1, system, p.used, p.streak, Logged(log, p));
      }
    }
  }

  lemma {:induction false} NothingBehind(c: Config, startRound: nat)
    ensures Behind(c, startRound, EMPTY) && EMPTY.rows == Recorded(EMPTY.full)
  {
  }

  /**
    The course of a loop: whole rounds, a last one that ends it as its turn says, the rows of all of them, the
    limit kept, no step left running.
   */
  lemma {:induction false} CourseIsOk(c: Config, play: Player, script: nat, messages: seq<Entry>, startRound: nat, system: Entry)
    requires messages != [] && PlaysWell(play, c, script)
    ensures var course := Rounds(play, c.maxRounds, script, messages, startRound, system, 0, Streak("", 0), EMPTY);
      CourseOk(c, startRound, course) && course.rows == Recorded(course.full) + Written(course.last)
  {
    NothingBehind(c, startRound);
    RoundsAreOk(c, play, script, messages, startRound, system, 0, Streak("", 0), EMPTY);
    RoundsWrite(play, c.maxRounds, script, messages, startRound, system, 0, Streak("", 0), EMPTY);
  }

  // ----- the protection, over a whole course -------------------------------------------------

  /** The calls a round ran. */
  function Ran(r: Report): seq<Call> {
    if r.ran && r.done <= |r.calls| then r.calls[..r.done] else []
  }

  function RanAll(reports: seq<Report>): seq<Call> {
    if reports == [] then [] else RanAll(reports[..|reports| - 1]) + Ran(reports[|reports| - 1])
  }

  /** All calls a course has made, round after round. */
  function Made(course: Course): seq<Call> {
    RanAll(course.full) + Ran(course.last)
  }

  /** Tools ran, but not all. */
  predicate StoppedIn(r: Report) {
    r.ran && r.done < |r.calls|
  }

  /** A round counts on from the streak it is given, and ends by repetition exactly where the protection stops it. */
  ghost predicate Counts(c: Config, streak: Streak, p: Played) {
    && p.streak == CountedAll(streak, Ran(p.report))
    && NeverStops(streak, Ran(p.report), c.maxConsecutive)
    && (p.turn == Threw(REPEATED, true) <==> StoppedIn(p.report))
    && (StoppedIn(p.report) ==> Stops(p.streak, p.report.calls[p.report.done], c.maxConsecutive))
  }

  lemma {:induction false} ToolsCount(c: Config, messages: seq<Entry>, used: nat, streak: Streak, text: string, calls: seq<Call>)
    ensures Counts(c, streak, PlayTools(c, messages, used, streak, text, calls))
  {
    assert calls[..0] == [];
    RunsUntilStopped(streak, calls, 0, c.maxConsecutive);
  }

  lemma {:induction false} FaultsDiffer()
    ensures LIMIT != REPEATED
  {
    assert LIMIT.message[0] != REPEATED.message[0];
  }

  lemma {:induction false} PlayCounts(c: Config, messages: seq<Entry>, round: nat, replies: seq<Reply>, aborted: bool, used: nat,
      streak: Streak)
    requires used <= |replies|
    ensures Counts(c, streak, Play(c, messages, round, replies, aborted, used, streak))
  {
    FaultsDiffer();
    var sent := Send(c.budget, messages, replies, used);
    if sent.reply.Ok? {
      var text, calls := sent.reply.value.text, sent.reply.value.calls;
      ToolsCount(c, sent.messages + [Asked(Words(text), Ids(calls))], sent.used, streak, text, calls);
    }
  }

  ghost predicate PlaysCounting(play: Player, c: Config, script: nat) {
    forall messages, round: nat, used: nat, streak :: used <= script ==>
      Counts(c, streak, play(messages, round, used, streak))
  }

  lemma {:induction false} PlayerCounts(c: Config, replies: seq<Reply>, aborted: bool)
    ensures PlaysCounting(PlayerOf(c, replies, aborted), c, |replies|)
  {
    forall messages, round: nat, used: nat, streak | used <= |replies|
      ensures Counts(c, streak, PlayerOf(c, replies, aborted)(messages, round, used, streak))
    {
      PlayCounts(c, messages, round, replies, aborted, used, streak);
    }
  }

  /** The loop's counter is the count over every call it has made, and it was never stopped before. */
  ghost predicate CountedSoFar(c: Config, streak: Streak, log: Log) {
    streak == CountedAll(Streak("", 0), RanAll(log.full)) && NeverStops(Streak("", 0), RanAll(log.full), c.maxConsecutive)
  }

  ghost predicate CourseCounted(c: Config, course: Course) {
    && NeverStops(Streak("", 0), Made(course), c.maxConsecutive)
    && (course.turn == Threw(REPEATED, true) <==> StoppedIn(course.last))
    && (StoppedIn(course.last) ==>
          Stops(CountedAll(Streak("", 0), Made(course)), course.last.calls[course.last.done], c.maxConsecutive))
  }

  lemma {:induction false} CountGoesOn(c: Config, streak: Streak, log: Log, p: Played)
    requires CountedSoFar(c, streak, log) && Counts(c, streak, p)
    ensures CountedSoFar(c, p.streak, Logged(log, p))
    ensures CourseCounted(c, Course(p.turn, log.full, p.report, log.rows + Written(p.report), log.steps + p.steps))
  {
    CountedAppend(Streak("", 0), RanAll(log.full), Ran(p.report), c.maxConsecutive);
    assert (log.full + [p.report])[..|log.full|] == log.full;
  }

  lemma {:induction false} LimitIsNoRepetition(c: Config, streak: Streak, log: Log)
    requires CountedSoFar(c, streak, log)
    ensures CourseCounted(c, Course(Threw(LIMIT, false), log.full, SILENT, log.rows, log.steps))
  {
    assert RanAll(log.full) + [] == RanAll(log.full);
  }

  lemma {:induction false} RoundsCount(c: Config, play: Player, script: nat, messages: seq<Entry>, round: nat,
      system: Entry, used: nat, streak: Streak, log: Log)
    requires used <= script && messages != [] && CountedSoFar(c, streak, log) && PlaysCounting(play, c, script)
    ensures CourseCounted(c, Rounds(play, c.maxRounds, script, messages, round, system, used, streak, log))
    decreases script - used
  {
    if c.maxRounds > 0 && round > c.maxRounds {
      LimitIsNoRepetition(c, streak, log);
    } else {
      var p := play(messages[0 := system], round, used, streak);
      CountGoesOn(c, streak, log, p);
      if p.turn.Next? && used < p.used <= script && p.messages != [] {
        RoundsCount(c, play, script, p.messages, round + 1, system, p.used, p.streak, Logged(log, p));
      }
    }
  }

  /** The first call left over would have been one identical call too many. */
  ghost predicate OneTooMany(c: Config, course: Course)
    requires StoppedIn(course.last)
  {
    c.maxConsecutive > 0
    && LastIdentical(Made(course) + [course.last.calls[course.last.done]], TooMany(c.maxConsecutive))
  }

  /**
    The loop protection over a whole course, across its rounds. Of the calls a loop has made, too many identical
    ones never follow each other; the loop ends by repetition exactly if a call was left over after tools ran, and
    that call, had it been made, would have been one too many. Without a configured number it never ends so.
   */
  lemma {:induction false} CourseIsProtected(c: Config, messages: seq<Entry>, startRound: nat, system: Entry, replies: seq<Reply>,
      aborted: bool)
    requires messages != []
    ensures var course := CourseOf(c, messages, startRound, system, replies, aborted);
      && (c.maxConsecutive > 0 ==> NoRepetition(Made(course), TooMany(c.maxConsecutive)))
      && (course.turn == Threw(REPEATED, true) <==> StoppedIn(course.last))
      && (StoppedIn(course.last) ==> OneTooMany(c, course))
  {
    var play := PlayerOf(c, replies, aborted);
    PlayerCounts(c, replies, aborted);
    assert CountedSoFar(c, Streak("", 0), EMPTY);
    RoundsCount(c, play, |replies|, messages, startRound, system, 0, Streak("", 0), EMPTY);
    CountedIsProtected(c, CourseOf(c, messages, startRound, system, replies, aborted));
  }

  lemma {:induction false} CountedIsProtected(c: Config, course: Course)
    requires CourseCounted(c, course)
    ensures c.maxConsecutive > 0 ==> NoRepetition(Made(course), TooMany(c.maxConsecutive))
    ensures StoppedIn(course.last) ==> OneTooMany(c, course)
  {
    if c.maxConsecutive > 0 {
      UnstoppedIsUnrepeated(Made(course), c.maxConsecutive);
      if StoppedIn(course.last) {
        StopsOnRepetition(Made(course), course.last.calls[course.last.done], c.maxConsecutive);
      }
    }
  }

  function Written(r: Report): seq<Entry> {
    if r.spoke && r.done <= |r.calls| then RoundRows(r.text, r.calls, r.done) else []
  }

  function Recorded(reports: seq<Report>): seq<Entry> {
    if reports == [] then [] else Recorded(reports[..|reports| - 1]) + Written(reports[|reports| - 1])
  }

  /** A round after which the loop goes on: all its tools ran and none waits. */
  predicate Whole(r: Report) {
    r.spoke && r.ran && r.calls != [] && r.done == |r.calls| && !AnyWaits(r.calls)
  }

  predicate AllWhole(reports: seq<Report>) {
    reports == [] || (AllWhole(reports[..|reports| - 1]) && Whole(reports[|reports| - 1]))
  }

  lemma {:induction false} RecordedLast(before: seq<Entry>, reports: seq<Report>)
    requires reports != [] && AllWhole(reports)
    ensures var init, last := reports[..|reports| - 1], reports[|reports| - 1];
      before + Recorded(reports) == before + Recorded(init) + Written(last) && AllWhole(init) && Whole(last)
  {
  }

  lemma {:induction false} StepsClosedTrans(x: seq<StepStatus>, y: seq<StepStatus>, z: seq<StepStatus>)
    requires StepsClosed(x, y) && StepsClosed(y, z)
    ensures StepsClosed(x, z)
  {
  }

  lemma {:induction false} LastRoundCounts(before: seq<Entry>, r: Report)
    requires r.done <= |r.calls|
    ensures ToolRounds(before + Written(r)) == ToolRounds(before) + if r.spoke && r.calls != [] then 1 else 0
  {
    if r.spoke {
      RoundCounts(before, r.text, r.calls, r.done);
    } else {
      assert before + [] == before;
    }
  }

  lemma {:induction false} LastRoundShape(before: seq<Entry>, r: Report)
    requires r.done <= |r.calls| && GoodRows(before) && UniqueIds(before + Written(r))
    ensures WellFormed(before + Written(r))
    ensures r.spoke && r.done == |r.calls| ==> (HasOpen(before + Written(r)) <==> AnyWaits(r.calls))
    ensures r.spoke && r.done < |r.calls| ==> !AllReplied(before + Written(r))
  {
    if r.spoke {
      RoundKeepsShape(before, r.text, r.calls, r.done);
      assert r.done == |r.calls| ==> r.calls[..r.done] == r.calls;
    } else {
      assert before + [] == before;
    }
  }

  lemma {:induction false} FullRoundsCount(before: seq<Entry>, full: seq<Report>)
    requires AllWhole(full)
    ensures ToolRounds(before + Recorded(full)) == ToolRounds(before) + |full|
  {
    if full == [] {
      assert before + Recorded(full) == before;
    } else {
      RecordedLast(before, full);
      FullRoundsCount(before, full[..|full| - 1]);
      LastRoundCounts(before + Recorded(full[..|full| - 1]), full[|full| - 1]);
    }
  }

  /** Full rounds on good rows leave good rows. */
  lemma {:induction false} FullRoundsKeepShape(before: seq<Entry>, full: seq<Report>)
    requires AllWhole(full) && GoodRows(before) && UniqueIds(before + Recorded(full))
    ensures GoodRows(before + Recorded(full))
  {
    if full == [] {
      assert before + Recorded(full) == before;
    } else {
      var early, last := before + Recorded(full[..|full| - 1]), full[|full| - 1];
      RecordedLast(before, full);
      UniquePrefix(early, Written(last));
      FullRoundsKeepShape(before, full[..|full| - 1]);
      LastRoundShape(early, last);
    }
  }

  lemma {:induction false} RoundReplies(rows: seq<Entry>, text: string, calls: seq<Call>)
    requires AllReplied(rows)
    ensures AllReplied(rows + RoundRows(text, calls, |calls|))
  {
    var all := rows + RoundRows(text, calls, |calls|);
    forall i, id | 0 <= i < |all| && all[i].Asked? && id in all[i].calls
      ensures HasReply(all, id)
    {
      if i < |rows| {
        assert rows[i] == all[i] && HasReply(rows, id);
        var j :| 0 <= j < |rows| && rows[j].Replied? && rows[j].id == id;
        assert all[j] == rows[j];
      } else {
        assert i == |rows|;
        var k :| 0 <= k < |calls| && Ids(calls)[k] == id;
        assert all[|rows| + 1 + k] == ReplyRow(calls[k]);
      }
    }
  }

  lemma {:induction false} WholeRoundsReply(before: seq<Entry>, full: seq<Report>)
    requires AllWhole(full)
    ensures AllReplied(before) ==> AllReplied(before + Recorded(full))
  {
    if full == [] {
      assert before + Recorded(full) == before;
    } else {
      var early, last := before + Recorded(full[..|full| - 1]), full[|full| - 1];
      RecordedLast(before, full);
      WholeRoundsReply(before, full[..|full| - 1]);
      if AllReplied(early) { RoundReplies(early, last.text, last.calls); }
    }
  }

  lemma {:induction false} LastRoundReplies(before: seq<Entry>, r: Report)
    requires r.done <= |r.calls|
    ensures AllReplied(before) && (r.spoke ==> r.done == |r.calls|) ==> AllReplied(before + Written(r))
  {
    if AllReplied(before) && r.spoke && r.done == |r.calls| {
      RoundReplies(before, r.text, r.calls);
    }
    assert before + [] == before;
  }

  lemma {:induction false} PlainAppend(x: seq<Entry>, y: seq<Entry>)
    requires Plainspoken(x) && Plainspoken(y)
    ensures Plainspoken(x + y)
  {
  }

  lemma {:induction false} PlainRounds(before: seq<Entry>, full: seq<Report>, last: Report)
    ensures Plainspoken(before) ==> Plainspoken(before + Recorded(full) + Written(last))
  {
    if full == [] {
      assert before + Recorded(full) == before;
      if Plainspoken(before) { PlainAppend(before, Written(last)); }
    } else {
      PlainRounds(before, full[..|full| - 1], full[|full| - 1]);
      var most := before + Recorded(full);
      assert most == before + Recorded(full[..|full| - 1]) + Written(full[|full| - 1]);
      if Plainspoken(before) { PlainAppend(most, Written(last)); }
    }
  }

  lemma {:induction false} RoundsAppend(x: seq<Entry>, y: seq<Entry>)
    ensures ToolRounds(x + y) == ToolRounds(x) + ToolRounds(y)
  {
    if y == [] {
      assert x + y == x;
    } else {
      RoundsAppend(x, y[..|y| - 1]);
      assert (x + y)[..|x + y| - 1] == x + y[..|y| - 1];
    }
  }

  lemma {:induction false} RepliesAreNoRounds(es: seq<Entry>)
    requires forall e :: e in es ==> e.Replied?
    ensures ToolRounds(es) == 0
  {
    if es != [] {
      assert es[|es| - 1] in es;
      RepliesAreNoRounds(es[..|es| - 1]);
    }
  }

  /** The stored answers are tool messages: they count no rounds and keep the rows plain. */
  lemma {:induction false} PersistIsPlain(rows: seq<Entry>, d: Db)
    ensures var persist := Rebuild(rows, rows, d).persist;
      ToolRounds(rows + persist) == ToolRounds(rows) && (Plainspoken(rows) ==> Plainspoken(rows + persist))
  {
    var persist := Rebuild(rows, rows, d).persist;
    NoPlaceholder(rows, rows, d);
    RepliesAreNoRounds(persist);
    RoundsAppend(rows, persist);
    assert Plainspoken(persist) by { assert forall i :: 0 <= i < |persist| ==> persist[i] in persist; }
    if Plainspoken(rows) { PlainAppend(rows, persist); }
  }

  lemma {:induction false} RoundsAreSpoken(es: seq<Entry>)
    ensures ToolRounds(es) == ToolRounds(Speakers(es))
  {
    if es != [] {
      var last := es[|es| - 1];
      RoundsAreSpoken(es[..|es| - 1]);
      RoundsAppend(Speakers(es[..|es| - 1]), if last.Replied? then [] else [last]);
      assert [last][..0] == [];
    }
  }

  /** A rebuilt conversation shows every tool round of the rows. */
  lemma {:induction false} RebuiltRounds(rows: seq<Entry>, d: Db, system: Entry)
    requires Plainspoken(rows) && system.Said?
    ensures ToolRounds([system] + Rebuild(rows, rows, d).messages) == ToolRounds(rows)
  {
    var ms := Rebuild(rows, rows, d).messages;
    SpeakersSurvive(rows, rows, d);
    RoundsAreSpoken(ms);
    RoundsAreSpoken(rows);
    RoundsAppend([system], ms);
    assert [system][..0] == [] && ToolRounds([system]) == 0;
  }

  /** What a resume finds: every tool round of the rows, and rows that are good to go on with. */
  lemma {:induction false} ResumeFacts(rows: seq<Entry>, d: Db, system: Entry)
    requires Plainspoken(rows) && system.Said?
    ensures var r := Rebuild(rows, rows, d);
      && ToolRounds([system] + r.messages) == ToolRounds(rows + r.persist)
      && (WellFormed(rows) && r.pending == [] ==> GoodRows(rows + r.persist))
  {
    PersistIsPlain(rows, d);
    RebuiltRounds(rows, d, system);
    if WellFormed(rows) { RecoveryKeepsShape(rows, d); }
  }

  /** All that a run of the loop wrote, put together. */
  lemma {:induction false} RunRecorded(first: seq<Entry>, full: seq<Report>, last: Report)
    requires AllWhole(full) && last.done <= |last.calls|
    ensures var rows := first + Recorded(full) + Written(last);
      && first <= rows
      && ToolRounds(rows) == ToolRounds(first) + |full| + (if last.spoke && last.calls != [] then 1 else 0)
      && (Plainspoken(first) ==> Plainspoken(rows))
      && (GoodRows(first) && UniqueIds(rows) ==> WellFormed(rows))
      && (GoodRows(first) && UniqueIds(rows) && last.spoke && last.done == |last.calls| ==>
          (HasOpen(rows) <==> AnyWaits(last.calls)))
      && (AllReplied(first) && (last.spoke ==> last.done == |last.calls|) ==> AllReplied(rows))
      && (GoodRows(first) && UniqueIds(rows) && last.spoke && last.done < |last.calls| ==> !AllReplied(rows))
  {
    WholeRoundsReply(first, full);
    LastRoundReplies(first + Recorded(full), last);
    FullRoundsCount(first, full);
    LastRoundCounts(first + Recorded(full), last);
    PlainRounds(first, full, last);
    if GoodRows(first) && UniqueIds(first + Recorded(full) + Written(last)) {
      UniquePrefix(first + Recorded(full), Written(last));
      FullRoundsKeepShape(first, full);
      LastRoundShape(first + Recorded(full), last);
    }
  }

  // ----- a call once left behind -------------------------------------------------------------

  /** Every tool row answers a call asked for in the same list. */
  ghost predicate OwnReplies(es: seq<Entry>) {
    forall j :: 0 <= j < |es| && es[j].Replied? ==> es[j].id in CallIds(es)
  }

  lemma {:induction false} CallIdsAppend(x: seq<Entry>, y: seq<Entry>)
    ensures CallIds(x + y) == CallIds(x) + CallIds(y)
  {
    if y == [] {
      assert x + y == x;
    } else {
      CallIdsAppend(x, y[..|y| - 1]);
      assert (x + y)[..|x + y| - 1] == x + y[..|y| - 1];
    }
  }

  lemma {:induction false} OwnRepliesAppend(x: seq<Entry>, y: seq<Entry>)
    requires OwnReplies(x) && OwnReplies(y)
    ensures OwnReplies(x + y)
  {
    CallIdsAppend(x, y);
  }

  lemma {:induction false} WrittenAnswersItself(r: Report)
    ensures OwnReplies(Written(r))
  {
    if r.spoke && r.done <= |r.calls| {
      var asked := Asked(Words(r.text), Ids(r.calls));
      CallIdsAppend([asked], ReplyRows(r.calls[..r.done]));
      assert [asked][..0] == [] && CallIds([asked]) == Ids(r.calls);
      forall j | 0 <= j < |Written(r)| && Written(r)[j].Replied?
        ensures Written(r)[j].id in CallIds(Written(r))
      {
        assert Written(r)[j].id == Ids(r.calls)[j - 1];
      }
    }
  }

  lemma {:induction false} RecordedAnswersItself(full: seq<Report>)
    ensures OwnReplies(Recorded(full))
  {
    if full != [] {
      RecordedAnswersItself(full[..|full| - 1]);
      WrittenAnswersItself(full[|full| - 1]);
      OwnRepliesAppend(Recorded(full[..|full| - 1]), Written(full[|full| - 1]));
    }
  }

  lemma {:induction false} NewRowsAskNewIds(before: seq<Entry>, more: seq<Entry>, id: string)
    requires UniqueIds(before + more) && id in CallIds(before)
    ensures id !in CallIds(more)
    decreases |more|
  {
    if more != [] {
      var init, last := more[..|more| - 1], more[|more| - 1];
      var all := before + more;
      assert all == before + init + [last] && all[..|before + init|] == before + init;
      UniquePrefix(before + init, [last]);
      NewRowsAskNewIds(before, init, id);
      CallIdsAppend(before, init);
      assert all[|before + init|] == last;
    }
  }

  lemma {:induction false} HasReplyAppend(x: seq<Entry>, y: seq<Entry>, id: string)
    ensures HasReply(x + y, id) <==> HasReply(x, id) || HasReply(y, id)
  {
    var all := x + y;
    if i :| 0 <= i < |x| && x[i].Replied? && x[i].id == id { assert all[i] == x[i]; }
    if i :| 0 <= i < |y| && y[i].Replied? && y[i].id == id { assert all[|x| + i] == y[i]; }
  }

  /** What later rounds write answers none of the calls asked for before. */
  lemma {:induction false} LeftBehind(before: seq<Entry>, full: seq<Report>, last: Report)
    ensures var rows := before + (Recorded(full) + Written(last));
      UniqueIds(rows) && !AllReplied(before) ==> !AllReplied(rows)
  {
    var more := Recorded(full) + Written(last);
    var rows := before + more;
    RecordedAnswersItself(full);
    WrittenAnswersItself(last);
    OwnRepliesAppend(Recorded(full), Written(last));
    if UniqueIds(rows) && !AllReplied(before) {
      var i, id :| 0 <= i < |before| && before[i].Asked? && id in before[i].calls && !HasReply(before, id);
      AskedIsKnown(before, i, id);
      NewRowsAskNewIds(before, more, id);
      HasReplyAppend(before, more, id);
      assert rows[i] == before[i];
    }
  }
}
