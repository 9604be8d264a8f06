/**
  The agent's in-memory conversation: pushes, truncation, eviction, background summaries, clearing and
  loading, interleaved at the awaits. A summary request is a job that may be answered late, after its
  timeout, or never. The token estimate is any function of the message list.
 */
module Agent {
  import opened Common
  import opened Chat
  import opened Filters
  import opened Summaries

  // ----- lists of messages -------------------------------------------------------------------

  function NonSummary(ms: seq<Message>): seq<Message> {
    if ms == [] then [] else (if IsSummary(ms[0]) then [] else [ms[0]]) + NonSummary(ms[1..])
  }

  /** The first summary, as a list of at most one. */
  function FirstSummary(ms: seq<Message>): (found: seq<Message>)
    ensures |found| <= 1
  {
    if ms == [] then [] else if IsSummary(ms[0]) then [ms[0]] else FirstSummary(ms[1..])
  }

  function NonSystem(ms: seq<Message>): seq<Message> {
    if ms == [] then [] else (if ms[0].role.System? then [] else [ms[0]]) + NonSystem(ms[1..])
  }

  /** Index of the first system message that is no summary; the length if there is none. */
  function PromptIndex(ms: seq<Message>): (i: nat)
    ensures i <= |ms|
    ensures i < |ms| ==> ms[i].role.System? && !IsSummary(ms[i])
    ensures forall j :: 0 <= j < i ==> !(ms[j].role.System? && !IsSummary(ms[j]))
  {
    if ms == [] || (ms[0].role.System? && !IsSummary(ms[0])) then 0 else 1 + PromptIndex(ms[1..])
  }

  // ----- state and actions -------------------------------------------------------------------

  datatype Job = Job(epoch: nat, compacted: seq<Message>, answered: bool, settled: bool)

  datatype State = State(
    messages: seq<Message>,
    prompt: string,         // the system prompt last built
    compacting: bool,
    epoch: nat,
    jobs: seq<Job>,
    records: seq<nat>)      // sizes of the latest compactions

  type Estimate = seq<Message> -> nat

  datatype Action =
    | Push(message: Message)
    | Refresh(prompt: string)
    | Heal(tail: seq<Message>)
    | Check(threshold: nat)
    | Schedule(threshold: nat)
    | Answer(job: nat, reply: Option<string>)
    | Settle(job: nat)
    | Clear
    | Load(prompt: string, checkpoint: Option<(string, nat)>, history: seq<Message>)

  const KEEP_RECENT := 4

  function Fresh(prompt: string): State {
    State([Plain(Role.System, prompt)], prompt, false, 0, [], [])
  }

  /** Math.min(nonSummary.length - 1, 4) messages are kept when the context is truncated. */
  function ToCompact(plain: seq<Message>): seq<Message> {
    if |plain| <= KEEP_RECENT + 1 then [] else plain[1..|plain| - KEEP_RECENT]
  }

  function Recent(plain: seq<Message>): seq<Message> {
    if plain == [] then []
    else if |plain| <= KEEP_RECENT + 1 then plain[1..]
    else plain[|plain| - KEEP_RECENT..]
  }

  /** `slice(-4)`. */
  function LastFew(plain: seq<Message>): (last: seq<Message>)
    ensures |last| == (if |plain| < 4 then |plain| else 4) && last == plain[|plain| - |last|..]
  {
    if |plain| <= KEEP_RECENT then plain else plain[|plain| - KEEP_RECENT..]
  }

  function StartCompaction(s: State, truncateNow: bool): State
    requires s.messages != []
  {
    var plain := NonSummary(s.messages);
    var toCompact := if truncateNow then ToCompact(plain) else if plain == [] then [] else plain[1..];
    var messages := if truncateNow then [s.messages[0]] + FirstSummary(s.messages) + Recent(plain) else s.messages;
    if toCompact == [] then s.(messages := messages, compacting := false)
    else s.(messages := messages, compacting := true, jobs := s.jobs + [Job(s.epoch, toCompact, false, false)])
  }

  function CascadeEvict(s: State, threshold: nat, estimate: Estimate): State
    requires s.messages != []
  {
    if estimate(s.messages) <= threshold * 2 then s
    else s.(messages := [s.messages[0]] + FirstSummary(s.messages) + LastFew(NonSummary(s.messages)))
  }

  function CheckCompaction(s: State, threshold: nat, estimate: Estimate): State {
    if |s.messages| <= 5 then s
    else if s.compacting then CascadeEvict(s, threshold, estimate)
    else if estimate(s.messages) > threshold then StartCompaction(s, true)
    else s
  }

  function ScheduleCompaction(s: State, threshold: nat, estimate: Estimate): State {
    if s.compacting || |s.messages| <= 5 then s
    else if estimate(s.messages) > threshold then StartCompaction(s, false)
    else s
  }

  function Installed(messages: seq<Message>, summary: Message): seq<Message>
    requires messages != []
  {
    [messages[0], summary] + NonSummary(messages[1..])
  }

  /** At most ten records are kept, the oldest goes first. */
  function Recorded(records: seq<nat>, count: nat): seq<nat> {
    var longer := records + [count];
    if |longer| > 10 then longer[1..] else longer
  }

  /** The record has been added, and of more than ten the oldest is gone. */
  ghost predicate LatestTen(records: seq<nat>, count: nat, longer: seq<nat>) {
    && |longer| == (if |records| < 10 then |records| + 1 else |records|)
    && longer[|longer| - 1] == count
    && longer[..|longer| - 1] == records[|records| + 1 - |longer|..]
  }

  lemma {:induction false} RecordedIsLatest(records: seq<nat>, count: nat)
    requires |records| <= 10
    ensures LatestTen(records, count, Recorded(records, count))
  {
  }

  function AnswerJob(s: State, j: nat, reply: Option<string>): State
    requires j < |s.jobs|
  {
    var job := s.jobs[j];
    var t := s.(jobs := s.jobs[j := job.(answered := true)]);
    if job.epoch != s.epoch || reply.None? || s.messages == [] then t
    else t.(messages := Installed(s.messages, BuildSummary(reply.value, |job.compacted|)),
            records := Recorded(s.records, |job.compacted|))
  }

  function ClearContext(s: State): State {
    if |s.messages| <= 1 then s
    else s.(messages := s.messages[..1], epoch := s.epoch + 1, compacting := false)
  }

  function LoadHistory(s: State, prompt: string, checkpoint: Option<(string, nat)>, history: seq<Message>): State {
    var summary := if checkpoint.Some? then [BuildSummary(checkpoint.value.0, checkpoint.value.1)] else [];
    s.(messages := [Plain(Role.System, prompt)] + summary + NonSystem(history), prompt := prompt)
  }

  function RefreshPrompt(s: State, prompt: string): State {
    var i := PromptIndex(s.messages);
    var message := Plain(Role.System, prompt);
    s.(prompt := prompt,
       messages := if i < |s.messages| then s.messages[i := message] else [message] + s.messages)
  }

  /** Replaces a dangling assistant message by the durable sequence that starts with it. */
  function HealTail(s: State, tail: seq<Message>): State {
    var n := |s.messages|;
    if n > 0 && Asks(s.messages[n - 1]) && tail != [] then s.(messages := s.messages[..n - 1] + tail) else s
  }

  function Step(s: State, a: Action, estimate: Estimate): State {
    match a
    case Push(m) => s.(messages := s.messages + [m])
    case Refresh(prompt) => RefreshPrompt(s, prompt)
    case Heal(tail) => HealTail(s, tail)
    case Check(threshold) => CheckCompaction(s, threshold, estimate)
    case Schedule(threshold) => ScheduleCompaction(s, threshold, estimate)
    case Answer(j, reply) => if j < |s.jobs| && !s.jobs[j].answered then AnswerJob(s, j, reply) else s
    case Settle(j) =>
      if j < |s.jobs| && !s.jobs[j].settled
      then s.(compacting := false, jobs := s.jobs[j := s.jobs[j].(settled := true)]) else s
    case Clear => ClearContext(s)
    case Load(prompt, checkpoint, history) => LoadHistory(s, prompt, checkpoint, history)
  }

  function Run(s: State, actions: seq<Action>, estimate: Estimate): State
    decreases |actions|
  {
    if actions == [] then s else Run(Step(s, actions[0], estimate), actions[1..], estimate)
  }

  // ----- the shape of the conversation -------------------------------------------------------

  ghost predicate NoSummaries(ms: seq<Message>) {
    forall i :: 0 <= i < |ms| ==> !IsSummary(ms[i])
  }

  /** The system prompt first, at most one summary right behind it, and no summary further on. */
  ghost predicate Shape(s: State) {
    && s.messages != []
    && s.messages[0] == Plain(Role.System, s.prompt) && !IsSummary(s.messages[0])
    && NoSummaries(Turns(s.messages))
  }

  /** The conversation without the prompt and the summary. */
  function Turns(ms: seq<Message>): seq<Message> {
    if |ms| > 1 && IsSummary(ms[1]) then ms[2..] else if ms == [] then [] else ms[1..]
  }

  function SummaryPart(ms: seq<Message>): seq<Message> {
    if |ms| > 1 && IsSummary(ms[1]) then [ms[1]] else []
  }

  /** No text that comes from outside starts with the marker. */
  ghost predicate Unmarked(a: Action) {
    match a
    case Push(m) => !IsSummary(m)
    case Refresh(prompt) => !IsSummary(Plain(Role.System, prompt))
    case Heal(tail) => NoSummaries(tail)
    case Load(prompt, _, history) => !IsSummary(Plain(Role.System, prompt)) && NoSummaries(history)
    case _ => true
  }

  ghost predicate AllUnmarked(actions: seq<Action>) {
    forall k :: 0 <= k < |actions| ==> Unmarked(actions[k])
  }

  lemma {:induction false} FilterClean(ms: seq<Message>)
    requires NoSummaries(ms)
    ensures NonSummary(ms) == ms && FirstSummary(ms) == []
  {
    if ms != [] {
      FilterClean(ms[1..]);
      assert ms == [ms[0]] + ms[1..];
    }
  }

  lemma {:induction false} FilterHead(ms: seq<Message>)
    requires ms != []
    ensures NonSummary(ms) == (if IsSummary(ms[0]) then [] else [ms[0]]) + NonSummary(ms[1..])
  {
  }

  lemma {:induction false} PlainParts(ms: seq<Message>)
    requires ms != [] && !IsSummary(ms[0]) && NoSummaries(Turns(ms))
    ensures NonSummary(ms) == [ms[0]] + Turns(ms) && NonSummary(ms[1..]) == Turns(ms)
  {
    var rest := ms[1..];
    FilterHead(ms);
    FilterClean(Turns(ms));
    if rest != [] && IsSummary(rest[0]) {
      FilterHead(rest);
      assert rest[1..] == ms[2..] && [] + NonSummary(rest[1..]) == NonSummary(rest[1..]);
    } else {
      assert rest == Turns(ms);
    }
  }

  lemma {:induction false} SummaryFound(ms: seq<Message>)
    requires ms != [] && !IsSummary(ms[0]) && NoSummaries(Turns(ms))
    ensures FirstSummary(ms) == SummaryPart(ms)
  {
    var rest := ms[1..];
    if rest != [] && IsSummary(rest[0]) {
      assert FirstSummary(rest) == [rest[0]];
    } else {
      FilterClean(rest);
    }
  }

  /** A list put together from prompt, summary and turns is read back that way. */
  lemma {:induction false} Assemble(first: Message, summary: seq<Message>, turns: seq<Message>)
    requires |summary| <= 1 && (summary != [] ==> IsSummary(summary[0])) && NoSummaries(turns)
    ensures var ms := [first] + summary + turns; Turns(ms) == turns && SummaryPart(ms) == summary
  {
  }

  lemma {:induction false} Disassemble(ms: seq<Message>)
    requires ms != []
    ensures ms == [ms[0]] + SummaryPart(ms) + Turns(ms)
    ensures SummaryPart(ms) != [] ==> IsSummary(SummaryPart(ms)[0])
  {
  }

  // ----- what each operation does to the turns -----------------------------------------------

  /** The arithmetic of the two slices, with the prompt in front and without. */
  lemma {:induction false} SliceTurns(prompt: Message, turns: seq<Message>)
    ensures Recent([prompt] + turns) == LastFew(turns)
    ensures ToCompact([prompt] + turns) + Recent([prompt] + turns) == turns
    ensures |turns| >= KEEP_RECENT ==> LastFew([prompt] + turns) == LastFew(turns)
  {
  }

  /**
    Truncation splits the conversation: the prompt and the summary stay, the recent turns stay, and exactly
    the turns before them go to the summary request.
   */
  lemma {:induction false} TruncationPartitions(s: State)
    requires Shape(s)
    ensures var t := StartCompaction(s, true);
      var toCompact := ToCompact(NonSummary(s.messages));
      && t.messages == [s.messages[0]] + SummaryPart(s.messages) + Turns(t.messages)
      && SummaryPart(t.messages) == SummaryPart(s.messages)
      && toCompact + Turns(t.messages) == Turns(s.messages)
      && Turns(t.messages) == LastFew(Turns(s.messages))
      && t.compacting == (toCompact != [])
      && t.jobs == (if toCompact == [] then s.jobs else s.jobs + [Job(s.epoch, toCompact, false, false)])
  {
    PlainParts(s.messages);
    SummaryFound(s.messages);
    Disassemble(s.messages);
    SliceTurns(s.messages[0], Turns(s.messages));
    Assemble(s.messages[0], SummaryPart(s.messages), LastFew(Turns(s.messages)));
  }

  /** Eviction keeps the prompt once, the summary and the last turns; nobody summarises what it drops. */
  lemma {:induction false} EvictionKeepsRecent(s: State, threshold: nat, estimate: Estimate)
    requires Shape(s) && |s.messages| > 5
    ensures var t := CascadeEvict(s, threshold, estimate);
      && t.messages == [s.messages[0]] + SummaryPart(s.messages) + Turns(t.messages)
      && SummaryPart(t.messages) == SummaryPart(s.messages)
      && Turns(t.messages) == (if estimate(s.messages) <= threshold * 2 then Turns(s.messages) else LastFew(Turns(s.messages)))
      && t.jobs == s.jobs
  {
    PlainParts(s.messages);
    SummaryFound(s.messages);
    Disassemble(s.messages);
    SliceTurns(s.messages[0], Turns(s.messages));
    Assemble(s.messages[0], SummaryPart(s.messages), LastFew(Turns(s.messages)));
  }

  /**
    A check leaves five messages alone. While a summary is awaited it evicts beyond twice the threshold; otherwise
    beyond the threshold it keeps the last four turns and asks for a summary of those before them, if there are any.
   */
  lemma {:induction false} CheckExactly(s: State, threshold: nat, estimate: Estimate)
    requires Shape(s)
    ensures var t, size, turns := Step(s, Check(threshold), estimate), estimate(s.messages), Turns(s.messages);
      var older := |turns| - |LastFew(turns)|;
      var kept := [s.messages[0]] + SummaryPart(s.messages) + LastFew(turns);
      if |s.messages| <= 5 || size <= (if s.compacting then 2 * threshold else threshold) then t == s
      else if s.compacting || older == 0 then t == s.(messages := kept)
      else t == s.(messages := kept, compacting := true, jobs := s.jobs + [Job(s.epoch, turns[..older], false, false)])
  {
    if |s.messages| > 5 && s.compacting {
      EvictionKeepsRecent(s, threshold, estimate);
    } else if |s.messages| > 5 && estimate(s.messages) > threshold {
      var turns := Turns(s.messages);
      var older := |turns| - |LastFew(turns)|;
      TruncationPartitions(s);
      assert ToCompact(NonSummary(s.messages)) == turns[..older];
    }
  }

  /** Scheduling truncates nothing; beyond the threshold it asks for a summary of all turns, unless one is awaited. */
  lemma {:induction false} ScheduleExactly(s: State, threshold: nat, estimate: Estimate)
    requires Shape(s)
    ensures Step(s, Schedule(threshold), estimate) ==
      if s.compacting || |s.messages| <= 5 || estimate(s.messages) <= threshold then s
      else s.(compacting := true, jobs := s.jobs + [Job(s.epoch, Turns(s.messages), false, false)])
  {
    PlainParts(s.messages);
  }

  /** Healing puts the durable sequence in place of an assistant's message with calls at the end, and of nothing else. */
  lemma {:induction false} HealExactly(s: State, tail: seq<Message>, last: Message)
    requires s.messages != [] && last == s.messages[|s.messages| - 1]
    ensures HealTail(s, tail) ==
      if tail != [] && last.role.Assistant? && last.calls.Some? && |last.calls.value| > 0
      then s.(messages := s.messages[..|s.messages| - 1] + tail) else s
  {
  }

  /** An accepted summary replaces the one there was and leaves every turn in place. */
  lemma {:induction false} InstallReplaces(s: State, summary: Message)
    requires Shape(s) && IsSummary(summary)
    ensures var ms := Installed(s.messages, summary);
      ms[0] == s.messages[0] && SummaryPart(ms) == [summary] && Turns(ms) == Turns(s.messages)
  {
    PlainParts(s.messages);
    Assemble(s.messages[0], [summary], Turns(s.messages));
    assert Installed(s.messages, summary) == [s.messages[0]] + [summary] + Turns(s.messages);
  }

  // ----- the shape, over every run -----------------------------------------------------------

  lemma {:induction false} AppendTurn(ms: seq<Message>, m: Message)
    requires ms != [] && !IsSummary(m)
    ensures Turns(ms + [m]) == Turns(ms) + [m] && SummaryPart(ms + [m]) == SummaryPart(ms) && (ms + [m])[0] == ms[0]
  {
  }

  lemma {:induction false} PushKeepsShape(s: State, m: Message)
    requires Shape(s) && !IsSummary(m)
    ensures Shape(s.(messages := s.messages + [m]))
  {
  }

  lemma {:induction false} RefreshKeepsTurns(s: State, prompt: string)
    requires Shape(s) && !IsSummary(Plain(Role.System, prompt))
    ensures var t := RefreshPrompt(s, prompt);
      && Shape(t) && t.prompt == prompt
      && Turns(t.messages) == Turns(s.messages) && SummaryPart(t.messages) == SummaryPart(s.messages)
  {
  }

  lemma {:induction false} HealKeepsShape(s: State, tail: seq<Message>)
    requires Shape(s) && NoSummaries(tail)
    ensures Shape(HealTail(s, tail))
  {
  }

  lemma {:induction false} NonSystemSnoc(ms: seq<Message>, m: Message)
    ensures NonSystem(ms + [m]) == NonSystem(ms) + if m.role.System? then [] else [m]
  {
    if ms == [] {
      assert [m][1..] == [] && [] + [m] == [m];
    } else {
      assert (ms + [m])[0] == ms[0] && (ms + [m])[1..] == ms[1..] + [m];
      NonSystemSnoc(ms[1..], m);
    }
  }

  /** What a load takes over: every message of the history that is no system message, in order. */
  lemma {:induction false} LoadedAreFiltered(history: seq<Message>)
    ensures Filtered(history, NonSystem(history), (m: Message) => !m.role.System?)
  {
    var keep := (m: Message) => !m.role.System?;
    if history == [] {
      FilteredNothing(keep);
    } else {
      var n := |history| - 1;
      LoadedAreFiltered(history[..n]);
      NonSystemSnoc(history[..n], history[n]);
      FilteredSnoc(history[..n], history[n], NonSystem(history[..n]), keep);
      assert history[..n] + [history[n]] == history;
    }
  }

  lemma {:induction false} NonSystemIsClean(ms: seq<Message>)
    requires NoSummaries(ms)
    ensures NoSummaries(NonSystem(ms))
  {
    if ms != [] {
      NonSystemIsClean(ms[1..]);
    }
  }

  lemma {:induction false} LoadHasShape(s: State, prompt: string, checkpoint: Option<(string, nat)>, history: seq<Message>)
    requires !IsSummary(Plain(Role.System, prompt)) && NoSummaries(history)
    ensures var t := LoadHistory(s, prompt, checkpoint, history);
      Shape(t) && Turns(t.messages) == NonSystem(history)
  {
    NonSystemIsClean(history);
    var summary := if checkpoint.Some? then [BuildSummary(checkpoint.value.0, checkpoint.value.1)] else [];
    Assemble(Plain(Role.System, prompt), summary, NonSystem(history));
  }

  lemma {:induction false} LastFewIsClean(turns: seq<Message>)
    requires NoSummaries(turns)
    ensures NoSummaries(LastFew(turns))
  {
  }

  /** The turns stay as they are or shrink to the last few. */
  ghost predicate Shrinks(s: State, t: State) {
    Shape(t) && (Turns(t.messages) == Turns(s.messages) || Turns(t.messages) == LastFew(Turns(s.messages)))
  }

  lemma {:induction false} StartShrinks(s: State, truncateNow: bool)
    requires Shape(s)
    ensures Shrinks(s, StartCompaction(s, truncateNow))
  {
    if truncateNow {
      TruncationPartitions(s);
      LastFewIsClean(Turns(s.messages));
    }
  }

  lemma {:induction false} EvictShrinks(s: State, threshold: nat, estimate: Estimate)
    requires Shape(s) && |s.messages| > 5
    ensures Shrinks(s, CascadeEvict(s, threshold, estimate))
  {
    EvictionKeepsRecent(s, threshold, estimate);
    LastFewIsClean(Turns(s.messages));
  }

  lemma {:induction false} AnswerShrinks(s: State, j: nat, reply: Option<string>)
    requires Shape(s) && j < |s.jobs|
    ensures Shrinks(s, AnswerJob(s, j, reply))
  {
    if reply.Some? {
      InstallReplaces(s, BuildSummary(reply.value, |s.jobs[j].compacted|));
    }
  }

  lemma {:induction false} CompactionShrinks(s: State, a: Action, estimate: Estimate)
    requires Shape(s) && (a.Check? || a.Schedule? || a.Answer?)
    ensures Shrinks(s, Step(s, a, estimate))
  {
    match a {
      case Check(threshold) =>
        StartShrinks(s, true);
        if |s.messages| > 5 { EvictShrinks(s, threshold, estimate); }
      case Schedule(_) => StartShrinks(s, false);
      case Answer(j, reply) =>
        if j < |s.jobs| { AnswerShrinks(s, j, reply); }
      case _ =>
    }
  }

  lemma {:induction false} StepKeepsShape(s: State, a: Action, estimate: Estimate)
    requires Shape(s) && Unmarked(a)
    ensures Shape(Step(s, a, estimate))
  {
    match a {
      case Push(m) => PushKeepsShape(s, m);
      case Refresh(prompt) => RefreshKeepsTurns(s, prompt);
      case Heal(tail) => HealKeepsShape(s, tail);
      case Settle(_) =>
      case Clear =>
      case Load(prompt, checkpoint, history) => LoadHasShape(s, prompt, checkpoint, history);
      case _ => CompactionShrinks(s, a, estimate);
    }
  }

  /** Over every interleaving, the system prompt is first and a summary stands only right behind it. */
  lemma {:induction false} RunKeepsShape(s: State, actions: seq<Action>, estimate: Estimate)
    requires Shape(s) && AllUnmarked(actions)
    ensures Shape(Run(s, actions, estimate))
    decreases |actions|
  {
    if actions != [] {
      StepKeepsShape(s, actions[0], estimate);
      RunKeepsShape(Step(s, actions[0], estimate), actions[1..], estimate);
    }
  }

  /** The same, index by index. */
  lemma {:induction false} SummaryOnlyAtOne(s: State)
    requires Shape(s)
    ensures forall i :: 0 <= i < |s.messages| && IsSummary(s.messages[i]) ==> i == 1
  {
  }

  // ----- the last turns stay -----------------------------------------------------------------

  /** Actions of one conversation: no clearing, loading or healing. */
  predicate Conversing(a: Action) {
    !a.Clear? && !a.Load? && !a.Heal?
  }

  ghost predicate AllConversing(actions: seq<Action>) {
    forall k :: 0 <= k < |actions| ==> Conversing(actions[k])
  }

  function Pushed(actions: seq<Action>): seq<Message> {
    if actions == [] then [] else (if actions[0].Push? then [actions[0].message] else []) + Pushed(actions[1..])
  }

  /** `kept` is the end of `all`, and at least its last four. */
  ghost predicate RecentPart(kept: seq<Message>, all: seq<Message>) {
    && |kept| <= |all|
    && kept == all[|all| - |kept|..]
    && (|kept| >= 4 || kept == all)
  }

  lemma {:induction false} RecentPartWider(x: seq<Message>, y: seq<Message>, more: seq<Message>)
    requires RecentPart(x, y)
    ensures RecentPart(x + more, y + more)
  {
  }

  lemma {:induction false} RecentPartTrans(x: seq<Message>, y: seq<Message>, z: seq<Message>)
    requires RecentPart(x, y) && RecentPart(y, z)
    ensures RecentPart(x, z)
  {
  }

  lemma {:induction false} LastFewIsRecent(turns: seq<Message>)
    ensures RecentPart(LastFew(turns), turns) && RecentPart(turns, turns)
  {
  }

  lemma {:induction false} StepKeepsRecent(s: State, a: Action, estimate: Estimate)
    requires Shape(s) && Unmarked(a) && Conversing(a)
    ensures RecentPart(Turns(Step(s, a, estimate).messages), Turns(s.messages) + Pushed([a]))
  {
    assert Pushed([a]) == if a.Push? then [a.message] else [] by { assert [a][1..] == []; }
    assert Turns(s.messages) + [] == Turns(s.messages);
    match a {
      case Push(m) => AppendTurn(s.messages, m);
      case Refresh(prompt) => RefreshKeepsTurns(s, prompt);
      case Settle(_) =>
      case _ =>
        CompactionShrinks(s, a, estimate);
        LastFewIsRecent(Turns(s.messages));
    }
  }

  lemma {:induction false} PushedFirst(said: seq<Message>, actions: seq<Action>)
    requires actions != []
    ensures said + Pushed(actions) == said + Pushed([actions[0]]) + Pushed(actions[1..])
  {
    var first, rest := Pushed([actions[0]]), Pushed(actions[1..]);
    assert [actions[0]][1..] == [] && Pushed([]) == [];
    assert first == if actions[0].Push? then [actions[0].message] else [];
    assert Pushed(actions) == first + rest;
    assert said + (first + rest) == said + first + rest;
  }

  lemma {:induction false} OneByOne(actions: seq<Action>)
    requires actions != [] && AllUnmarked(actions) && AllConversing(actions)
    ensures Unmarked(actions[0]) && Conversing(actions[0])
    ensures AllUnmarked(actions[1..]) && AllConversing(actions[1..])
  {
  }

  /**
    Whatever is truncated, evicted or summarised in the background, the conversation is always the end of all
    that was said, and the last four messages are always there.
   */
  lemma {:induction false} RecentTurnsSurvive(s: State, actions: seq<Action>, estimate: Estimate)
    requires Shape(s) && AllUnmarked(actions) && AllConversing(actions)
    ensures RecentPart(Turns(Run(s, actions, estimate).messages), Turns(s.messages) + Pushed(actions))
    decreases |actions|
  {
    var said := Turns(s.messages);
    if actions == [] {
      assert said + Pushed(actions) == said;
      LastFewIsRecent(said);
    } else {
      OneByOne(actions);
      var t := Step(s, actions[0], estimate);
      StepKeepsShape(s, actions[0], estimate);
      StepKeepsRecent(s, actions[0], estimate);
      RecentTurnsSurvive(t, actions[1..], estimate);
      PushedFirst(said, actions);
      RecentPartWider(Turns(t.messages), said + Pushed([actions[0]]), Pushed(actions[1..]));
      RecentPartTrans(
        Turns(Run(t, actions[1..], estimate).messages), Turns(t.messages) + Pushed(actions[1..]), said + Pushed(actions));
    }
  }

  // ----- late summaries ----------------------------------------------------------------------

  lemma {:induction false} StepMovesEpoch(s: State, a: Action, estimate: Estimate, j: nat)
    requires j < |s.jobs|
    ensures var t := Step(s, a, estimate);
      t.epoch >= s.epoch && j < |t.jobs| && t.jobs[j].epoch == s.jobs[j].epoch && t.jobs[j].compacted == s.jobs[j].compacted
  {
  }

  lemma {:induction false} RunMovesEpoch(s: State, actions: seq<Action>, estimate: Estimate, j: nat)
    requires j < |s.jobs|
    ensures var t := Run(s, actions, estimate);
      t.epoch >= s.epoch && j < |t.jobs| && t.jobs[j].epoch == s.jobs[j].epoch && t.jobs[j].compacted == s.jobs[j].compacted
    decreases |actions|
  {
    if actions != [] {
      StepMovesEpoch(s, actions[0], estimate, j);
      RunMovesEpoch(Step(s, actions[0], estimate), actions[1..], estimate, j);
    }
  }

  /** Epochs of jobs never run ahead; from the start, for every run. */
  ghost predicate EpochsKnown(s: State) {
    forall j :: 0 <= j < |s.jobs| ==> s.jobs[j].epoch <= s.epoch
  }

  lemma {:induction false} RunKeepsEpochs(s: State, actions: seq<Action>, estimate: Estimate)
    requires EpochsKnown(s)
    ensures EpochsKnown(Run(s, actions, estimate))
    decreases |actions|
  {
    if actions != [] {
      RunKeepsEpochs(Step(s, actions[0], estimate), actions[1..], estimate);
    }
  }

  /**
    A summary requested before a successful clear is never installed: whatever happens after the clear, its
    answer changes neither the messages nor the records.
   */
  lemma {:induction false} ClearedSummaryIsDropped(prompt: string, before: seq<Action>, after: seq<Action>, estimate: Estimate,
      j: nat, reply: Option<string>)
    requires var s := Run(Fresh(prompt), before, estimate); j < |s.jobs| && |s.messages| > 1
    ensures var s := Run(Fresh(prompt), before, estimate);
      var t := Run(Step(s, Clear, estimate), after, estimate);
      Step(t, Answer(j, reply), estimate).messages == t.messages && Step(t, Answer(j, reply), estimate).records == t.records
  {
    var s := Run(Fresh(prompt), before, estimate);
    RunKeepsEpochs(Fresh(prompt), before, estimate);
    RunMovesEpoch(Step(s, Clear, estimate), after, estimate, j);
  }

  /** How often a run clears a conversation that has something to clear. */
  function Clears(s: State, actions: seq<Action>, estimate: Estimate): nat
    decreases |actions|
  {
    if actions == [] then 0
    else
      (if actions[0].Clear? && |s.messages| > 1 then 1 else 0) + Clears(Step(s, actions[0], estimate), actions[1..], estimate)
  }

  lemma {:induction false} EpochCountsClears(s: State, actions: seq<Action>, estimate: Estimate)
    ensures Run(s, actions, estimate).epoch == s.epoch + Clears(s, actions, estimate)
    decreases |actions|
  {
    if actions != [] {
      EpochCountsClears(Step(s, actions[0], estimate), actions[1..], estimate);
    }
  }

  /** The one summary in the list tells this text about this many turns. */
  ghost predicate Shows(ms: seq<Message>, text: string, turns: nat) {
    |SummaryPart(ms)| == 1 && Summarises(SummaryPart(ms)[0], text, turns)
  }

  lemma {:induction false} AnswerShows(s: State, estimate: Estimate, j: nat, text: string)
    requires Shape(s) && j < |s.jobs| && !s.jobs[j].answered && s.jobs[j].epoch == s.epoch
    ensures var t := Step(s, Answer(j, Some(text)), estimate);
      && Shows(t.messages, text, |s.jobs[j].compacted|) && Turns(t.messages) == Turns(s.messages)
      && t.records == Recorded(s.records, |s.jobs[j].compacted|)
  {
    InstallReplaces(s, BuildSummary(text, |s.jobs[j].compacted|));
    SummaryTells(text, |s.jobs[j].compacted|);
  }

  /** An answer has become the summary, whole, in place of the old one. */
  ghost predicate Lands(t: State, u: State, text: string, compacted: nat) {
    && Shows(u.messages, text, compacted) && Turns(u.messages) == Turns(t.messages)
    && u.records == Recorded(t.records, compacted)
  }

  /**
    When a late answer counts. Whatever happens between a request and its answer, the answer is installed if
    and only if the conversation has not been cleared since; otherwise it leaves messages and records alone.
    Loading another session is no clearing.
   */
  lemma {:induction false} AnswerLandsExactly(s: State, actions: seq<Action>, estimate: Estimate, j: nat, text: string)
    requires Shape(s) && EpochsKnown(s) && AllUnmarked(actions) && j < |s.jobs|
    requires var t := Run(s, actions, estimate); j < |t.jobs| && !t.jobs[j].answered
    ensures var t := Run(s, actions, estimate);
      var u := Step(t, Answer(j, Some(text)), estimate);
      if s.jobs[j].epoch == s.epoch && Clears(s, actions, estimate) == 0 then Lands(t, u, text, |s.jobs[j].compacted|)
      else u.messages == t.messages && u.records == t.records
  {
    var t := Run(s, actions, estimate);
    RunKeepsShape(s, actions, estimate);
    RunMovesEpoch(s, actions, estimate, j);
    EpochCountsClears(s, actions, estimate);
    if t.jobs[j].epoch == t.epoch { AnswerShows(t, estimate, j, text); }
  }

  /** Loading another session does not advance the epoch, so a summary of the old one still lands in the new one. */
  lemma {:induction false} LoadDoesNotShield(s: State, estimate: Estimate, load: Action, j: nat, text: string)
    requires load.Load? && Unmarked(load)
    requires j < |s.jobs| && !s.jobs[j].answered && s.jobs[j].epoch == s.epoch
    ensures var t := Step(Step(s, load, estimate), Answer(j, Some(text)), estimate);
      && Shows(t.messages, text, |s.jobs[j].compacted|)
      && Filtered(load.history, Turns(t.messages), (m: Message) => !m.role.System?)
  {
    LoadedAreFiltered(load.history);
    LoadHasShape(s, load.prompt, load.checkpoint, load.history);
    AnswerShows(Step(s, load, estimate), estimate, j, text);
  }

  lemma {:induction false} CheckStartsJob(s: State, estimate: Estimate, threshold: nat)
    requires Shape(s) && !s.compacting && estimate(s.messages) > threshold && |Turns(s.messages)| > KEEP_RECENT
    ensures var t := Step(s, Check(threshold), estimate);
      t.compacting && t.epoch == s.epoch && t.jobs == s.jobs + [Job(s.epoch, ToCompact(NonSummary(s.messages)), false, false)]
  {
    TruncationPartitions(s);
    PlainParts(s.messages);
  }

  /** `isCompacting` is no lock: after a timeout a second request starts while the first may still answer. */
  lemma {:induction false} TwoSummariesInFlight(s: State, estimate: Estimate, j: nat, threshold: nat)
    requires Shape(s) && j < |s.jobs| && !s.jobs[j].answered && !s.jobs[j].settled && s.jobs[j].epoch == s.epoch
    requires estimate(s.messages) > threshold && |Turns(s.messages)| > KEEP_RECENT
    ensures var t := Step(Step(s, Settle(j), estimate), Check(threshold), estimate);
      && |t.jobs| == |s.jobs| + 1 && t.jobs[j].epoch == t.jobs[|s.jobs|].epoch == t.epoch
      && !t.jobs[j].answered && !t.jobs[|s.jobs|].answered
  {
    var u := s.(compacting := false, jobs := s.jobs[j := s.jobs[j].(settled := true)]);
    assert Step(s, Settle(j), estimate) == u;
    CheckStartsJob(u, estimate, threshold);
  }

  lemma {:induction false} RunSplits(s: State, x: seq<Action>, y: seq<Action>, estimate: Estimate)
    ensures Run(s, x + y, estimate) == Run(Run(s, x, estimate), y, estimate)
    decreases |x|
  {
    if x == [] {
      assert x + y == y;
    } else {
      assert (x + y)[0] == x[0] && (x + y)[1..] == x[1..] + y;
      RunSplits(Step(s, x[0], estimate), x[1..], y, estimate);
    }
  }

  function Pushes(m: Message, n: nat): seq<Action> {
    if n == 0 then [] else [Push(m)] + Pushes(m, n - 1)
  }

  lemma {:induction false} PushesRun(s: State, m: Message, n: nat, estimate: Estimate)
    requires Shape(s) && !IsSummary(m)
    ensures var t := Run(s, Pushes(m, n), estimate);
      && t == s.(messages := t.messages) && Shape(t) && |Turns(t.messages)| == |Turns(s.messages)| + n
    decreases n
  {
    if n > 0 {
      var actions := Pushes(m, n);
      assert actions[0] == Push(m) && actions[1..] == Pushes(m, n - 1);
      PushKeepsShape(s, m);
      AppendTurn(s.messages, m);
      PushesRun(Step(s, Push(m), estimate), m, n - 1, estimate);
    }
  }

  /**
    It happens: five messages outgrow the threshold, the request goes out, another session is loaded, and the
    answer about the first session becomes the summary of the second.
   */
  lemma {:induction false} SummaryCrossesSessions(prompt: string, m: Message, load: Action, text: string)
    requires !IsSummary(Plain(Role.System, prompt)) && !IsSummary(m) && load.Load? && Unmarked(load)
    ensures var length := (ms: seq<Message>) => |ms|;
      var t := Run(Fresh(prompt), Pushes(m, 5) + [Check(0), load, Answer(0, Some(text))], length);
      && (exists n :: Shows(t.messages, text, n))
      && Filtered(load.history, Turns(t.messages), (x: Message) => !x.role.System?)
  {
    var length := (ms: seq<Message>) => |ms|;
    var s := Run(Fresh(prompt), Pushes(m, 5), length);
    PushesRun(Fresh(prompt), m, 5, length);
    CheckStartsJob(s, length, 0);
    var u := Step(s, Check(0), length);
    LoadDoesNotShield(u, length, load, 0, text);
    RunSplits(Fresh(prompt), Pushes(m, 5), [Check(0), load, Answer(0, Some(text))], length);
    RunThree(s, Check(0), load, Answer(0, Some(text)), length);
  }

  lemma {:induction false} RunThree(s: State, a: Action, b: Action, c: Action, estimate: Estimate)
    ensures Run(s, [a, b, c], estimate) == Step(Step(Step(s, a, estimate), b, estimate), c, estimate)
  {
    assert [a, b, c][1..] == [b, c] && [b, c][1..] == [c] && [c][1..] == [];
    assert Run(Step(s, a, estimate), [b, c], estimate) == Run(Step(Step(s, a, estimate), b, estimate), [c], estimate);
  }

  /** Of two requests in flight the one answered last wins, whichever was asked first. */
  lemma {:induction false} LastAnswerWins(s: State, estimate: Estimate, i: nat, j: nat, first: string, second: string)
    requires Shape(s) && i < |s.jobs| && j < |s.jobs| && i != j
    requires !s.jobs[i].answered && s.jobs[i].epoch == s.epoch && !s.jobs[j].answered && s.jobs[j].epoch == s.epoch
    ensures var t := Step(Step(s, Answer(i, Some(first)), estimate), Answer(j, Some(second)), estimate);
      && Shows(t.messages, second, |s.jobs[j].compacted|)
      && Turns(t.messages) == Turns(s.messages)
  {
    InstallReplaces(s, BuildSummary(first, |s.jobs[i].compacted|));
    AnswerShows(Step(s, Answer(i, Some(first)), estimate), estimate, j, second);
  }

  // ----- the agent ---------------------------------------------------------------------------

  class CorvusAgent {
    var messages: seq<Message>
    var prompt: string
    var isCompacting: bool
    var compactionEpoch: nat
    var pending: seq<Job>
    var compactionHistory: seq<nat>
    const estimate: Estimate

    ghost function Abstract(): State
      reads this
    {
      State(messages, prompt, isCompacting, compactionEpoch, pending, compactionHistory)
    }

    constructor (prompt: string, estimate: Estimate)
      ensures Abstract() == Fresh(prompt) && this.estimate == estimate
    {
      messages := [Plain(Role.System, prompt)];
      this.prompt := prompt;
      isCompacting := false;
      compactionEpoch := 0;
      pending := [];
      compactionHistory := [];
      this.estimate := estimate;
    }

    method RefreshSystemPrompt(prompt: string)
      modifies this
      ensures Abstract() == Step(old(Abstract()), Refresh(prompt), estimate) && this.prompt == prompt
      ensures var was, message := old(messages), Plain(Role.System, prompt);
        || (messages == [message] + was && forall i :: 0 <= i < |was| ==> !(was[i].role.System? && !IsSummary(was[i])))
        || (exists i :: 0 <= i < |was| && messages == was[i := message] && was[i].role.System? && !IsSummary(was[i])
              && forall j :: 0 <= j < i ==> !(was[j].role.System? && !IsSummary(was[j])))
    {
      var index := PromptIndex(messages);
      this.prompt := prompt;
      if index < |messages| {
        messages := messages[index := Plain(Role.System, prompt)];
      } else {
        messages := [Plain(Role.System, prompt)] + messages;
      }
    }

    method StartAsyncCompaction(truncateNow: bool)
      requires messages != []
      modifies this
      ensures Abstract() == StartCompaction(old(Abstract()), truncateNow)
    {
      isCompacting := true;
      var systemMsg := messages[0];
      var summary := FirstSummary(messages);
      var nonSummary := NonSummary(messages);
      var toCompact;
      if truncateNow {
        toCompact := ToCompact(nonSummary);
        messages := [systemMsg] + summary + Recent(nonSummary);
      } else {
        toCompact := if nonSummary == [] then [] else nonSummary[1..];
      }
      if toCompact == [] {
        isCompacting := false;
        return;
      }
      pending := pending + [Job(compactionEpoch, toCompact, false, false)];
    }

    method CheckCompaction(threshold: nat) returns (truncated: bool)
      modifies this
      ensures Abstract() == Step(old(Abstract()), Check(threshold), estimate)
      ensures truncated <==> |old(messages)| > 5 && !old(isCompacting) && estimate(old(messages)) > threshold
    {
      if |messages| <= 5 { return false; }
      if isCompacting {
        if estimate(messages) > threshold * 2 {
          messages := [messages[0]] + FirstSummary(messages) + LastFew(NonSummary(messages));
        }
        return false;
      }
      if estimate(messages) > threshold {
        StartAsyncCompaction(true);
        return true;
      }
      truncated := false;
    }

    method ScheduleBackgroundCompaction(threshold: nat)
      modifies this
      ensures Abstract() == Step(old(Abstract()), Schedule(threshold), estimate)
    {
      if isCompacting || |messages| <= 5 { return; }
      if estimate(messages) > threshold {
        StartAsyncCompaction(false);
      }
    }

    /** The continuation of a summary request; each request is answered once at most. */
    method SummaryAnswered(j: nat, reply: Option<string>)
      requires j < |pending| && !pending[j].answered && messages != []
      modifies this
      ensures Abstract() == Step(old(Abstract()), Answer(j, reply), estimate)
      ensures reply.Some? && old(pending)[j].epoch == old(compactionEpoch) ==>
        && |messages| > 1 && messages[0] == old(messages)[0]
        && Summarises(messages[1], reply.value, |old(pending)[j].compacted|)
      ensures reply.None? || old(pending)[j].epoch != old(compactionEpoch) ==>
        messages == old(messages) && compactionHistory == old(compactionHistory)
    {
      if reply.Some? { SummaryTells(reply.value, |pending[j].compacted|); }
      var job := pending[j];
      pending := pending[j := job.(answered := true)];
      if job.epoch != compactionEpoch || reply.None? { return; }
      var compactMsg := BuildSummary(reply.value, |job.compacted|);
      messages := [messages[0]] + NonSummary(messages[1..]);
      messages := messages[..1] + [compactMsg] + messages[1..];
      compactionHistory := compactionHistory + [|job.compacted|];
      if |compactionHistory| > 10 {
        compactionHistory := compactionHistory[1..];
      }
    }

    /** The race of a request against its timeout is over. */
    method SummarySettled(j: nat)
      requires j < |pending| && !pending[j].settled
      modifies this
      ensures Abstract() == Step(old(Abstract()), Settle(j), estimate)
    {
      pending := pending[j := pending[j].(settled := true)];
      isCompacting := false;
    }

    method ClearContext() returns (cleared: bool)
      modifies this
      ensures Abstract() == Step(old(Abstract()), Clear, estimate)
      ensures cleared <==> |old(messages)| > 1
      ensures cleared ==> messages == [old(messages)[0]] && compactionEpoch == old(compactionEpoch) + 1 && !isCompacting
      ensures !cleared ==> Abstract() == old(Abstract())
    {
      if |messages| <= 1 { return false; }
      messages := messages[..1];
      compactionEpoch := compactionEpoch + 1;
      isCompacting := false;
      cleared := true;
    }

    method LoadSessionHistory(prompt: string, checkpoint: Option<(string, nat)>, history: seq<Message>)
      modifies this
      ensures Abstract() == Step(old(Abstract()), Load(prompt, checkpoint, history), estimate)
      ensures var n := if checkpoint.Some? then 2 else 1;
        && |messages| >= n && messages[0] == Plain(Role.System, prompt)
        && (checkpoint.Some? ==> Summarises(messages[1], checkpoint.value.0, checkpoint.value.1))
        && Filtered(history, messages[n..], (m: Message) => !m.role.System?)
    {
      LoadedAreFiltered(history);
      if checkpoint.Some? { SummaryTells(checkpoint.value.0, checkpoint.value.1); }
      var summary := if checkpoint.Some? then [BuildSummary(checkpoint.value.0, checkpoint.value.1)] else [];
      this.prompt := prompt;
      messages := [Plain(Role.System, prompt)] + summary + NonSystem(history);
    }

    method PushMessage(m: Message)
      modifies this
      ensures Abstract() == Step(old(Abstract()), Push(m), estimate)
    {
      messages := messages + [m];
    }
  }
}
