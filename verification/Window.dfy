/**
  The sliding window over a conversation. Token counts are estimated from the length of the JSON text of the
  whole list, rounded up, so the estimate of a list is not the sum of the estimates of its messages.
 */
module Window {
  import opened Filters

  /** `chars` is the length of the message's own JSON text. */
  datatype Message = Message(system: bool, chars: nat, body: string)

  /** Length of the JSON text of a list: brackets, the items, and commas between them. */
  function Chars(ms: seq<Message>): nat {
    if ms == [] then 2 else 1 + ItemChars(ms)
  }

  /** Each item with the comma or closing bracket after it. */
  function ItemChars(ms: seq<Message>): nat {
    if ms == [] then 0 else ms[0].chars + 1 + ItemChars(ms[1..])
  }

  /** Math.ceil(n / 4). */
  function CeilQuarter(n: nat): nat {
    (n + 3) / 4
  }

  function Tokens(ms: seq<Message>): nat {
    CeilQuarter(Chars(ms))
  }

  function System(ms: seq<Message>): seq<Message> {
    if ms == [] then [] else (if ms[0].system then [ms[0]] else []) + System(ms[1..])
  }

  function NonSystem(ms: seq<Message>): seq<Message> {
    if ms == [] then [] else (if ms[0].system then [] else [ms[0]]) + NonSystem(ms[1..])
  }

  /** The running cost the loop keeps: the system messages once, then each kept message by itself. */
  function AdditiveCost(system: seq<Message>, recent: seq<Message>): nat {
    if recent == [] then Tokens(system) else Tokens([recent[0]]) + AdditiveCost(system, recent[1..])
  }

  // ----- the window --------------------------------------------------------------------------

  method SlidingWindowMessages(messages: seq<Message>, budget: nat) returns (out: seq<Message>)
    ensures Tokens(messages) <= budget ==> out == messages
    ensures Tokens(messages) > budget ==>
      var rest := NonSystem(messages);
      exists k :: 0 <= k <= |rest| && out == System(messages) + rest[k..] && KeptFrom(messages, budget, k)
    ensures Tokens(messages) > budget ==> Windows(messages, out)
  {
    if Tokens(messages) <= budget { return messages; }
    var system := System(messages);
    var used := Tokens(system);
    var rest := NonSystem(messages);
    var recent: seq<Message> := [];
    var index := |rest|;
    assert rest[index..] == [];
    while index > 0
      invariant 0 <= index <= |rest| && recent == rest[index..]
      invariant used == AdditiveCost(system, recent)
      invariant |recent| > 1 ==> used <= budget
    {
      var cost := Tokens([rest[index - 1]]);
      assert rest[index - 1..] == [rest[index - 1]] + rest[index..];
      if |recent| > 0 && used + cost > budget { break; }
      index := index - 1;
      recent := [rest[index]] + recent;
      used := used + cost;
    }
    assert KeptFrom(messages, budget, index);
    out := system + recent;
    SplitIsFiltered(messages);
    assert IsWindow(messages, system, rest, index, out);
  }

  /** The system messages, all of them, and then the end of the others, each in their order. */
  ghost predicate IsWindow(messages: seq<Message>, system: seq<Message>, rest: seq<Message>, k: nat, out: seq<Message>) {
    && Filtered(messages, system, (m: Message) => m.system) && Filtered(messages, rest, (m: Message) => !m.system)
    && k <= |rest| && (rest != [] ==> k < |rest|) && out == system + rest[k..]
  }

  ghost predicate Windows(messages: seq<Message>, out: seq<Message>) {
    exists system, rest, k :: IsWindow(messages, system, rest, k, out)
  }

  lemma {:induction false} SplitSnoc(ms: seq<Message>, m: Message)
    ensures System(ms + [m]) == System(ms) + (if m.system then [m] else [])
    ensures NonSystem(ms + [m]) == NonSystem(ms) + (if !m.system then [m] else [])
  {
    assert [m][1..] == [];
    SystemAppend(ms, [m]);
    NonSystemAppend(ms, [m]);
  }

  lemma {:induction false} SplitIsFiltered(ms: seq<Message>)
    ensures Filtered(ms, System(ms), (m: Message) => m.system)
    ensures Filtered(ms, NonSystem(ms), (m: Message) => !m.system)
  {
    var isSystem, isOther := (m: Message) => m.system, (m: Message) => !m.system;
    if ms == [] {
      FilteredNothing(isSystem);
      FilteredNothing(isOther);
    } else {
      var init, last := ms[..|ms| - 1], ms[|ms| - 1];
      SplitIsFiltered(init);
      FilteredSnoc(init, last, System(init), isSystem);
      FilteredSnoc(init, last, NonSystem(init), isOther);
      SplitSnoc(init, last);
      assert init + [last] == ms;
    }
  }

  /**
    The cut the loop makes: what it keeps passes the additive test, at least the newest message is kept, and
    taking one message more fails the test.
   */
  predicate KeptFrom(messages: seq<Message>, budget: nat, k: nat) {
    var system, rest := System(messages), NonSystem(messages);
    && k <= |rest|
    && (rest != [] ==> k < |rest|)
    && (|rest| - k > 1 ==> AdditiveCost(system, rest[k..]) <= budget)
    && (k > 0 ==> AdditiveCost(system, rest[k - 1..]) > budget)
  }

  // ----- rounding ----------------------------------------------------------------------------

  /** The items' texts, separated by commas. */
  function Joined(texts: seq<string>): string {
    if texts == [] then "" else if |texts| == 1 then texts[0] else texts[0] + "," + Joined(texts[1..])
  }

  lemma {:induction false} JoinedLength(ms: seq<Message>, texts: seq<string>)
    requires |texts| == |ms| > 0 && forall i :: 0 <= i < |ms| ==> |texts[i]| == ms[i].chars
    ensures |Joined(texts)| + 1 == ItemChars(ms)
  {
    if |ms| > 1 {
      JoinedLength(ms[1..], texts[1..]);
    } else {
      assert ms[1..] == [];
    }
  }

  /** The estimate is a quarter of the length of the list's JSON text, rounded up. */
  lemma {:induction false} EstimateExactly(ms: seq<Message>, texts: seq<string>)
    requires |texts| == |ms| && forall i :: 0 <= i < |ms| ==> |texts[i]| == ms[i].chars
    ensures var length := |"[" + Joined(texts) + "]"|;
      4 * Tokens(ms) - 4 < length <= 4 * Tokens(ms)
  {
    if ms != [] { JoinedLength(ms, texts); }
  }

  lemma {:induction false} ItemCharsAppend(x: seq<Message>, y: seq<Message>)
    ensures ItemChars(x + y) == ItemChars(x) + ItemChars(y)
  {
    if x == [] {
      assert x + y == y;
    } else {
      assert (x + y)[1..] == x[1..] + y;
      ItemCharsAppend(x[1..], y);
    }
  }

  /** The additive cost counts brackets and rounds per message, so it is never below four quarters of the text. */
  lemma {:induction false} AdditiveCoversText(system: seq<Message>, recent: seq<Message>)
    ensures 4 * AdditiveCost(system, recent) >= Chars(system) + ItemChars(recent) + |recent|
  {
    if recent != [] {
      AdditiveCoversText(system, recent[1..]);
      var newest := [recent[0]];
      assert newest[1..] == [];
      assert ItemChars(newest) == newest[0].chars + 1 + ItemChars(newest[1..]);
    }
  }

  /** Sub-additivity: the rounded estimate of the result never exceeds the cost the loop added up. */
  lemma {:induction false} EstimateIsSubadditive(system: seq<Message>, recent: seq<Message>)
    ensures Tokens(system + recent) <= AdditiveCost(system, recent)
  {
    AdditiveCoversText(system, recent);
    ItemCharsAppend(system, recent);
    if recent == [] { assert system + recent == system; }
    if system == [] { assert system + recent == recent; }
  }

  /** One message more always costs at least one token more. */
  lemma {:induction false} CostGrows(system: seq<Message>, rest: seq<Message>, i: nat, k: nat)
    requires i <= k <= |rest|
    ensures AdditiveCost(system, rest[i..]) >= AdditiveCost(system, rest[k..]) + (k - i)
    decreases k - i
  {
    if i < k {
      assert rest[i..][1..] == rest[i + 1..] && [rest[i]][1..] == [];
      CostGrows(system, rest, i + 1, k);
    }
  }

  /**
    The bound. The window holds the system messages and a suffix of the rest, and fits the budget unless it
    has shrunk to the system messages and the newest message alone.
   */
  lemma {:induction false} WindowFits(messages: seq<Message>, budget: nat, k: nat)
    requires KeptFrom(messages, budget, k)
    ensures var rest := NonSystem(messages);
      Tokens(System(messages) + rest[k..]) <= budget || |rest[k..]| <= 1
  {
    EstimateIsSubadditive(System(messages), NonSystem(messages)[k..]);
  }

  /** Maximality: no longer suffix passes the additive test, so the cut is determined. */
  lemma {:induction false} WindowIsMaximal(messages: seq<Message>, budget: nat, k: nat, longer: nat)
    requires KeptFrom(messages, budget, k) && longer < k
    ensures AdditiveCost(System(messages), NonSystem(messages)[longer..]) > budget
  {
    CostGrows(System(messages), NonSystem(messages), longer, k - 1);
  }

  lemma {:induction false} CutIsUnique(messages: seq<Message>, budget: nat, k: nat, k': nat)
    requires KeptFrom(messages, budget, k) && KeptFrom(messages, budget, k')
    ensures k == k'
  {
    if k < k' {
      WindowIsMaximal(messages, budget, k', k);
    } else if k' < k {
      WindowIsMaximal(messages, budget, k, k');
    }
  }

  lemma {:induction false} SystemAppend(x: seq<Message>, y: seq<Message>)
    ensures System(x + y) == System(x) + System(y)
  {
    if x == [] {
      assert x + y == y && System(x) == [];
    } else {
      assert (x + y)[0] == x[0] && (x + y)[1..] == x[1..] + y;
      SystemAppend(x[1..], y);
    }
  }

  lemma {:induction false} NonSystemAppend(x: seq<Message>, y: seq<Message>)
    ensures NonSystem(x + y) == NonSystem(x) + NonSystem(y)
  {
    if x == [] {
      assert x + y == y && NonSystem(x) == [];
    } else {
      assert (x + y)[0] == x[0] && (x + y)[1..] == x[1..] + y;
      NonSystemAppend(x[1..], y);
    }
  }

  lemma {:induction false} SplitPure(ms: seq<Message>)
    ensures (forall m :: m in ms ==> m.system) ==> System(ms) == ms && NonSystem(ms) == []
    ensures (forall m :: m in ms ==> !m.system) ==> System(ms) == [] && NonSystem(ms) == ms
  {
    if ms != [] {
      assert ms[0] in ms && forall m :: m in ms[1..] ==> m in ms;
      SplitPure(ms[1..]);
      assert ms == [ms[0]] + ms[1..];
    }
  }

  lemma {:induction false} PartsArePure(ms: seq<Message>)
    ensures (forall m :: m in System(ms) ==> m.system) && (forall m :: m in NonSystem(ms) ==> !m.system)
  {
    if ms != [] {
      PartsArePure(ms[1..]);
    }
  }

  /** A window is its own system part followed by its own rest. */
  lemma {:induction false} WindowParts(messages: seq<Message>, k: nat)
    requires k <= |NonSystem(messages)|
    ensures var out := System(messages) + NonSystem(messages)[k..];
      System(out) == System(messages) && NonSystem(out) == NonSystem(messages)[k..]
  {
    var system, recent := System(messages), NonSystem(messages)[k..];
    PartsArePure(messages);
    assert forall m :: m in recent ==> m in NonSystem(messages);
    SystemAppend(system, recent);
    NonSystemAppend(system, recent);
    SplitPure(system);
    SplitPure(recent);
  }

  /** Idempotence: sliding the window over its own result changes nothing. */
  lemma {:induction false} WindowOfWindow(messages: seq<Message>, budget: nat, k: nat, k': nat)
    requires KeptFrom(messages, budget, k)
    requires var out := System(messages) + NonSystem(messages)[k..]; Tokens(out) > budget && KeptFrom(out, budget, k')
    ensures var out := System(messages) + NonSystem(messages)[k..];
      System(out) + NonSystem(out)[k'..] == out
  {
    WindowFits(messages, budget, k);
    WindowParts(messages, k);
  }

  method SlideTwice(messages: seq<Message>, budget: nat) returns (once: seq<Message>, twice: seq<Message>)
    ensures once == twice
  {
    once := SlidingWindowMessages(messages, budget);
    twice := SlidingWindowMessages(once, budget);
    if Tokens(messages) > budget && Tokens(once) > budget {
      var rest := NonSystem(messages);
      ghost var k :| 0 <= k <= |rest| && once == System(messages) + rest[k..] && KeptFrom(messages, budget, k);
      ghost var k' :| 0 <= k' <= |NonSystem(once)| && twice == System(once) + NonSystem(once)[k'..] && KeptFrom(once, budget, k');
      WindowOfWindow(messages, budget, k, k');
    }
  }
}
