/**
  The hash-chained event table and the strictly increasing clock behind it.

  The digest is a parameter. Nothing is assumed of it but what SHA-256 in hexadecimal has by its format;
  where a result needs collision-freedom, it asks for it on the texts actually hashed, and no more.
 */
module EventLog {
  import opened Common

  // ----- the clock ---------------------------------------------------------------------------

  class Clock {
    var last: nat

    constructor ()
      ensures last == 0
    {
      last := 0;
    }

    /** `wall` is what the system clock shows; it may stand still or jump back. */
    method Now(wall: nat) returns (t: nat)
      modifies this
      ensures t == last && t > old(last)
      ensures t == if wall > old(last) then wall else old(last) + 1
    {
      t := if wall <= last then last + 1 else wall;
      last := t;
    }
  }

  // ----- rows --------------------------------------------------------------------------------

  type Digest = string -> string

  datatype Row = Row(
    id: string,
    run: Option<string>,
    kind: string,
    payload: string,
    created: nat,
    previousHash: Option<string>,
    hash: Option<string>)

  /** Fixed-width ISO text sorts as the time it denotes; the model writes it as a fixed-width decimal. */
  function Stamp(t: nat): string {
    if t < 10 then ["0123456789"[t]] else Stamp(t / 10) + ["0123456789"[t % 10]]
  }

  const NEWLINE: char := '\n'

  function Line(s: string): string {
    s + [NEWLINE]
  }

  function Link(previous: Option<string>): string {
    if previous.Some? then previous.value else "GENESIS"
  }

  function RunText(row: Row): string {
    if row.run.Some? then row.run.value else ""
  }

  /** The six fields a hash covers, joined with newlines; a missing run id reads as "". */
  function Covered(previous: Option<string>, row: Row): string {
    Line(Link(previous)) + (Line(row.id) + (Line(RunText(row)) + (Line(row.kind) + (Line(row.payload) + Stamp(row.created)))))
  }

  /** Rows written before hashing was introduced carry no hash. */
  predicate Hashed(row: Row) {
    row.hash.Some? && row.hash.value != ""
  }

  /** Binary text order, in which ids break ties. */
  predicate TextAtMost(s: string, t: string) {
    if s == [] then true
    else if t == [] then false
    else s[0] < t[0] || (s[0] == t[0] && TextAtMost(s[1..], t[1..]))
  }

  /** `order by created_at, id`. */
  predicate Before(a: Row, b: Row) {
    a.created < b.created || (a.created == b.created && TextAtMost(a.id, b.id) && a.id != b.id)
  }

  /** The text is a proper beginning of the other, or its first character that differs is smaller. */
  ghost predicate Precedes(s: string, t: string) {
    s < t || exists k :: DiffersAt(s, t, k) && s[k] < t[k]
  }

  predicate DiffersAt(s: string, t: string, k: int) {
    0 <= k < |s| && k < |t| && s[..k] == t[..k] && s[k] != t[k]
  }

  lemma {:induction false} DiffersShift(s: string, t: string, k: int)
    requires s != [] && t != [] && s[0] == t[0] && k >= 0
    ensures DiffersAt(s[1..], t[1..], k) <==> DiffersAt(s, t, k + 1)
  {
    if k < |s| - 1 && k < |t| - 1 {
      assert s[..k + 1] == [s[0]] + s[1..][..k] && t[..k + 1] == [t[0]] + t[1..][..k];
    }
  }

  lemma {:induction false} PrecedesShift(s: string, t: string)
    requires s != [] && t != [] && s[0] == t[0]
    ensures Precedes(s, t) <==> Precedes(s[1..], t[1..])
  {
    assert s == [s[0]] + s[1..] && t == [t[0]] + t[1..];
    if k :| DiffersAt(s, t, k) && s[k] < t[k] {
      DiffersShift(s, t, k - 1);
    }
    if k :| DiffersAt(s[1..], t[1..], k) && s[1..][k] < t[1..][k] {
      DiffersShift(s, t, k);
    }
  }

  lemma {:induction false} TextOrderExactly(s: string, t: string)
    ensures TextAtMost(s, t) <==> s == t || Precedes(s, t)
  {
    if s != [] && t != [] {
      assert s == [s[0]] + s[1..] && t == [t[0]] + t[1..];
      if s[0] == t[0] {
        TextOrderExactly(s[1..], t[1..]);
        PrecedesShift(s, t);
      } else {
        assert DiffersAt(s, t, 0);
      }
    }
  }

  /** Rows are listed by their instants, and those of one instant by their ids as texts. */
  lemma {:induction false} ListedExactly(a: Row, b: Row)
    ensures Before(a, b) <==> a.created < b.created || (a.created == b.created && Precedes(a.id, b.id))
  {
    TextOrderExactly(a.id, b.id);
    if a.id == b.id { assert forall k :: !DiffersAt(a.id, b.id, k); }
  }

  // ----- the chain ---------------------------------------------------------------------------

  function HashedRows(rows: seq<Row>): seq<Row> {
    if rows == [] then []
    else HashedRows(rows[..|rows| - 1]) + (if Hashed(rows[|rows| - 1]) then [rows[|rows| - 1]] else [])
  }

  /** The hash the k-th hashed row must point back to. */
  function Predecessor(rows: seq<Row>, k: nat): Option<string>
    requires k <= |rows|
  {
    if k == 0 then None else rows[k - 1].hash
  }

  predicate Links(h: Digest, previous: Option<string>, row: Row) {
    row.previousHash == previous && row.hash == Some(h(Covered(previous, row)))
  }

  predicate LinkOk(h: Digest, rows: seq<Row>, k: nat)
    requires k < |rows|
  {
    Links(h, Predecessor(rows, k), rows[k])
  }

  /** A chain: every hashed row points to the one before it and carries the digest of its own fields. */
  predicate Chained(h: Digest, rows: seq<Row>) {
    forall k | 0 <= k < |rows| :: LinkOk(h, rows, k)
  }

  datatype Verdict = Verdict(ok: bool, checked: nat, brokenAt: Option<string>)

  class EventLog {
    /** The table in the order `order by created_at, id` lists it. */
    var rows: seq<Row>

    constructor ()
      ensures rows == []
    {
      rows := [];
    }

    /** Hash of the newest row that has one (`order by created_at desc, id desc limit 1`). */
    method LastHash() returns (last: Option<string>)
      ensures last == NewestHash(rows)
    {
      var k := |rows|;
      assert rows[..k] == rows;
      while k > 0
        invariant 0 <= k <= |rows| && NewestHash(rows) == NewestHash(rows[..k])
      {
        k := k - 1;
        assert rows[..k + 1][..k] == rows[..k];
        if rows[k].hash.Some? { return rows[k].hash; }
      }
      last := None;
    }

    /** Inserting a row and listing the table again puts it at its place in the order. */
    method Append(h: Digest, id: string, run: Option<string>, kind: string, payload: string, created: nat)
      modifies this
      ensures rows == Inserted(old(rows), NewRow(h, old(rows), id, run, kind, payload, created))
    {
      var previous := LastHash();
      var row := Row(id, run, kind, payload, created, previous, None);
      row := row.(hash := Some(h(Covered(previous, row))));
      var k := |rows|;
      assert rows[..k] == rows && rows[k..] == [];
      while k > 0 && Before(row, rows[k - 1])
        invariant 0 <= k <= |rows| && rows == old(rows)
        invariant Inserted(rows, row) == Inserted(rows[..k], row) + rows[k..]
      {
        InsertedShift(rows, row, k);
        k := k - 1;
      }
      InsertedLast(rows[..k], row);
      rows := rows[..k] + [row] + rows[k..];
    }

    /** Walks the table; stops at the first hashed row that does not continue the chain. */
    method VerifyChain(h: Digest) returns (v: Verdict)
      ensures v.ok <==> Chained(h, HashedRows(rows))
      ensures v.ok ==> v == Verdict(true, |HashedRows(rows)|, None)
      ensures !v.ok ==>
        var hs := HashedRows(rows);
        && v.checked < |hs| && Chained(h, hs[..v.checked]) && !LinkOk(h, hs, v.checked)
        && v.brokenAt == Some(hs[v.checked].id)
    {
      var previous: Option<string> := None;
      var checked := 0;
      for i := 0 to |rows|
        invariant Chained(h, HashedRows(rows[..i])) && checked == |HashedRows(rows[..i])|
        invariant previous == Predecessor(HashedRows(rows[..i]), checked)
      {
        WalkStep(h, rows, i);
        if Hashed(rows[i]) {
          if !Links(h, previous, rows[i]) { return Verdict(false, checked, Some(rows[i].id)); }
          previous := rows[i].hash;
          checked := checked + 1;
        }
      }
      assert rows[..|rows|] == rows;
      v := Verdict(true, checked, None);
    }
  }

  lemma {:induction false} HashedNext(rows: seq<Row>, i: nat)
    requires i < |rows|
    ensures HashedRows(rows[..i + 1]) == HashedRows(rows[..i]) + (if Hashed(rows[i]) then [rows[i]] else [])
  {
    assert rows[..i + 1][..i] == rows[..i];
  }

  /** One row of the walk: it is skipped, extends the chain, or is the first break. */
  lemma {:induction false} WalkStep(h: Digest, rows: seq<Row>, i: nat)
    requires i < |rows| && Chained(h, HashedRows(rows[..i]))
    ensures var hs := HashedRows(rows[..i]);
      var hs' := HashedRows(rows[..i + 1]);
      && (!Hashed(rows[i]) ==> hs' == hs)
      && (Hashed(rows[i]) && Links(h, Predecessor(hs, |hs|), rows[i]) ==>
          Chained(h, hs') && |hs'| == |hs| + 1 && Predecessor(hs', |hs'|) == rows[i].hash)
      && (Hashed(rows[i]) && !Links(h, Predecessor(hs, |hs|), rows[i]) ==>
          var all := HashedRows(rows);
          |hs| < |all| && all[..|hs|] == hs && all[|hs|] == rows[i] && !LinkOk(h, all, |hs|) && !Chained(h, all))
  {
    var hs := HashedRows(rows[..i]);
    HashedNext(rows, i);
    if Hashed(rows[i]) {
      ChainSnoc(h, hs, rows[i]);
      if !Links(h, Predecessor(hs, |hs|), rows[i]) {
        HashedPrefix(rows, i + 1);
        BreakStays(h, hs + [rows[i]], HashedRows(rows));
      }
    } else {
      assert hs + [] == hs;
    }
  }

  lemma {:induction false} ChainSnoc(h: Digest, rows: seq<Row>, row: Row)
    ensures LinkOk(h, rows + [row], |rows|) <==> Links(h, Predecessor(rows, |rows|), row)
    ensures Predecessor(rows + [row], |rows| + 1) == row.hash
    ensures Chained(h, rows + [row]) <==> Chained(h, rows) && LinkOk(h, rows + [row], |rows|)
  {
    var longer := rows + [row];
    assert Predecessor(longer, |rows|) == Predecessor(rows, |rows|);
    forall k | 0 <= k < |rows| ensures LinkOk(h, longer, k) <==> LinkOk(h, rows, k) {
      assert longer[k] == rows[k] && Predecessor(longer, k) == Predecessor(rows, k);
    }
  }

  /** A break at the end of a prefix is the first break of the whole list. */
  lemma {:induction false} BreakStays(h: Digest, prefix: seq<Row>, rows: seq<Row>)
    requires prefix != [] && prefix <= rows && Chained(h, prefix[..|prefix| - 1]) && !LinkOk(h, prefix, |prefix| - 1)
    ensures var k := |prefix| - 1; !LinkOk(h, rows, k) && !Chained(h, rows) && rows[..k] == prefix[..k]
  {
  }

  function NewestHash(rows: seq<Row>): Option<string> {
    if rows == [] then None
    else if rows[|rows| - 1].hash.Some? then rows[|rows| - 1].hash
    else NewestHash(rows[..|rows| - 1])
  }

  function NewRow(h: Digest, rows: seq<Row>, id: string, run: Option<string>, kind: string, payload: string, created: nat): Row {
    var row := Row(id, run, kind, payload, created, NewestHash(rows), None);
    row.(hash := Some(h(Covered(NewestHash(rows), row))))
  }

  function Inserted(rows: seq<Row>, row: Row): seq<Row> {
    if rows == [] || !Before(row, rows[|rows| - 1]) then rows + [row]
    else Inserted(rows[..|rows| - 1], row) + [rows[|rows| - 1]]
  }

  lemma {:induction false} InsertedShift(rows: seq<Row>, row: Row, k: nat)
    requires 0 < k <= |rows| && Before(row, rows[k - 1])
    ensures Inserted(rows[..k], row) + rows[k..] == Inserted(rows[..k - 1], row) + rows[k - 1..]
  {
    assert rows[..k][..k - 1] == rows[..k - 1];
    assert rows[k - 1..] == [rows[k - 1]] + rows[k..];
  }

  lemma {:induction false} HashedPrefix(rows: seq<Row>, i: nat)
    requires i <= |rows|
    ensures HashedRows(rows[..i]) <= HashedRows(rows)
    decreases |rows| - i
  {
    if i == |rows| {
      assert rows[..i] == rows;
    } else {
      assert rows[..i + 1][..i] == rows[..i];
      HashedPrefix(rows, i + 1);
    }
  }

  // ----- every append keeps the chain, unless time goes backwards -----------------------------

  /** The digest is text that is never empty, never "GENESIS" and never contains a newline. */
  ghost predicate HexDigest(h: Digest) {
    forall s :: h(s) != "" && h(s) != "GENESIS" && NEWLINE !in h(s)
  }

  lemma {:induction false} HashedAppend(x: seq<Row>, y: seq<Row>)
    ensures HashedRows(x + y) == HashedRows(x) + HashedRows(y)
  {
    if y == [] {
      assert x + y == x;
    } else {
      assert (x + y)[..|x + y| - 1] == x + y[..|y| - 1];
      HashedAppend(x, y[..|y| - 1]);
    }
  }

  /** With every row either fully hashed or not at all, the newest hash is that of the last hashed row. */
  lemma {:induction false} NewestIsLast(rows: seq<Row>)
    requires HashedOrNot(rows)
    ensures NewestHash(rows) == Predecessor(HashedRows(rows), |HashedRows(rows)|)
  {
    if rows != [] {
      NewestIsLast(rows[..|rows| - 1]);
    }
  }

  lemma {:induction false} InsertedLast(rows: seq<Row>, row: Row)
    requires rows == [] || !Before(row, rows[|rows| - 1])
    ensures Inserted(rows, row) == rows + [row]
  {
  }

  /** An append that is not earlier than the newest row extends a chain by one checked row. */
  lemma {:induction false} AppendExtends(h: Digest, rows: seq<Row>, id: string, run: Option<string>,
      kind: string, payload: string, created: nat)
    requires HexDigest(h) && Chained(h, HashedRows(rows))
    requires HashedOrNot(rows)
    requires var row := NewRow(h, rows, id, run, kind, payload, created); rows == [] || !Before(row, rows[|rows| - 1])
    ensures var row := NewRow(h, rows, id, run, kind, payload, created);
      var rows' := Inserted(rows, row);
      && rows' == rows + [row] && HashedRows(rows') == HashedRows(rows) + [row] && Chained(h, HashedRows(rows'))
  {
    var row := NewRow(h, rows, id, run, kind, payload, created);
    InsertedLast(rows, row);
    HashedAppend(rows, [row]);
    assert HashedRows([row]) == [row];
    NewestIsLast(rows);
    assert Covered(NewestHash(rows), row) == Covered(NewestHash(rows), row.(hash := None));
    ChainSnoc(h, HashedRows(rows), row);
  }

  datatype Entry = Entry(id: string, run: Option<string>, kind: string, payload: string, created: nat)

  /** A history of appends to a table. */
  function Journal(h: Digest, before: seq<Row>, entries: seq<Entry>): seq<Row> {
    if entries == [] then before
    else
      var e := entries[|entries| - 1];
      var rows := Journal(h, before, entries[..|entries| - 1]);
      Inserted(rows, NewRow(h, rows, e.id, e.run, e.kind, e.payload, e.created))
  }

  /** No row has an empty hash; rows older than hashing have none at all. */
  ghost predicate HashedOrNot(rows: seq<Row>) {
    forall k :: 0 <= k < |rows| && rows[k].hash.Some? ==> Hashed(rows[k])
  }

  predicate TimesIncrease(entries: seq<Entry>) {
    if |entries| < 2 then true
    else
      var n := |entries| - 1;
      entries[n - 1].created < entries[n].created && TimesIncrease(entries[..n])
  }

  /** The first new timestamp lies beyond the newest row's. */
  predicate StartsLater(rows: seq<Row>, entries: seq<Entry>) {
    rows != [] && entries != [] ==> rows[|rows| - 1].created < entries[0].created
  }

  lemma {:induction false} LaterAppendVerifies(h: Digest, rows: seq<Row>, e: Entry)
    requires HexDigest(h) && HashedOrNot(rows) && Chained(h, HashedRows(rows))
    requires rows != [] ==> rows[|rows| - 1].created < e.created
    ensures var row := NewRow(h, rows, e.id, e.run, e.kind, e.payload, e.created);
      var rows' := Inserted(rows, row);
      && rows' == rows + [row] && row.created == e.created && HashedOrNot(rows')
      && HashedRows(rows') == HashedRows(rows) + [row] && Chained(h, HashedRows(rows'))
  {
    AppendExtends(h, rows, e.id, e.run, e.kind, e.payload, e.created);
  }

  /** The old rows as they were, `n` new ones behind them, and all of it verified. */
  ghost predicate Extended(h: Digest, before: seq<Row>, rows: seq<Row>, n: nat) {
    && before <= rows && |rows| == |before| + n && HashedOrNot(rows)
    && |HashedRows(rows)| == |HashedRows(before)| + n && Chained(h, HashedRows(rows))
  }

  lemma {:induction false} ExtendedNext(h: Digest, before: seq<Row>, rows: seq<Row>, n: nat, e: Entry)
    requires HexDigest(h) && Extended(h, before, rows, n)
    requires rows != [] ==> rows[|rows| - 1].created < e.created
    ensures var rows' := Inserted(rows, NewRow(h, rows, e.id, e.run, e.kind, e.payload, e.created));
      Extended(h, before, rows', n + 1) && rows'[|rows'| - 1].created == e.created
  {
    LaterAppendVerifies(h, rows, e);
  }

  /**
    Under strictly increasing timestamps, which is what the clock hands out, and beginning beyond the newest row,
    appends to a log that verifies keep it so, old rows without a hash among them or not: the old rows stay as
    they are, and every appended row is checked besides those that were.
   */
  lemma {:induction false} AppendsVerify(h: Digest, before: seq<Row>, entries: seq<Entry>)
    requires HexDigest(h) && HashedOrNot(before) && Chained(h, HashedRows(before))
    requires TimesIncrease(entries) && StartsLater(before, entries)
    ensures var rows := Journal(h, before, entries);
      Extended(h, before, rows, |entries|)
      && (entries != [] ==> rows[|rows| - 1].created == entries[|entries| - 1].created)
  {
    if entries != [] {
      var init, e := entries[..|entries| - 1], entries[|entries| - 1];
      AppendsVerify(h, before, init);
      ExtendedNext(h, before, Journal(h, before, init), |init|, e);
    }
  }
}
