/** Redacting secrets for the settings screens, and merging an edited copy back into the configuration. */
module Secrets {
  datatype Prim = Null | Bool(b: bool) | Num(n: int) | Text(s: string)

  /** A JSON tree. An array is a node whose keys are its indices, the way `Object.entries` shows it. */
  datatype Tree = Leaf(value: Prim) | Node(isArray: bool, fields: map<string, Tree>)

  const MARKER := "***configured***"

  // ----- secret keys -------------------------------------------------------------------------

  function Lower(c: char): char {
    if 'A' <= c <= 'Z' then c - 'A' + 'a' else c
  }

  predicate StartsWithFolded(word: string, text: string) {
    |word| <= |text| && forall i | 0 <= i < |word| :: Lower(word[i]) == Lower(text[i])
  }

  predicate Contains(word: string, text: string) {
    exists i | 0 <= i <= |text| :: StartsWithFolded(word, text[i..])
  }

  /** The case-insensitive search for `apiKey`, `token` or `secret`. */
  predicate SecretKey(key: string) {
    Contains("apiKey", key) || Contains("token", key) || Contains("secret", key)
  }

  /** The word is spelled there, each letter small or capital. */
  predicate Spelled(small: string, capital: string, text: string, at: nat)
    requires |small| == |capital|
  {
    at + |small| <= |text| && forall i | 0 <= i < |small| :: text[at + i] == small[i] || text[at + i] == capital[i]
  }

  predicate SpelledIn(small: string, capital: string, text: string)
    requires |small| == |capital|
  {
    exists at | 0 <= at <= |text| :: Spelled(small, capital, text, at)
  }

  /** The key spells one of the three words somewhere, each letter small or capital. */
  predicate NamesSecret(key: string) {
    SpelledIn("apikey", "APIKEY", key) || SpelledIn("token", "TOKEN", key) || SpelledIn("secret", "SECRET", key)
  }

  lemma {:induction false} FoldedExactly(word: string, small: string, capital: string, text: string)
    requires |word| == |small| == |capital|
    requires forall i | 0 <= i < |word| ::
      'a' <= small[i] <= 'z' && capital[i] == small[i] - 'a' + 'A' && (word[i] == small[i] || word[i] == capital[i])
    ensures Contains(word, text) <==> SpelledIn(small, capital, text)
  {
    forall at: nat | at <= |text|
      ensures StartsWithFolded(word, text[at..]) <==> Spelled(small, capital, text, at)
    {
      if at + |word| <= |text| {
        assert forall i | 0 <= i < |word| :: text[at..][i] == text[at + i];
      }
    }
  }

  /** A key is secret exactly when it names a secret. */
  lemma {:induction false} SecretKeyExactly(key: string)
    ensures SecretKey(key) <==> NamesSecret(key)
  {
    FoldedExactly("apiKey", "apikey", "APIKEY", key);
    FoldedExactly("token", "token", "TOKEN", key);
    FoldedExactly("secret", "secret", "SECRET", key);
  }

  // ----- specification -----------------------------------------------------------------------

  function RedactChild(key: string, child: Tree): Tree
    decreases child, 1
  {
    if SecretKey(key) && child.Leaf? && child.value.Text?
    then Leaf(Text(if child.value.s == "" then "" else MARKER))
    else Redact(child)
  }

  function Redact(x: Tree): (r: Tree)
    ensures r.Node? <==> x.Node?
    ensures r.Node? ==> r.isArray == x.isArray && r.fields.Keys == x.fields.Keys
    decreases x, 0
  {
    if x.Leaf? then x else Node(x.isArray, map k | k in x.fields :: RedactChild(k, x.fields[k]))
  }

  predicate Keeps(key: string, value: Tree) {
    SecretKey(key) && value == Leaf(Text(MARKER))
  }

  function MergeField(current: map<string, Tree>, key: string, value: Tree): Tree
    requires key in current || !Keeps(key, value)
    decreases value, 1
  {
    if Keeps(key, value) then current[key]
    else if value.Node? && key in current && current[key].Node? then Merge(current[key], value)
    else value
  }

  function Merge(current: Tree, update: Tree): Tree
    decreases update, 0
  {
    if update.Leaf? || current.Leaf? then update
    else
      Node(current.isArray,
           map k | k in current.fields.Keys + update.fields.Keys && (k in current.fields || !Keeps(k, update.fields[k])) ::
             if k in update.fields then MergeField(current.fields, k, update.fields[k]) else current.fields[k])
  }

  // ----- the two operations ------------------------------------------------------------------

  method MergePreservingSecrets(current: Tree, update: Tree) returns (result: Tree)
    ensures result == Merge(current, update)
    decreases update
  {
    if update.Leaf? || current.Leaf? { return update; }
    var fields := current.fields;
    var pending := update.fields.Keys;
    while pending != {}
      invariant pending <= update.fields.Keys
      invariant forall k :: k in fields <==>
        k in current.fields || (k in update.fields.Keys - pending && !Keeps(k, update.fields[k]))
      invariant forall k :: k in fields ==>
        fields[k] == if k in update.fields.Keys - pending then MergeField(current.fields, k, update.fields[k]) else current.fields[k]
    {
      var key :| key in pending;
      pending := pending - {key};
      var value := update.fields[key];
      if SecretKey(key) && value == Leaf(Text(MARKER)) { continue; }
      if value.Node? && key in fields && fields[key].Node? {
        value := MergePreservingSecrets(fields[key], value);
      }
      fields := fields[key := value];
    }
    result := Node(current.isArray, fields);
  }

  method RedactSecrets(value: Tree) returns (clone: Tree)
    ensures clone == Redact(value)
    decreases value
  {
    if value.Leaf? { return value; }
    var fields := value.fields;
    var pending := value.fields.Keys;
    while pending != {}
      invariant pending <= value.fields.Keys == fields.Keys
      invariant forall k :: k in fields ==>
        fields[k] == if k in pending then value.fields[k] else RedactChild(k, value.fields[k])
    {
      var key :| key in pending;
      pending := pending - {key};
      var child := fields[key];
      if SecretKey(key) && child.Leaf? && child.value.Text? {
        child := Leaf(Text(if child.value.s != "" then MARKER else ""));
      } else {
        child := RedactSecrets(child);
      }
      fields := fields[key := child];
    }
    clone := Node(value.isArray, fields);
  }

  // ----- the round trip ----------------------------------------------------------------------

  lemma {:induction false} FieldRoundTrip(current: map<string, Tree>, key: string)
    requires key in current
    ensures MergeField(current, key, RedactChild(key, current[key])) == current[key]
    decreases current[key], 1
  {
    if current[key].Node? {
      RoundTrip(current[key]);
    }
  }

  /** Merging the redacted copy back changes nothing. */
  lemma {:induction false} RoundTrip(x: Tree)
    ensures Merge(x, Redact(x)) == x
    decreases x, 0
  {
    if x.Node? {
      forall k | k in x.fields
        ensures MergeField(x.fields, k, RedactChild(k, x.fields[k])) == x.fields[k]
      {
        FieldRoundTrip(x.fields, k);
      }
      assert Merge(x, Redact(x)).fields == x.fields;
    }
  }

  /** There is a primitive at the end of the path. */
  predicate LeadsToLeaf(x: Tree, path: seq<string>)
    decreases |path|
  {
    if path == [] then x.Leaf? else x.Node? && path[0] in x.fields && LeadsToLeaf(x.fields[path[0]], path[1..])
  }

  /** The tree with the primitive at the end of the path replaced, and nothing else. */
  function Edit(x: Tree, path: seq<string>, value: Prim): Tree
    requires LeadsToLeaf(x, path)
    decreases |path|
  {
    if path == [] then Leaf(value)
    else x.(fields := x.fields[path[0] := Edit(x.fields[path[0]], path[1..], value)])
  }

  lemma {:induction false} RedactKeepsPaths(x: Tree, path: seq<string>)
    requires LeadsToLeaf(x, path)
    ensures LeadsToLeaf(Redact(x), path)
    decreases |path|
  {
    if path != [] {
      RedactKeepsPaths(x.fields[path[0]], path[1..]);
    }
  }

  /** Fields the update left redacted merge back to what they were. */
  lemma {:induction false} MergeOtherFields(x: Tree, update: Tree, key: string)
    requires x.Node? && update.Node? && key in x.fields && update.fields.Keys == x.fields.Keys
    requires forall k :: k in x.fields && k != key ==> update.fields[k] == RedactChild(k, x.fields[k])
    ensures Merge(x, update) == Node(x.isArray, x.fields[key := MergeField(x.fields, key, update.fields[key])])
  {
    forall k | k in x.fields && k != key
      ensures MergeField(x.fields, k, update.fields[k]) == x.fields[k]
    {
      FieldRoundTrip(x.fields, k);
    }
    var merged := Merge(x, update).fields;
    var expected := x.fields[key := MergeField(x.fields, key, update.fields[key])];
    assert merged.Keys == expected.Keys;
    assert forall k :: k in merged ==> merged[k] == expected[k];
  }

  /**
    Editing one primitive of the redacted copy and merging changes that primitive and nothing else, be it a
    secret or not; the one exception is typing the marker itself under a secret key, which changes nothing.
   */
  lemma {:induction false} OneEdit(x: Tree, path: seq<string>, value: Prim)
    requires LeadsToLeaf(x, path)
    ensures LeadsToLeaf(Redact(x), path)
    ensures Merge(x, Edit(Redact(x), path, value)) ==
      if path != [] && NamesSecret(path[|path| - 1]) && value == Text("***configured***") then x
      else Edit(x, path, value)
    decreases |path|
  {
    RedactKeepsPaths(x, path);
    if path != [] {
      SecretKeyExactly(path[|path| - 1]);
      var key, rest := path[0], path[1..];
      MergeOtherFields(x, Edit(Redact(x), path, value), key);
      if rest == [] {
        assert path[|path| - 1] == key;
        assert x.fields[key := x.fields[key]] == x.fields;
      } else {
        assert rest[|rest| - 1] == path[|path| - 1];
        OneEdit(x.fields[key], rest, value);
        assert x.fields[key := x.fields[key]] == x.fields;
      }
    }
  }

  /** A field removed from the copy comes back: merging never deletes. */
  lemma {:induction false} RemovalIsUndone(x: Tree, key: string)
    requires x.Node?
    ensures Merge(x, Node(x.isArray, Redact(x).fields - {key})) == x
  {
    var update := Node(x.isArray, Redact(x).fields - {key});
    forall k | k in x.fields && k != key
      ensures update.fields[k] == RedactChild(k, x.fields[k])
      ensures MergeField(x.fields, k, update.fields[k]) == x.fields[k]
    {
      FieldRoundTrip(x.fields, k);
    }
    assert Merge(x, update).fields == x.fields;
  }

  // ----- what the redacted copy reveals ------------------------------------------------------

  /** The primitive at the end of the path. */
  function At(x: Tree, path: seq<string>): Prim
    requires LeadsToLeaf(x, path)
    decreases |path|
  {
    if path == [] then x.value else At(x.fields[path[0]], path[1..])
  }

  lemma {:induction false} LeafShows(key: string, child: Tree)
    requires child.Leaf?
    ensures RedactChild(key, child) ==
      if NamesSecret(key) && child.value.Text? && child.value.s != "" then Leaf(Text("***configured***")) else child
  {
    SecretKeyExactly(key);
  }

  /** The redacted copy has the marker in place of every non-empty text under a secret key, and all else as it was. */
  lemma {:induction false} HidesExactly(x: Tree, path: seq<string>)
    requires LeadsToLeaf(x, path)
    ensures LeadsToLeaf(Redact(x), path)
    ensures At(Redact(x), path) ==
      if path != [] && NamesSecret(path[|path| - 1]) && At(x, path).Text? && At(x, path).s != ""
      then Text("***configured***") else At(x, path)
    decreases |path|
  {
    RedactKeepsPaths(x, path);
    if path != [] {
      var key, rest := path[0], path[1..];
      if rest == [] {
        LeafShows(key, x.fields[key]);
        assert path[|path| - 1] == key && At(x, path) == At(x.fields[key], rest);
        assert At(Redact(x), path) == At(RedactChild(key, x.fields[key]), rest);
      } else {
        assert rest[|rest| - 1] == path[|path| - 1];
        HidesExactly(x.fields[key], rest);
      }
    }
  }

  predicate AlikeChild(key: string, x: Tree, y: Tree)
    decreases x, 1
  {
    if NamesSecret(key) && x.Leaf? && x.value.Text?
    then y.Leaf? && y.value.Text? && (x.value.s == "" <==> y.value.s == "")
    else !(NamesSecret(key) && y.Leaf? && y.value.Text?) && Alike(x, y)
  }

  /** Equal but for the texts of secrets, which agree only in being empty or not. */
  predicate Alike(x: Tree, y: Tree)
    decreases x, 0
  {
    if x.Leaf? then x == y
    else
      && y.Node? && x.isArray == y.isArray && x.fields.Keys == y.fields.Keys
      && forall k | k in x.fields :: AlikeChild(k, x.fields[k], y.fields[k])
  }

  lemma {:induction false} ChildRevealsPresence(key: string, x: Tree, y: Tree)
    ensures RedactChild(key, x) == RedactChild(key, y) <==> AlikeChild(key, x, y)
    decreases x, 1
  {
    SecretKeyExactly(key);
    RevealsOnlyPresence(x, y);
  }

  /** Two configurations have the same redacted copy exactly when they differ in non-empty secrets only. */
  lemma {:induction false} RevealsOnlyPresence(x: Tree, y: Tree)
    ensures Redact(x) == Redact(y) <==> Alike(x, y)
    decreases x, 0
  {
    if x.Node? && y.Node? && x.fields.Keys == y.fields.Keys {
      forall k | k in x.fields
        ensures RedactChild(k, x.fields[k]) == RedactChild(k, y.fields[k]) <==> AlikeChild(k, x.fields[k], y.fields[k])
      {
        ChildRevealsPresence(k, x.fields[k], y.fields[k]);
      }
      if Redact(x) == Redact(y) {
        forall k | k in x.fields
          ensures AlikeChild(k, x.fields[k], y.fields[k])
        {
          assert Redact(x).fields[k] == Redact(y).fields[k];
        }
      }
      if Alike(x, y) {
        assert Redact(x).fields == Redact(y).fields;
      }
    } else if x.Node? && y.Node? {
      assert Redact(x).fields.Keys == x.fields.Keys && Redact(y).fields.Keys == y.fields.Keys;
    }
  }
}
