/**
 * The wallet key record: two optional strings, filled with fixed prefixes,
 * written to a file as two newline-separated lines and read back with
 * `readlines()`. The file is modelled by its contents, `None` when it cannot
 * be opened; the two random identifiers are parameters.
 */
module Wallet {
  import opened Wrappers

  /** The two fields of a wallet, as a value. */
  datatype Keys = Keys(publicKey: Option<string>, privateKey: Option<string>)

  const PrivatePrefix: string := "private_key_"
  const PublicPrefix: string := "public_key_"

  /** Python's `s[:-1]`: everything but the last character, "" for "". */
  function DropLast(s: string): (r: string)
    ensures s != [] ==> s == r + [s[|s| - 1]]
    ensures s == [] ==> r == []
  {
    if s == [] then [] else s[..|s| - 1]
  }

  /** The text as a file opened for reading in text mode delivers it: each
      `\r\n` and each remaining `\r` reads as `\n`. */
  function UniversalNewlines(s: string): (t: string)
    ensures '\r' !in t
    ensures '\r' !in s ==> t == s
  {
    if s == [] then []
    else if s[0] == '\r' then
      if |s| > 1 && s[1] == '\n' then "\n" + UniversalNewlines(s[2..])
      else "\n" + UniversalNewlines(s[1..])
    else [s[0]] + UniversalNewlines(s[1..])
  }

  /** The length of the first line of a non-empty text: up to and including
      its first newline, or the whole text when it has none. */
  function LineEnd(s: string): (n: nat)
    requires s != []
    ensures 0 < n <= |s|
    ensures n < |s| ==> s[n - 1] == '\n'
    ensures forall k :: 0 <= k < n - 1 ==> s[k] != '\n'
  {
    if s[0] == '\n' || |s| == 1 then 1 else 1 + LineEnd(s[1..])
  }

  /** Concatenation of a sequence of lines. */
  function Join(lines: seq<string>): string
  {
    if lines == [] then [] else lines[0] + Join(lines[1..])
  }

  /** What `readlines()` returns: the text cut after every newline, each line
      keeping its newline, the last one without it when the text does not end
      in one. */
  function ReadLines(s: string): (lines: seq<string>)
    ensures Join(lines) == s
    ensures forall k :: 0 <= k < |lines| ==> lines[k] != []
    ensures forall k :: 0 <= k < |lines| - 1 ==> lines[k][|lines[k]| - 1] == '\n'
    ensures forall k, m :: 0 <= k < |lines| && 0 <= m < |lines[k]| - 1 ==> lines[k][m] != '\n'
    decreases |s|
  {
    if s == [] then []
    else
      var n := LineEnd(s);
      var rest := ReadLines(s[n..]);
      var lines := [s[..n]] + rest;
      assert lines[1..] == rest && s[..n] + s[n..] == s;
      assert forall k :: 1 <= k < |lines| ==> lines[k] == rest[k - 1];
      lines
  }

  /** What `save_keys` writes: nothing unless both keys are set, otherwise the
      public key, a newline and the private key. */
  function SaveContent(k: Keys): (file: Option<string>)
    ensures file.Some? <==> k.publicKey.Some? && k.privateKey.Some?
    ensures file.Some? ==> file.value == k.publicKey.value + "\n" + k.privateKey.value
  {
    if k.publicKey.Some? && k.privateKey.Some? then
      Some(k.publicKey.value + "\n" + k.privateKey.value)
    else None
  }

  /** What `load_keys` does to the keys, and whether it finished without
      printing the failure message. The public key is assigned before the
      second line is indexed, so a one-line file updates only the public key. */
  function Load(k: Keys, file: Option<string>): (Keys, bool)
  {
    if file.None? then (k, false)
    else
      var lines := ReadLines(UniversalNewlines(file.value));
      if |lines| == 0 then (k, false)
      else
        var k' := k.(publicKey := Some(DropLast(lines[0])));
        if |lines| == 1 then (k', false)
        else (k'.(privateKey := Some(lines[1])), true)
  }

  class Wallet {
    var privateKey: Option<string>
    var publicKey: Option<string>

    function State(): Keys
      reads this
    {
      Keys(publicKey, privateKey)
    }

    /** `__init__`: both keys unset. */
    constructor ()
      ensures privateKey == None && publicKey == None
    {
      privateKey := None;
      publicKey := None;
    }

    /** `create_keys`, with the two `uuid4()` strings passed in, in the order they are drawn. */
    method CreateKeys(id1: string, id2: string)
      modifies this
      ensures privateKey == Some(PrivatePrefix + id1)
      ensures publicKey == Some(PublicPrefix + id2)
    {
      privateKey := Some(PrivatePrefix + id1);
      publicKey := Some(PublicPrefix + id2);
    }

    /** `save_keys`: the contents written to the file, `None` when nothing is written. */
    method SaveKeys() returns (written: Option<string>)
      ensures written == SaveContent(State())
    {
      if publicKey != None && privateKey != None {
        written := Some(publicKey.value + "\n" + privateKey.value);
      } else {
        written := None;
      }
    }

    /** `load_keys` on the file's contents (`None` when it cannot be opened);
        `ok` is false exactly when the failure message is printed. */
    method LoadKeys(file: Option<string>) returns (ok: bool)
      modifies this
      ensures (State(), ok) == Load(old(State()), file)
    {
      ok := false;
      if file.Some? {
        var keys := ReadLines(UniversalNewlines(file.value));
        if |keys| > 0 {
          publicKey := Some(DropLast(keys[0]));
          if |keys| > 1 {
            privateKey := Some(keys[1]);
            ok := true;
          }
        }
      }
    }
  }

  /** A text with no newline is a single line. */
  lemma ReadLinesNoNewline(s: string)
    requires s != [] && '\n' !in s
    ensures ReadLines(s) == [s]
  {
    var n := LineEnd(s);
    assert s[..n] == s && s[n..] == [];
  }

  /** A line without a newline, followed by one, is the first line read. */
  lemma ReadLinesCons(a: string, rest: string)
    requires '\n' !in a
    ensures ReadLines(a + "\n" + rest) == [a + "\n"] + ReadLines(rest)
  {
    var s := a + "\n" + rest;
    assert forall k :: 0 <= k < |a| ==> s[k] == a[k];
    assert s[|a|] == '\n';
    assert LineEnd(s) == |a| + 1;
    assert s[..|a| + 1] == a + "\n";
    assert s[|a| + 1..] == rest;
  }

  /** A saved file of two newline-free keys reads back as exactly two lines. */
  lemma ReadLinesOfSaved(pub: string, priv: string)
    requires '\n' !in pub && '\n' !in priv && priv != []
    ensures ReadLines(pub + "\n" + priv) == [pub + "\n", priv]
  {
    ReadLinesCons(pub, priv);
    ReadLinesNoNewline(priv);
  }

  /** Round trip: loading what `save_keys` wrote restores both keys, whatever
      the loading wallet held before, provided neither key contains a line
      break (`\n` or `\r`) and the private key is not empty. */
  lemma SaveLoadRoundTrip(k: Keys, before: Keys)
    requires k.publicKey.Some? && k.privateKey.Some?
    requires '\n' !in k.publicKey.value && '\n' !in k.privateKey.value
    requires '\r' !in k.publicKey.value && '\r' !in k.privateKey.value
    requires k.privateKey.value != []
    ensures Load(before, SaveContent(k)) == (k, true)
  {
    assert '\r' !in k.publicKey.value + "\n" + k.privateKey.value;
    ReadLinesOfSaved(k.publicKey.value, k.privateKey.value);
    assert DropLast(k.publicKey.value + "\n") == k.publicKey.value;
  }

  /** An empty file, or none at all, leaves both keys unchanged. */
  lemma LoadEmptyKeepsKeys(k: Keys, file: Option<string>)
    requires file.None? || file.value == []
    ensures Load(k, file) == (k, false)
  {
  }

  /** A file that reads as a non-empty text with no line break before its last
      character has one line: the public key becomes that line without its
      last character, and the private key keeps its old value. */
  lemma LoadOneLinePartial(k: Keys, s: string)
    requires UniversalNewlines(s) != []
    requires '\n' !in UniversalNewlines(s)[..|UniversalNewlines(s)| - 1]
    ensures Load(k, Some(s)) == (Keys(Some(DropLast(UniversalNewlines(s))), k.privateKey), false)
  {
    var t := UniversalNewlines(s);
    assert forall m :: 0 <= m < |t| - 1 ==> t[m] == t[..|t| - 1][m];
    assert LineEnd(t) == |t|;
    assert t[..|t|] == t && t[|t|..] == [];
  }

  /** The round trip needs a non-empty private key: the saved text then ends in
      its newline, reads back as one line, and the private key is not restored. */
  lemma EmptyPrivateKeyNotRestored(pub: string, before: Keys)
    requires '\n' !in pub && '\r' !in pub
    ensures Load(before, SaveContent(Keys(Some(pub), Some("")))) == (Keys(Some(pub), before.privateKey), false)
  {
    var s := pub + "\n" + "";
    assert '\r' !in s;
    assert s[..|s| - 1] == pub;
    LoadOneLinePartial(before, s);
  }

  /** A wallet missing either key writes nothing. */
  lemma SaveNeedsBothKeys(k: Keys)
    requires k.publicKey.None? || k.privateKey.None?
    ensures SaveContent(k) == None
  {
  }

  /** Keys made by `create_keys` from identifiers without line breaks survive a save and a load. */
  lemma CreatedKeysRoundTrip(id1: string, id2: string, before: Keys)
    requires '\n' !in id1 && '\n' !in id2
    requires '\r' !in id1 && '\r' !in id2
    ensures Load(before, SaveContent(Keys(Some(PublicPrefix + id2), Some(PrivatePrefix + id1))))
      == (Keys(Some(PublicPrefix + id2), Some(PrivatePrefix + id1)), true)
  {
    assert '\n' !in PublicPrefix + id2;
    assert '\n' !in PrivatePrefix + id1;
    assert '\r' !in PublicPrefix + id2;
    assert '\r' !in PrivatePrefix + id1;
    SaveLoadRoundTrip(Keys(Some(PublicPrefix + id2), Some(PrivatePrefix + id1)), before);
  }

  /** Text without a carriage return reads unchanged in front of the rest. */
  lemma {:induction false} UniversalNewlinesPrefix(a: string, rest: string)
    requires '\r' !in a
    ensures UniversalNewlines(a + rest) == a + UniversalNewlines(rest)
  {
    if a != [] {
      var s := a + rest;
      assert s[0] == a[0] && a[0] in a;
      assert s[1..] == a[1..] + rest;
      assert UniversalNewlines(s) == [s[0]] + UniversalNewlines(s[1..]);
      UniversalNewlinesPrefix(a[1..], rest);
      assert a == [a[0]] + a[1..];
    } else {
      assert a + rest == rest;
    }
  }

  /** A carriage return inside a saved public key reads as a newline. */
  lemma CarriageReturnReadsAsNewline(a: string, b: string, priv: string)
    requires '\r' !in a && '\r' !in b && '\r' !in priv
    requires '\n' !in b && b != []
    ensures UniversalNewlines(a + "\r" + b + "\n" + priv) == a + "\n" + (b + "\n" + priv)
  {
    var rest := b + "\n" + priv;
    var u := "\r" + rest;
    assert a + "\r" + b + "\n" + priv == a + u;
    UniversalNewlinesPrefix(a, u);
    assert u[0] == '\r' && u[1] == b[0] && b[0] in b;
    assert u[1..] == rest;
    assert '\r' !in rest;
    assert UniversalNewlines(u) == "\n" + UniversalNewlines(rest);
  }

  /** A carriage return in the public key breaks the round trip: the key
      `a + "\r" + b` reads back as two lines, so the public key loads as `a`,
      the private key as `b + "\n"`, and no failure is reported. */
  lemma CarriageReturnBreaksRoundTrip(a: string, b: string, priv: string, before: Keys)
    requires '\n' !in a && '\r' !in a
    requires '\n' !in b && '\r' !in b && b != []
    requires '\n' !in priv && '\r' !in priv && priv != []
    ensures Load(before, SaveContent(Keys(Some(a + "\r" + b), Some(priv))))
      == (Keys(Some(a), Some(b + "\n")), true)
  {
    var rest := b + "\n" + priv;
    CarriageReturnReadsAsNewline(a, b, priv);
    ReadLinesCons(a, rest);
    ReadLinesOfSaved(b, priv);
    var lines := ReadLines(a + "\n" + rest);
    assert lines == [a + "\n", b + "\n", priv];
    assert DropLast(a + "\n") == a;
  }
}
