/**
 * The provenance ledger: the text of an fhub-track commit message. A ledger
 * message starts with the marker line; its body is a list of key lines
 * ("repo:", "hash:", "files:", "rename:") each followed by the data lines
 * that belong to it. Every decoder in the repository reads the body the same
 * way: trim each line, switch the current key at a key line, and hand any
 * other line to the current key. Fields is that shared reading.
 */
module Ledger {
  import opened Text

  const Marker: string := "fhub-track"

  /** The four key lines. */
  predicate IsKeyLine(line: string) {
    line == "repo:" || line == "hash:" || line == "files:" || line == "rename:"
  }

  /** The labels of the key lines. */
  predicate IsLabel(key: string) {
    key == "repo" || key == "hash" || key == "files" || key == "rename"
  }

  /** parseMessageKey: a key line yields its label and true; any other line ("", false). */
  function ParseMessageKey(line: string): (r: (string, bool))
    ensures r.1 <==> IsKeyLine(line)
    ensures r.1 ==> r.0 + ":" == line
    ensures !r.1 ==> r.0 == ""
  {
    if IsKeyLine(line) then (line[..|line| - 1], true) else ("", false)
  }

  /** Each name, written with its colon, is recognised and yields the name back. */
  lemma ParseMessageKeyLabels(name: string)
    requires IsLabel(name)
    ensures ParseMessageKey(name + ":") == (name, true)
  {
  }

  /** The labels parseMessageKey yields: never "move", so the decoders' "move" branches are dead. */
  lemma ParseMessageKeyNeverMove(line: string)
    ensures ParseMessageKey(line).1 ==> IsLabel(ParseMessageKey(line).0)
    ensures ParseMessageKey(line).0 != "move"
  {
  }

  /** The lines of a message as the ledger decoders of the update and discover code see them. */
  function MessageLines(message: string): (lines: seq<string>)
    ensures |lines| >= 1
  {
    Split(TrimSpace(message), '\n')
  }

  /**
   * The ledger test as the decoders write it: at least three lines, and the
   * marker first OR a blank second line.
   */
  predicate IsLedgerAsWritten(lines: seq<string>) {
    |lines| >= 3 && (lines[0] == Marker || lines[1] == "")
  }

  /**
   * The header utils.Commit writes: at least three lines, the marker, then a
   * blank line. Track.commit's messages do not have it (their second line is
   * "repo:"); no decoder uses it as its test.
   */
  predicate IsLedger(lines: seq<string>) {
    |lines| >= 3 && lines[0] == Marker && lines[1] == ""
  }

  /**
   * The ledger test of the decoders with the OR dropped: at least three lines
   * and the marker first. Both ledger formats the program writes pass it:
   * utils.Commit's (marker, blank line) and Track.commit's (marker, then at
   * once "repo:").
   */
  predicate IsMarked(lines: seq<string>) {
    |lines| >= 3 && lines[0] == Marker
  }

  /** Every message a corrected test accepts, the test as written accepts too. */
  lemma IsLedgerNarrows(lines: seq<string>)
    ensures IsLedger(lines) ==> IsMarked(lines)
    ensures IsMarked(lines) ==> IsLedgerAsWritten(lines)
  {
  }

  /** The lines of a subject, a blank line and a body. */
  lemma SplitBlankLine(subject: string, body: string)
    requires '\n' !in subject
    ensures Split(subject + "\n\n" + body, '\n') == [subject, ""] + Split(body, '\n')
  {
    var rest := [] + ['\n'] + body;
    assert subject + "\n\n" + body == subject + ['\n'] + rest;
    SplitAround(subject, rest, '\n');
    SplitAround([], body, '\n');
  }

  /**
   * An ordinary commit message, a subject other than the marker, a blank line
   * and a body, passes the test as written, so its body is read as ledger
   * data; neither corrected test accepts it.
   */
  lemma OrdinaryMessageAcceptedAsWritten(subject: string, body: string)
    requires subject != Marker && '\n' !in subject
    requires Trimmed(subject + "\n\n" + body)
    ensures IsLedgerAsWritten(MessageLines(subject + "\n\n" + body))
    ensures !IsLedger(MessageLines(subject + "\n\n" + body))
    ensures !IsMarked(MessageLines(subject + "\n\n" + body))
  {
    TrimSpaceOfTrimmed(subject + "\n\n" + body);
    SplitBlankLine(subject, body);
  }

  /** One data line of a ledger body, tagged with the key it belongs to. */
  datatype Field = Field(key: string, value: string)

  /** Every line trimmed, as each decoder does before looking at it. */
  function TrimAll(lines: seq<string>): (r: seq<string>)
    ensures |r| == |lines| && forall i :: 0 <= i < |lines| ==> r[i] == TrimSpace(lines[i])
  {
    seq(|lines|, i requires 0 <= i < |lines| => TrimSpace(lines[i]))
  }

  /**
   * The data lines of trimmed body lines, in order, each tagged with the last
   * key line above it (lastKey before the first key line).
   */
  function Read(lastKey: string, lines: seq<string>): (r: seq<Field>)
    ensures |r| <= |lines|
    ensures forall i :: 0 <= i < |r| ==> !IsKeyLine(r[i].value)
    ensures forall i :: 0 <= i < |r| ==> r[i].key == lastKey || IsLabel(r[i].key)
    decreases |lines|
  {
    if lines == [] then []
    else
      var key := ParseMessageKey(lines[0]);
      if key.1 then Read(key.0, lines[1..])
      else [Field(lastKey, lines[0])] + Read(lastKey, lines[1..])
  }

  /** What a decoder makes of the lines of a ledger body. */
  function Fields(lastKey: string, lines: seq<string>): seq<Field> {
    Read(lastKey, TrimAll(lines))
  }

  /** The current key after reading trimmed lines. */
  function LastKey(lastKey: string, lines: seq<string>): string
    decreases |lines|
  {
    if lines == [] then lastKey
    else
      var key := ParseMessageKey(lines[0]);
      LastKey(if key.1 then key.0 else lastKey, lines[1..])
  }

  /** Reading a + b is reading a, then reading b under the key a ends with. */
  lemma {:induction false} ReadAppend(lastKey: string, a: seq<string>, b: seq<string>)
    ensures Read(lastKey, a + b) == Read(lastKey, a) + Read(LastKey(lastKey, a), b)
    ensures LastKey(lastKey, a + b) == LastKey(LastKey(lastKey, a), b)
    decreases |a|
  {
    if a != [] {
      assert (a + b)[1..] == a[1..] + b;
      var key := ParseMessageKey(a[0]);
      ReadAppend(if key.1 then key.0 else lastKey, a[1..], b);
    } else {
      assert a + b == b;
    }
  }

  /** A line a decoder reads as data and keeps as it is: trimmed, not a key line, one line. */
  predicate DataLine(x: string) {
    Trimmed(x) && !IsKeyLine(x) && '\n' !in x
  }

  /** The same key on every value. */
  function Tagged(key: string, xs: seq<string>): (r: seq<Field>)
    ensures |r| == |xs| && forall i :: 0 <= i < |xs| ==> r[i] == Field(key, xs[i])
  {
    seq(|xs|, i requires 0 <= i < |xs| => Field(key, xs[i]))
  }

  /** Indented data lines trim back to themselves. */
  lemma TrimAllIndented(xs: seq<string>)
    requires forall i :: 0 <= i < |xs| ==> Trimmed(xs[i])
    ensures TrimAll(Prefixed("  ", xs)) == xs
  {
    forall i | 0 <= i < |xs|
      ensures TrimSpace(Prefixed("  ", xs)[i]) == xs[i]
    {
      TrimSpaceIndented(xs[i]);
    }
  }

  /** Data lines are read as themselves, under the current key, which they leave unchanged. */
  lemma {:induction false} ReadData(key: string, xs: seq<string>)
    requires forall i :: 0 <= i < |xs| ==> !IsKeyLine(xs[i])
    ensures Read(key, xs) == Tagged(key, xs)
    ensures LastKey(key, xs) == key
    decreases |xs|
  {
    if xs != [] {
      ReadData(key, xs[1..]);
      assert Tagged(key, xs) == [Field(key, xs[0])] + Tagged(key, xs[1..]);
    }
  }

  /** A key line switches the current key and yields no field. */
  lemma ReadKeyLine(lastKey: string, line: string, rest: seq<string>)
    requires IsKeyLine(line)
    ensures Read(lastKey, [line] + rest) == Read(ParseMessageKey(line).0, rest)
    ensures LastKey(lastKey, [line] + rest) == LastKey(ParseMessageKey(line).0, rest)
  {
    assert ([line] + rest)[1..] == rest;
  }
}
