/**
 * The ledger round trip: the message utils.Commit writes for the object
 * command's payload, read back by the update command's commitIter. Every
 * files line gives its destination path the source path, the last remote
 * and the HEAD the message names.
 */
module RoundTrip {
  import opened Wrappers
  import opened Text
  import opened Hex
  import opened Git
  import opened Ledger
  import opened ObjectCmd
  import opened UpdateObject
  import Utils

  /** The repo a decoder ends with after the remote lines: the last remote, or "" when there is none. */
  function LastRemote(remotes: seq<string>): string {
    if remotes == [] then "" else remotes[|remotes| - 1]
  }

  /** No path appears twice. */
  predicate Distinct(paths: seq<string>) {
    forall i, j :: 0 <= i < j < |paths| ==> paths[i] != paths[j]
  }

  /** The lines of the ledger message written for a list of pairs. */
  function LedgerLines(remotes: seq<string>, head: Oid, pairs: seq<string>): seq<string> {
    Utils.HeaderLines(remotes, HexString(head)) + (["files:"] + Prefixed("  ", pairs))
  }

  // The text of the message.

  /** The last character of a join is the last character of the last piece. */
  lemma {:induction false} JoinLast(xs: seq<string>, sep: string)
    requires |xs| >= 1 && xs[|xs| - 1] != []
    ensures |Join(xs, sep)| >= |xs[|xs| - 1]|
    ensures Join(xs, sep)[|Join(xs, sep)| - 1] == xs[|xs| - 1][|xs[|xs| - 1]| - 1]
    decreases |xs|
  {
    if |xs| > 1 {
      JoinLast(xs[1..], sep);
    }
  }

  /** The message starts with the marker and ends with the last pair, so TrimSpace leaves it alone. */
  lemma MessageTrimmed(remotes: seq<string>, head: Oid, pairs: seq<string>)
    requires |pairs| >= 1 && pairs[|pairs| - 1] != [] && Trimmed(pairs[|pairs| - 1])
    ensures Trimmed(Utils.CommitMessage(remotes, head, Payload(pairs)))
  {
    var message := Utils.CommitMessage(remotes, head, Payload(pairs));
    var j := Join(pairs, "\n  ");
    JoinLast(pairs, "\n  ");
    var front := "fhub-track\n\nrepo:\n  " + Join(remotes, "\n  ") + "\nhash:\n  " + HexString(head) + "\n" + "files:\n  ";
    assert message == front + j;
    assert message[0] == 'f';
    assert message[|message| - 1] == j[|j| - 1];
  }

  /** The decoder sees the header lines, "files:" and the indented pairs. */
  lemma MessageLinesOfCommit(remotes: seq<string>, head: Oid, pairs: seq<string>)
    requires |pairs| >= 1 && pairs[|pairs| - 1] != []
    requires forall i :: 0 <= i < |remotes| ==> DataLine(remotes[i])
    requires forall i :: 0 <= i < |pairs| ==> DataLine(pairs[i])
    ensures MessageLines(Utils.CommitMessage(remotes, head, Payload(pairs))) == LedgerLines(remotes, head, pairs)
  {
    var msgLines := ["files:"] + Prefixed("  ", pairs);
    PayloadLines(pairs);
    SplitJoin(msgLines, '\n');
    assert forall i :: 0 <= i < |msgLines| ==> '\n' !in msgLines[i];
    Utils.CommitMessageLines(remotes, head, msgLines);
    MessageTrimmed(remotes, head, pairs);
    TrimSpaceOfTrimmed(Utils.CommitMessage(remotes, head, Payload(pairs)));
  }

  // What the decoder reads.

  lemma TrimAllAppend(a: seq<string>, b: seq<string>)
    ensures TrimAll(a + b) == TrimAll(a) + TrimAll(b)
  {
  }

  /** The ledger body: the lines after the marker and the blank line. */
  function BodyLines(rl: seq<string>, hex: string, pairs: seq<string>): seq<string> {
    ["repo:"] + Prefixed("  ", rl) + (["hash:", "  " + hex] + (["files:"] + Prefixed("  ", pairs)))
  }

  lemma LedgerBody(remotes: seq<string>, head: Oid, pairs: seq<string>)
    ensures LedgerLines(remotes, head, pairs)[2..] == BodyLines(Utils.RemoteLines(remotes), HexString(head), pairs)
  {
    var top := [Marker, "", "repo:"];
    var p1 := Prefixed("  ", Utils.RemoteLines(remotes));
    var k2 := ["hash:", "  " + HexString(head)];
    var rest := ["files:"] + Prefixed("  ", pairs);
    assert LedgerLines(remotes, head, pairs) == top + p1 + k2 + rest;
    assert (top + p1 + k2 + rest)[2..] == ["repo:"] + p1 + (k2 + rest);
  }

  /** A key line and an indented data line, trimmed. */
  lemma TrimKeyAndData(key: string, x: string)
    requires Trimmed(key) && Trimmed(x)
    ensures TrimAll([key, "  " + x]) == [key, x]
  {
    var t := TrimAll([key, "  " + x]);
    assert t[0] == key by {
      TrimSpaceOfTrimmed(key);
    }
    assert t[1] == x by {
      TrimSpaceIndented(x);
    }
  }

  /** The body lines trimmed: the indentation of the data lines is gone. */
  lemma BodyTrimmed(rl: seq<string>, hex: string, pairs: seq<string>)
    requires forall i :: 0 <= i < |rl| ==> Trimmed(rl[i])
    requires forall i :: 0 <= i < |pairs| ==> Trimmed(pairs[i])
    requires Trimmed(hex)
    ensures TrimAll(BodyLines(rl, hex, pairs)) == ["repo:"] + rl + (["hash:", hex] + (["files:"] + pairs))
  {
    var p1 := Prefixed("  ", rl);
    var k2 := ["hash:", "  " + hex];
    var k3 := ["files:"];
    var p2 := Prefixed("  ", pairs);
    assert TrimAll(["repo:"]) == ["repo:"] by {
      TrimSpaceOfTrimmed("repo:");
    }
    assert TrimAll(k2) == ["hash:", hex] by {
      TrimKeyAndData("hash:", hex);
    }
    assert TrimAll(k3) == k3 by {
      TrimSpaceOfTrimmed("files:");
    }
    assert TrimAll(k3 + p2) == k3 + pairs by {
      TrimAllIndented(pairs);
      TrimAllAppend(k3, p2);
    }
    assert TrimAll(k2 + (k3 + p2)) == ["hash:", hex] + (k3 + pairs) by {
      TrimAllAppend(k2, k3 + p2);
    }
    assert TrimAll(["repo:"] + p1) == ["repo:"] + rl by {
      TrimAllIndented(rl);
      TrimAllAppend(["repo:"], p1);
    }
    TrimAllAppend(["repo:"] + p1, k2 + (k3 + p2));
  }

  /** Reading data lines after a key line: the data tagged with that key. */
  lemma ReadSection(lastKey: string, line: string, xs: seq<string>, rest: seq<string>)
    requires IsKeyLine(line)
    requires forall i :: 0 <= i < |xs| ==> !IsKeyLine(xs[i])
    ensures Read(lastKey, [line] + xs + rest) == Tagged(ParseMessageKey(line).0, xs) + Read(ParseMessageKey(line).0, rest)
  {
    var key := ParseMessageKey(line).0;
    assert [line] + xs + rest == [line] + (xs + rest);
    ReadKeyLine(lastKey, line, xs + rest);
    ReadAppend(key, xs, rest);
    ReadData(key, xs);
  }

  /** The three key lines of the object command's messages. */
  lemma LedgerKeys()
    ensures ParseMessageKey("repo:") == ("repo", true)
    ensures ParseMessageKey("hash:") == ("hash", true)
    ensures ParseMessageKey("files:") == ("files", true)
  {
    ParseMessageKeyLabels("repo");
    assert "repo" + ":" == "repo:";
    ParseMessageKeyLabels("hash");
    assert "hash" + ":" == "hash:";
    ParseMessageKeyLabels("files");
    assert "files" + ":" == "files:";
  }

  /** Reading the trimmed body: the remotes under repo, the HEAD under hash, the pairs under files. */
  lemma ReadBody(rl: seq<string>, hex: string, pairs: seq<string>)
    requires forall i :: 0 <= i < |rl| ==> !IsKeyLine(rl[i])
    requires forall i :: 0 <= i < |pairs| ==> !IsKeyLine(pairs[i])
    requires !IsKeyLine(hex)
    ensures Read("", ["repo:"] + rl + (["hash:", hex] + (["files:"] + pairs)))
         == Tagged("repo", rl) + [Field("hash", hex)] + Tagged("files", pairs)
  {
    var tail := ["files:"] + pairs;
    var mid := ["hash:", hex] + tail;
    LedgerKeys();
    ReadSection("", "repo:", rl, mid);
    ReadHashSection("repo", hex, tail);
    ReadFilesSection(pairs);
    assert Tagged("repo", rl) + ([Field("hash", hex)] + Tagged("files", pairs))
        == Tagged("repo", rl) + [Field("hash", hex)] + Tagged("files", pairs);
  }

  /** Under any key, the hash line and its data line, then the rest. */
  lemma ReadHashSection(lastKey: string, hex: string, tail: seq<string>)
    requires !IsKeyLine(hex)
    ensures Read(lastKey, ["hash:", hex] + tail) == [Field("hash", hex)] + Read("hash", tail)
  {
    LedgerKeys();
    assert ["hash:", hex] + tail == ["hash:"] + [hex] + tail;
    ReadSection(lastKey, "hash:", [hex], tail);
    assert Tagged("hash", [hex]) == [Field("hash", hex)];
  }

  /** Under the hash key, the files line and the pairs. */
  lemma ReadFilesSection(pairs: seq<string>)
    requires forall i :: 0 <= i < |pairs| ==> !IsKeyLine(pairs[i])
    ensures Read("hash", ["files:"] + pairs) == Tagged("files", pairs)
  {
    LedgerKeys();
    assert ["files:"] + pairs == ["files:"] + pairs + [];
    ReadSection("hash", "files:", pairs, []);
    assert Read("files", []) == [];
  }

  /** The fields of the body: the remotes under repo, the HEAD under hash, the pairs under files. */
  lemma BodyFields(remotes: seq<string>, head: Oid, pairs: seq<string>)
    requires forall i :: 0 <= i < |remotes| ==> DataLine(remotes[i])
    requires forall i :: 0 <= i < |pairs| ==> DataLine(pairs[i])
    ensures Fields("", LedgerLines(remotes, head, pairs)[2..])
         == Tagged("repo", Utils.RemoteLines(remotes)) + [Field("hash", HexString(head))] + Tagged("files", pairs)
  {
    var hex := HexString(head);
    var rl := Utils.RemoteLines(remotes);
    Utils.HexStringIsData(head);
    LedgerBody(remotes, head, pairs);
    assert forall i :: 0 <= i < |rl| ==> DataLine(rl[i]);
    BodyTrimmed(rl, hex, pairs);
    ReadBody(rl, hex, pairs);
  }

  // What the decoder does with the fields.

  lemma {:induction false} ApplyFieldsAppend(d: Decoder, a: seq<Field>, b: seq<Field>, commit: Oid)
    ensures ApplyFields(d, a + b, commit)
         == match ApplyFields(d, a, commit) case Err(e) => Err(e) case Ok(d') => ApplyFields(d', b, commit)
    decreases |a|
  {
    if a == [] {
      assert a + b == b;
    } else {
      assert (a + b)[1..] == a[1..] + b;
      if ApplyField(d, a[0], commit).Ok? {
        ApplyFieldsAppend(ApplyField(d, a[0], commit).value, a[1..], b, commit);
      }
    }
  }

  /**
   * Files lines naming distinct, still unsettled destinations each record
   * their source path with the current repo and hash; no other entry changes.
   */
  lemma {:induction false} FilesLinesRecord(d: Decoder, srcs: seq<string>, dsts: seq<string>, commit: Oid)
    requires |srcs| == |dsts|
    requires forall i :: 0 <= i < |srcs| ==> ':' !in srcs[i] && ':' !in dsts[i]
    requires forall i :: 0 <= i < |dsts| ==> dsts[i] in d.tracked && !Settled(d.tracked[dsts[i]])
    requires Distinct(dsts)
    ensures var r := ApplyFields(d, Tagged("files", Zipped(srcs, dsts)), commit);
      r.Ok? && r.value.repo == d.repo && r.value.oid == d.oid && r.value.tracked.Keys == d.tracked.Keys &&
      (forall i :: 0 <= i < |dsts| ==>
        r.value.tracked[dsts[i]] == TrackedObject(d.oid, Some(commit), srcs[i], d.tracked[dsts[i]].deleted, d.repo)) &&
      (forall p :: p in d.tracked && p !in dsts ==> r.value.tracked[p] == d.tracked[p])
    decreases |srcs|
  {
    var fs := Tagged("files", Zipped(srcs, dsts));
    if srcs != [] {
      FilesLineRecords(d, srcs[0], dsts[0], commit);
      var e := TrackedObject(d.oid, Some(commit), srcs[0], d.tracked[dsts[0]].deleted, d.repo);
      var d1 := d.(tracked := d.tracked[dsts[0] := e]);
      assert fs[0] == Field("files", srcs[0] + ":" + dsts[0]);
      assert fs[1..] == Tagged("files", Zipped(srcs[1..], dsts[1..]));
      assert forall i :: 0 <= i < |dsts| - 1 ==> dsts[1..][i] == dsts[i + 1] && dsts[i + 1] != dsts[0];
      FilesLinesRecord(d1, srcs[1..], dsts[1..], commit);
    }
  }

  /** The message passes the ledger test, and its body reads as the remotes, the HEAD and the pairs. */
  lemma CommitPayloadFields(remotes: seq<string>, head: Oid, pairs: seq<string>)
    requires |pairs| >= 1 && pairs[|pairs| - 1] != []
    requires forall i :: 0 <= i < |remotes| ==> DataLine(remotes[i])
    requires forall i :: 0 <= i < |pairs| ==> DataLine(pairs[i])
    ensures var lines := MessageLines(Utils.CommitMessage(remotes, head, Payload(pairs)));
      IsLedger(lines) &&
      Fields("", Body(lines)) == Tagged("repo", Utils.RemoteLines(remotes)) + [Field("hash", HexString(head))] + Tagged("files", pairs)
  {
    var lines := MessageLines(Utils.CommitMessage(remotes, head, Payload(pairs)));
    var ledger := LedgerLines(remotes, head, pairs);
    assert lines == ledger by {
      MessageLinesOfCommit(remotes, head, pairs);
    }
    LedgerLinesHeader(remotes, head, pairs);
    BodyFields(remotes, head, pairs);
  }

  /** The ledger lines pass the ledger test. */
  lemma LedgerLinesHeader(remotes: seq<string>, head: Oid, pairs: seq<string>)
    ensures IsLedger(LedgerLines(remotes, head, pairs))
  {
    assert LedgerLines(remotes, head, pairs)[..3] == [Marker, "", "repo:"];
  }

  /** Applying the remotes, the HEAD and the pairs to a fresh decoder. */
  lemma DecodeFields(t: MapObject, remotes: seq<string>, head: Oid, srcs: seq<string>, dsts: seq<string>, commit: Oid)
    requires |srcs| == |dsts|
    requires forall i :: 0 <= i < |srcs| ==> ':' !in srcs[i] && ':' !in dsts[i]
    requires forall i :: 0 <= i < |dsts| ==> dsts[i] in t && !Settled(t[dsts[i]])
    requires Distinct(dsts)
    ensures var r := ApplyFields(Decoder(t, "", None),
                                 Tagged("repo", Utils.RemoteLines(remotes)) + [Field("hash", HexString(head))] + Tagged("files", Zipped(srcs, dsts)),
                                 commit);
      r.Ok? && r.value.tracked.Keys == t.Keys &&
      (forall i :: 0 <= i < |dsts| ==>
        r.value.tracked[dsts[i]] == TrackedObject(Some(head), Some(commit), srcs[i], t[dsts[i]].deleted, LastRemote(remotes))) &&
      (forall p :: p in t && p !in dsts ==> r.value.tracked[p] == t[p])
  {
    var rl := Utils.RemoteLines(remotes);
    var d0 := Decoder(t, "", None);
    var fRepo := Tagged("repo", rl);
    var fHash := [Field("hash", HexString(head))];
    var fFiles := Tagged("files", Zipped(srcs, dsts));
    var d1 := d0.(repo := LastRemote(remotes));
    var d2 := d1.(oid := Some(head));
    assert ApplyFields(d0, fRepo, commit) == Ok(d1) by {
      RepoLinesLastWins(d0, rl, commit);
    }
    assert ApplyFields(d1, fHash, commit) == Ok(d2) by {
      NewOidRoundTrip(head);
    }
    assert ApplyFields(d0, fRepo + fHash, commit) == Ok(d2) by {
      ApplyFieldsAppend(d0, fRepo, fHash, commit);
    }
    ApplyFieldsAppend(d0, fRepo + fHash, fFiles, commit);
    FilesLinesRecord(d2, srcs, dsts, commit);
  }

  /**
   * The round trip. A commit whose message is what utils.Commit writes for
   * the object command's payload passes the ledger test, and decoding it
   * gives each destination path its source path, the HEAD the message names
   * as source commit, the commit itself as destination commit, and the last
   * remote as repo.
   */
  lemma CommitPayloadDecodes(t: MapObject, remotes: seq<string>, head: Oid, srcs: seq<string>, dsts: seq<string>, commit: Oid)
    requires |srcs| == |dsts| >= 1
    requires forall i :: 0 <= i < |remotes| ==> DataLine(remotes[i])
    requires forall i :: 0 <= i < |srcs| ==> ':' !in srcs[i] && ':' !in dsts[i] && DataLine(Pair(srcs[i], dsts[i]))
    requires forall i :: 0 <= i < |dsts| ==> dsts[i] in t && !Settled(t[dsts[i]])
    requires Distinct(dsts)
    ensures var lines := MessageLines(Utils.CommitMessage(remotes, head, Payload(Zipped(srcs, dsts))));
      IsLedger(lines) &&
      var r := DecodeSpec(t, Body(lines), commit);
      r.Ok? && r.value.Keys == t.Keys &&
      (forall i :: 0 <= i < |dsts| ==>
        r.value[dsts[i]] == TrackedObject(Some(head), Some(commit), srcs[i], t[dsts[i]].deleted, LastRemote(remotes))) &&
      (forall p :: p in t && p !in dsts ==> r.value[p] == t[p])
  {
    var pairs := Zipped(srcs, dsts);
    assert pairs[|pairs| - 1] != [] by {
      assert ':' in pairs[|pairs| - 1];
    }
    assert forall i :: 0 <= i < |pairs| ==> DataLine(pairs[i]);
    CommitPayloadFields(remotes, head, pairs);
    DecodeFields(t, remotes, head, srcs, dsts, commit);
  }
}
