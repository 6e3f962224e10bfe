/**
 * internal/track/utils/commit.go: the ledger encoder of the update code and
 * the parent list of a commit.
 */
module Utils {
  import opened Wrappers
  import opened Text
  import opened Hex
  import opened Git
  import opened Ledger

  /** A repository's remotes: the names Remotes.List returns, in order, and the URL each name looks up to. */
  datatype RemoteConfig = RemoteConfig(names: seq<string>, urls: map<string, string>)

  /** "name:url" for each listed remote, in list order; the first name that does not look up fails the whole list. */
  function RemoteList(config: RemoteConfig): (r: Result<seq<string>>)
    ensures r.Ok? <==> forall i :: 0 <= i < |config.names| ==> config.names[i] in config.urls
    ensures r.Ok? ==> |r.value| == |config.names|
    ensures r.Ok? ==> forall i :: 0 <= i < |config.names| ==>
      r.value[i] == config.names[i] + ":" + config.urls[config.names[i]]
    ensures r.Err? ==> exists k :: (0 <= k < |config.names| && config.names[k] !in config.urls &&
      r.error == RemoteNotFound(config.names[k]) &&
      forall i :: 0 <= i < k ==> config.names[i] in config.urls)
    decreases |config.names|
  {
    if config.names == [] then Ok([])
    else
      var name := config.names[0];
      if name !in config.urls then Err(RemoteNotFound(name))
      else
        match RemoteList(config.(names := config.names[1..]))
        case Err(e) => Err(e)
        case Ok(rest) => Ok([name + ":" + config.urls[name]] + rest)
  }

  /** The remote loop of Commit: look each listed name up and render it, stopping at the first failure. */
  method RemoteStrings(config: RemoteConfig) returns (r: Result<seq<string>>)
    ensures r == RemoteList(config)
  {
    var remotes: seq<string> := [];
    var i := 0;
    while i < |config.names|
      invariant 0 <= i <= |config.names|
      invariant forall j :: 0 <= j < i ==> config.names[j] in config.urls
      invariant |remotes| == i
      invariant forall j :: 0 <= j < i ==> remotes[j] == config.names[j] + ":" + config.urls[config.names[j]]
    {
      var name := config.names[i];
      if name !in config.urls {
        RemoteListFails(config, i);
        return Err(RemoteNotFound(name));
      }
      remotes := remotes + [name + ":" + config.urls[name]];
      i := i + 1;
    }
    assert RemoteList(config).value == remotes;
    return Ok(remotes);
  }

  /** The error RemoteList reports is the first name that fails to look up. */
  lemma RemoteListFails(config: RemoteConfig, k: nat)
    requires k < |config.names| && config.names[k] !in config.urls
    requires forall j :: 0 <= j < k ==> config.names[j] in config.urls
    ensures RemoteList(config) == Err(RemoteNotFound(config.names[k]))
  {
    var r := RemoteList(config);
    var k' :| 0 <= k' < |config.names| && config.names[k'] !in config.urls &&
      r.error == RemoteNotFound(config.names[k']) &&
      (forall i :: 0 <= i < k' ==> config.names[i] in config.urls);
    assert k' == k;
  }

  /** The ledger message Commit writes: marker, blank line, remotes, HEAD, then msg. */
  function CommitMessage(remotes: seq<string>, head: Oid, msg: string): string {
    "fhub-track\n\nrepo:\n  " + Join(remotes, "\n  ") + "\nhash:\n  " + HexString(head) + "\n" + msg
  }

  /** The remote lines of a message: one blank line when there is no remote. */
  function RemoteLines(remotes: seq<string>): (r: seq<string>)
    ensures |r| >= 1
  {
    if remotes == [] then [""] else remotes
  }

  /** The lines CommitMessage writes before msg. */
  function HeaderLines(remotes: seq<string>, hex: string): seq<string> {
    [Marker, "", "repo:"] + Prefixed("  ", RemoteLines(remotes)) + ["hash:", "  " + hex]
  }

  /**
   * utils.Commit up to CreateCommit: the message it commits, or the error that
   * stops it first. HEAD is that of the repository committed to; None when it has none.
   */
  method Commit(config: RemoteConfig, head: Option<Oid>, msg: string) returns (r: Result<string>)
    ensures RemoteList(config).Err? ==> r == Err(RemoteList(config).error)
    ensures RemoteList(config).Ok? && head.None? ==> r == Err(NoHead)
    ensures RemoteList(config).Ok? && head.Some? ==> r == Ok(CommitMessage(RemoteList(config).value, head.value, msg))
  {
    var remotes := RemoteStrings(config);
    if remotes.Err? {
      return Err(remotes.error);
    }
    if head.None? {
      return Err(NoHead);
    }
    return Ok(CommitMessage(remotes.value, head.value, msg));
  }

  lemma JoinTop()
    ensures Join([Marker, "", "repo:"], "\n") == "fhub-track\n\nrepo:"
  {
    var xs := [Marker, "", "repo:"];
    assert xs[1..] == ["", "repo:"];
    assert ["", "repo:"][1..] == ["repo:"];
    assert Join(["", "repo:"], "\n") == "\nrepo:";
  }

  lemma JoinHash(hex: string)
    ensures Join(["hash:", "  " + hex], "\n") == "hash:\n  " + hex
  {
    assert ["hash:", "  " + hex][1..] == ["  " + hex];
  }

  lemma MessageShape(j: string, hex: string, msg: string)
    ensures "fhub-track\n\nrepo:\n  " + j + "\nhash:\n  " + hex + "\n" + msg
         == (("fhub-track\n\nrepo:" + "\n" + ("  " + j)) + "\n" + ("hash:\n  " + hex)) + "\n" + msg
  {
  }

  /** The remote block: "  " before the first remote and between any two. */
  lemma JoinRemotes(remotes: seq<string>)
    ensures Join(Prefixed("  ", RemoteLines(remotes)), "\n") == "  " + Join(remotes, "\n  ")
  {
    var rl := RemoteLines(remotes);
    JoinIndented(rl, "  ", '\n');
    assert ['\n'] + "  " == "\n  ";
    assert ['\n'] == "\n";
    if remotes == [] {
      assert rl == [""];
      assert Join(rl, "\n  ") == "" == Join(remotes, "\n  ");
    }
  }

  /** The header lines joined. */
  lemma JoinHeader(remotes: seq<string>, hex: string)
    ensures Join(HeaderLines(remotes, hex), "\n")
         == ("fhub-track\n\nrepo:" + "\n" + ("  " + Join(remotes, "\n  "))) + "\n" + ("hash:\n  " + hex)
  {
    var p := Prefixed("  ", RemoteLines(remotes));
    var top := [Marker, "", "repo:"];
    var tail := ["hash:", "  " + hex];
    JoinRemotes(remotes);
    JoinTop();
    JoinHash(hex);
    JoinAppend(top, p, "\n");
    JoinAppend(top + p, tail, "\n");
    assert HeaderLines(remotes, hex) == top + p + tail;
  }

  /** The format string is the header lines and the lines of msg, joined by newlines. */
  lemma FormatJoin(remotes: seq<string>, hex: string, msgLines: seq<string>)
    requires |msgLines| >= 1
    ensures "fhub-track\n\nrepo:\n  " + Join(remotes, "\n  ") + "\nhash:\n  " + hex + "\n" + Join(msgLines, "\n")
         == Join(HeaderLines(remotes, hex) + msgLines, "\n")
  {
    JoinHeader(remotes, hex);
    JoinAppend(HeaderLines(remotes, hex), msgLines, "\n");
    MessageShape(Join(remotes, "\n  "), hex, Join(msgLines, "\n"));
  }

  /** Splitting the message at newlines yields the header lines, then the lines of msg. */
  lemma CommitMessageLines(remotes: seq<string>, head: Oid, msgLines: seq<string>)
    requires |msgLines| >= 1
    requires forall i :: 0 <= i < |remotes| ==> '\n' !in remotes[i]
    requires forall i :: 0 <= i < |msgLines| ==> '\n' !in msgLines[i]
    ensures Split(CommitMessage(remotes, head, Join(msgLines, "\n")), '\n') == HeaderLines(remotes, HexString(head)) + msgLines
  {
    FormatJoin(remotes, HexString(head), msgLines);
    var lines := HeaderLines(remotes, HexString(head)) + msgLines;
    HexStringIsData(head);
    forall i | 0 <= i < |lines| ensures '\n' !in lines[i] {
    }
    SplitJoin(lines, '\n');
  }

  /** An Oid's text is a data line: hexadecimal digits only. */
  lemma HexStringIsData(h: Oid)
    ensures DataLine(HexString(h))
    ensures '\n' !in "  " + HexString(h)
  {
    var hex := HexString(h);
    DecodeEncode(h);
    assert IsHex(hex[0]) && IsHex(hex[|hex| - 1]);
    assert '\n' !in hex by {
      forall i | 0 <= i < |hex| ensures hex[i] != '\n' {
        assert IsHex(hex[i]);
      }
    }
  }

  /** CommitParents: the commit's parents looked up by index, in index order; a failed lookup is None. */
  method CommitParents(store: Store, c: Commit) returns (parents: seq<Option<Commit>>)
    ensures parents == ParentLookups(store, c)
  {
    var a := new Option<Commit>[|c.parents|](_ => None);
    var i := 0;
    while i < |c.parents|
      invariant 0 <= i <= |c.parents|
      invariant forall j :: 0 <= j < i ==> a[j] == Lookup(store, c.parents[j])
    {
      a[i] := Lookup(store, c.parents[i]);
      i := i + 1;
    }
    parents := a[..];
  }
}
