/**
  Reading the rendered upstream section back. The text is split into
  lines, and the lines are parsed as `upstream <host> {`, `\tserver <x>;`
  lines and `}`. When no host and no backend contains a newline, parsing the
  rendered text gives back every host, in key order, with its list of
  backends: the rendering loses nothing and invents nothing.
 */
module UpstreamText {
  import opened JsValues
  import opened VhostCache
  import opened Upstream

  predicate NoNewline(s: string) {
    '\n' !in s
  }

  /** Every host and every backend of the cache is free of newlines. */
  ghost predicate SingleLineNames(cache: Cache) {
    && (forall k :: 0 <= k < |cache.hosts| ==> NoNewline(cache.hosts[k]))
    && (forall h, x :: h in cache.entries && x in cache.entries[h] ==> NoNewline(x))
  }

  /** Each line followed by a newline. */
  function JoinLines(ls: seq<string>): string
    decreases |ls|
  {
    if ls == [] then "" else ls[0] + "\n" + JoinLines(ls[1..])
  }

  /** The index of the first newline of `s`, or `|s|` when there is none. */
  function NewlineAt(s: string): (k: nat)
    ensures k <= |s|
    ensures k < |s| ==> s[k] == '\n'
    ensures forall i :: 0 <= i < k ==> s[i] != '\n'
    decreases |s|
  {
    if s == [] || s[0] == '\n' then 0 else 1 + NewlineAt(s[1..])
  }

  /** The lines of `s`: split at every newline; a final newline ends the last line. */
  function SplitLines(s: string): seq<string>
    decreases |s|
  {
    if s == [] then []
    else
      var k := NewlineAt(s);
      if k == |s| then [s] else [s[..k]] + SplitLines(s[k + 1..])
  }

  /** A `\tserver <x>;` line. */
  predicate IsServerLine(l: string) {
    |l| >= 9 && l[..8] == "\tserver " && l[|l| - 1] == ';'
  }

  /** An `upstream <host> {` line. */
  predicate IsHeader(l: string) {
    |l| >= 11 && l[..9] == "upstream " && l[|l| - 2..] == " {"
  }

  /** The `server` lines of one block up to its closing brace: the backends, and the lines after the brace. */
  function ParseServers(ls: seq<string>): (r: Option<(seq<string>, seq<string>)>)
    ensures r.Some? ==> |r.value.1| < |ls|
    decreases |ls|
  {
    if ls == [] then None
    else if ls[0] == "}" then Some(([], ls[1..]))
    else if IsServerLine(ls[0]) then
      match ParseServers(ls[1..])
      case None => None
      case Some(p) => Some(([ls[0][8..|ls[0]| - 1]] + p.0, p.1))
    else None
  }

  /** A sequence of complete upstream blocks, as (host, backends) pairs in order. */
  function ParseBlocks(ls: seq<string>): Option<seq<(string, seq<string>)>>
    decreases |ls|
  {
    if ls == [] then Some([])
    else if IsHeader(ls[0]) then
      match ParseServers(ls[1..])
      case None => None
      case Some(p) =>
        match ParseBlocks(p.1)
        case None => None
        case Some(blocks) => Some([(ls[0][9..|ls[0]| - 2], p.0)] + blocks)
    else None
  }

  function ParseUpstreams(text: string): Option<seq<(string, seq<string>)>> {
    ParseBlocks(SplitLines(text))
  }

  /** The hosts of `hosts` that have an array, each with its array, in order. */
  function Pairs(hosts: seq<string>, entries: map<string, seq<string>>): seq<(string, seq<string>)>
    decreases |hosts|
  {
    if hosts == [] then []
    else (if hosts[0] in entries then [(hosts[0], entries[hosts[0]])] else []) + Pairs(hosts[1..], entries)
  }

  // ---------------------------------------------------------------------------
  // The lines of the rendered text.

  function ServerLineSeq(remotes: seq<string>): seq<string>
    decreases |remotes|
  {
    if remotes == [] then [] else ["\tserver " + remotes[0] + ";"] + ServerLineSeq(remotes[1..])
  }

  function BlockLines(host: string, remotes: seq<string>): seq<string> {
    ["upstream " + host + " {"] + ServerLineSeq(remotes) + ["}"]
  }

  function TextLines(hosts: seq<string>, entries: map<string, seq<string>>): seq<string>
    decreases |hosts|
  {
    if hosts == [] then []
    else (if hosts[0] in entries then BlockLines(hosts[0], entries[hosts[0]]) else []) + TextLines(hosts[1..], entries)
  }

  lemma {:induction false} JoinLinesAppend(a: seq<string>, b: seq<string>)
    ensures JoinLines(a + b) == JoinLines(a) + JoinLines(b)
    decreases |a|
  {
    if a == [] {
      assert a + b == b;
    } else {
      assert (a + b)[1..] == a[1..] + b;
      JoinLinesAppend(a[1..], b);
    }
  }

  lemma {:induction false} ServerLineSeqAppend(a: seq<string>, b: seq<string>)
    ensures ServerLineSeq(a + b) == ServerLineSeq(a) + ServerLineSeq(b)
    decreases |a|
  {
    if a == [] {
      assert a + b == b;
    } else {
      assert (a + b)[1..] == a[1..] + b;
      ServerLineSeqAppend(a[1..], b);
    }
  }

  lemma {:induction false} ServerLinesAsLines(remotes: seq<string>)
    ensures ServerLines(remotes) == JoinLines(ServerLineSeq(remotes))
    decreases |remotes|
  {
    if remotes != [] {
      var init, x := remotes[..|remotes| - 1], remotes[|remotes| - 1];
      ServerLinesAsLines(init);
      assert remotes == init + [x];
      ServerLineSeqAppend(init, [x]);
      var line := "\tserver " + x + ";";
      assert ServerLineSeq([x]) == [line];
      JoinLinesAppend(ServerLineSeq(init), [line]);
      assert JoinLines([line]) == line + "\n" + "";
    }
  }

  lemma BlockAsLines(host: string, remotes: seq<string>)
    ensures Block(host, remotes) == JoinLines(BlockLines(host, remotes))
  {
    var header := "upstream " + host + " {";
    var servers := ServerLines(remotes);
    var tail := ServerLineSeq(remotes) + ["}"];
    ServerLinesAsLines(remotes);
    JoinLinesAppend(ServerLineSeq(remotes), ["}"]);
    assert JoinLines(["}"]) == "}\n";
    assert JoinLines(tail) == servers + "}\n";
    var ls := BlockLines(host, remotes);
    assert ls == [header] + tail;
    assert ls[0] == header && ls[1..] == tail;
    assert JoinLines(ls) == (header + "\n") + (servers + "}\n");
    assert " {" + "\n" == " {\n";
    ConcatAssoc("upstream " + host, " {", "\n");
    ConcatAssoc(header + "\n", servers, "}\n");
  }

  /** One more host appends its block, or nothing when it has no array. */
  lemma BlocksSnoc(hosts: seq<string>, h: string, entries: map<string, seq<string>>)
    ensures Blocks(hosts + [h], entries) == Blocks(hosts, entries) + (if h in entries then Block(h, entries[h]) else "")
  {
    assert (hosts + [h])[..|hosts|] == hosts;
  }

  lemma {:induction false} BlocksAppend(a: seq<string>, b: seq<string>, entries: map<string, seq<string>>)
    ensures Blocks(a + b, entries) == Blocks(a, entries) + Blocks(b, entries)
    decreases |b|
  {
    if b == [] {
      assert a + b == a;
    } else {
      var init, h := b[..|b| - 1], b[|b| - 1];
      BlocksAppend(a, init, entries);
      assert b == init + [h];
      assert a + b == (a + init) + [h];
      BlocksSnoc(init, h, entries);
      BlocksSnoc(a + init, h, entries);
      ConcatAssoc(Blocks(a, entries), Blocks(init, entries), if h in entries then Block(h, entries[h]) else "");
    }
  }

  lemma {:induction false} BlocksAsLines(hosts: seq<string>, entries: map<string, seq<string>>)
    ensures Blocks(hosts, entries) == JoinLines(TextLines(hosts, entries))
    decreases |hosts|
  {
    if hosts != [] {
      var h := hosts[0];
      var piece := if h in entries then Block(h, entries[h]) else "";
      BlocksAsLines(hosts[1..], entries);
      BlocksAppend([h], hosts[1..], entries);
      assert [h] + hosts[1..] == hosts;
      BlocksSnoc([], h, entries);
      assert [] + [h] == [h];
      assert Blocks([h], entries) == piece;
      var first := if h in entries then BlockLines(h, entries[h]) else [];
      assert TextLines(hosts, entries) == first + TextLines(hosts[1..], entries);
      JoinLinesAppend(first, TextLines(hosts[1..], entries));
      if h in entries {
        BlockAsLines(h, entries[h]);
      }
    }
  }

  lemma {:induction false} NewlineAtLine(l: string, rest: string)
    requires NoNewline(l)
    ensures NewlineAt(l + "\n" + rest) == |l|
    decreases |l|
  {
    if l != [] {
      assert (l + "\n" + rest)[1..] == l[1..] + "\n" + rest;
      NewlineAtLine(l[1..], rest);
    }
  }

  /** A line, its newline and the rest, taken apart again. */
  lemma LineSlices(l: string, rest: string)
    ensures |l + "\n" + rest| == |l| + 1 + |rest|
    ensures (l + "\n" + rest)[..|l|] == l
    ensures (l + "\n" + rest)[|l| + 1..] == rest
  {
  }

  /** Splitting undoes joining when no line holds a newline. */
  lemma {:induction false} SplitJoin(ls: seq<string>)
    requires forall i :: 0 <= i < |ls| ==> NoNewline(ls[i])
    ensures SplitLines(JoinLines(ls)) == ls
    decreases |ls|
  {
    if ls != [] {
      var rest := JoinLines(ls[1..]);
      var s := ls[0] + "\n" + rest;
      assert JoinLines(ls) == s;
      NewlineAtLine(ls[0], rest);
      LineSlices(ls[0], rest);
      SplitJoin(ls[1..]);
      assert SplitLines(s) == [ls[0]] + SplitLines(rest);
      assert [ls[0]] + ls[1..] == ls;
    }
  }

  lemma {:induction false} ServerLineSeqNoNewline(remotes: seq<string>)
    requires forall x :: x in remotes ==> NoNewline(x)
    ensures forall i :: 0 <= i < |ServerLineSeq(remotes)| ==> NoNewline(ServerLineSeq(remotes)[i])
    ensures |ServerLineSeq(remotes)| == |remotes|
    decreases |remotes|
  {
    if remotes != [] {
      ServerLineSeqNoNewline(remotes[1..]);
      var line := "\tserver " + remotes[0] + ";";
      assert remotes[0] in remotes;
      assert NoNewline("\tserver ") && NoNewline(";");
      assert NoNewline(line);
      var ls := ServerLineSeq(remotes);
      forall i | 0 <= i < |ls| ensures NoNewline(ls[i]) {
        if i > 0 {
          assert ls[i] == ServerLineSeq(remotes[1..])[i - 1];
        }
      }
    }
  }

  lemma {:induction false} TextLinesNoNewline(hosts: seq<string>, entries: map<string, seq<string>>)
    requires forall k :: 0 <= k < |hosts| ==> NoNewline(hosts[k])
    requires forall h, x :: h in entries && x in entries[h] ==> NoNewline(x)
    ensures forall i :: 0 <= i < |TextLines(hosts, entries)| ==> NoNewline(TextLines(hosts, entries)[i])
    decreases |hosts|
  {
    if hosts != [] {
      var h := hosts[0];
      TextLinesNoNewline(hosts[1..], entries);
      if h in entries {
        ServerLineSeqNoNewline(entries[h]);
        assert NoNewline("upstream " + h + " {");
      }
    }
  }

  lemma {:induction false} ParseServerLines(remotes: seq<string>, rest: seq<string>)
    ensures ParseServers(ServerLineSeq(remotes) + ["}"] + rest) == Some((remotes, rest))
    decreases |remotes|
  {
    var ls := ServerLineSeq(remotes) + ["}"] + rest;
    if remotes == [] {
      assert ls == ["}"] + rest;
    } else {
      var x := remotes[0];
      var line := "\tserver " + x + ";";
      assert ls[0] == line;
      assert ls[1..] == ServerLineSeq(remotes[1..]) + ["}"] + rest;
      assert line[..8] == "\tserver ";
      assert line[8..|line| - 1] == x;
      ParseServerLines(remotes[1..], rest);
      assert [x] + remotes[1..] == remotes;
    }
  }

  /** A header line built from `h` is recognised, and gives back `h`. */
  lemma HeaderParts(h: string)
    ensures IsHeader("upstream " + h + " {")
    ensures ("upstream " + h + " {")[9..|"upstream " + h + " {"| - 2] == h
  {
    var header := "upstream " + h + " {";
    assert header[..9] == "upstream ";
    assert header[|header| - 2..] == " {";
  }

  /** One block's lines followed by lines that parse: the block's host and backends come first. */
  lemma ParseBlockLines(h: string, remotes: seq<string>, rest: seq<string>, blocks: seq<(string, seq<string>)>)
    requires ParseBlocks(rest) == Some(blocks)
    ensures ParseBlocks(BlockLines(h, remotes) + rest) == Some([(h, remotes)] + blocks)
  {
    var header := "upstream " + h + " {";
    var ls := BlockLines(h, remotes) + rest;
    assert ls == [header] + (ServerLineSeq(remotes) + ["}"] + rest);
    assert ls[0] == header;
    assert ls[1..] == ServerLineSeq(remotes) + ["}"] + rest;
    HeaderParts(h);
    ParseServerLines(remotes, rest);
  }

  lemma {:induction false} ParseTextLines(hosts: seq<string>, entries: map<string, seq<string>>)
    ensures ParseBlocks(TextLines(hosts, entries)) == Some(Pairs(hosts, entries))
    decreases |hosts|
  {
    if hosts != [] {
      var h := hosts[0];
      ParseTextLines(hosts[1..], entries);
      var rest := TextLines(hosts[1..], entries);
      if h in entries {
        ParseBlockLines(h, entries[h], rest, Pairs(hosts[1..], entries));
      } else {
        assert TextLines(hosts, entries) == rest;
        assert Pairs(hosts, entries) == Pairs(hosts[1..], entries);
      }
    }
  }

  /**
    Parsing the rendered section gives back the cache: every host in key
    order, each with its backends in list order.
   */
  lemma RenderRoundTrip(cache: Cache)
    requires SingleLineNames(cache)
    ensures ParseUpstreams(Render(cache)) == Some(Pairs(cache.hosts, cache.entries))
  {
    BlocksAsLines(cache.hosts, cache.entries);
    TextLinesNoNewline(cache.hosts, cache.entries);
    SplitJoin(TextLines(cache.hosts, cache.entries));
    ParseTextLines(cache.hosts, cache.entries);
  }
}
