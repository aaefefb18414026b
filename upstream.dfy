/**
  Rendering the vhost cache of app/app.js into nginx `upstream` blocks, and
  the configuration file both iterations write: the rendered blocks, a blank
  line, then the static template.
 */
module Upstream {
  import opened JsValues
  import opened VhostCache

  /** One `server` directive of an upstream block. */
  function ServerLine(remote: string): string {
    "\tserver " + remote + ";\n"
  }

  /** The `server` directives for `remotes`, one per element, in order. */
  function ServerLines(remotes: seq<string>): string
    decreases |remotes|
  {
    if remotes == [] then ""
    else ServerLines(remotes[..|remotes| - 1]) + ServerLine(remotes[|remotes| - 1])
  }

  /** `upstream <host> {`, its `server` lines, and the closing brace. */
  function Block(host: string, remotes: seq<string>): string {
    "upstream " + host + " {\n" + ServerLines(remotes) + "}\n"
  }

  /** The blocks of the hosts in `hosts`, in that order; a host without an array contributes nothing. */
  function Blocks(hosts: seq<string>, entries: map<string, seq<string>>): string
    decreases |hosts|
  {
    if hosts == [] then ""
    else
      var h := hosts[|hosts| - 1];
      Blocks(hosts[..|hosts| - 1], entries) + (if h in entries then Block(h, entries[h]) else "")
  }

  /** The upstream section for a cache: one block per key, in key order. */
  function Render(cache: Cache): string {
    Blocks(cache.hosts, cache.entries)
  }

  /** `upstream + "\n" + templateVhost`: the written file is the rendered section, a newline, then the template unchanged. */
  function ConfigText(upstream: string, template: string): (text: string)
    ensures |text| == |upstream| + 1 + |template|
    ensures text[..|upstream|] == upstream
    ensures text[|upstream|] == '\n'
    ensures text[|upstream| + 1..] == template
  {
    upstream + "\n" + template
  }

  /** Some key of the cache has an array with at least one backend. */
  ghost predicate HasServer(cache: Cache) {
    exists k :: 0 <= k < |cache.hosts| && cache.hosts[k] in cache.entries && cache.entries[cache.hosts[k]] != []
  }

  /**
    The `for..in` loop over the cache with the nested `forEach`, with the
    `server` line built from `remote`, the element being visited.
   */
  method RenderUpstreams(cache: Cache) returns (currentVhostFile: string)
    ensures currentVhostFile == Render(cache)
    ensures cache.hosts == [] ==> currentVhostFile == ""
  {
    currentVhostFile := "";
    var i := 0;
    while i < |cache.hosts|
      invariant 0 <= i <= |cache.hosts|
      invariant currentVhostFile == Blocks(cache.hosts[..i], cache.entries)
    {
      var host := cache.hosts[i];
      assert cache.hosts[..i + 1][..i] == cache.hosts[..i];
      if host in cache.entries {
        var fullRemotes := cache.entries[host];
        ghost var before := currentVhostFile;
        currentVhostFile := currentVhostFile + "upstream " + host + " {\n";
        var j := 0;
        while j < |fullRemotes|
          invariant 0 <= j <= |fullRemotes|
          invariant currentVhostFile == before + ("upstream " + host + " {\n" + ServerLines(fullRemotes[..j]))
        {
          var remote := fullRemotes[j];
          assert fullRemotes[..j + 1][..j] == fullRemotes[..j];
          currentVhostFile := currentVhostFile + "\tserver " + remote + ";\n";
          j := j + 1;
        }
        assert fullRemotes[..j] == fullRemotes;
        currentVhostFile := currentVhostFile + "}\n";
      }
      i := i + 1;
    }
    assert cache.hosts[..i] == cache.hosts;
  }

  /**
    The same loop as app/app.js writes it: the `forEach` callback reads
    `fullRemote`, a variable of another function, so its first call throws
    a ReferenceError. Rendering therefore fails exactly when some host has a
    backend, which every cache the vhost loop builds from a non-empty
    selection does.
   */
  method RenderAsWritten(cache: Cache) returns (r: Result<string>)
    ensures r.Err? <==> HasServer(cache)
    ensures r.Err? ==> r.error == UndefinedVariable("fullRemote")
    ensures r.Ok? ==> r.value == Render(cache)
    ensures Valid(cache) && cache.hosts != [] ==> r.Err?
  {
    var currentVhostFile := "";
    var i := 0;
    while i < |cache.hosts|
      invariant 0 <= i <= |cache.hosts|
      invariant currentVhostFile == Blocks(cache.hosts[..i], cache.entries)
      invariant forall k :: 0 <= k < i && cache.hosts[k] in cache.entries ==> cache.entries[cache.hosts[k]] == []
    {
      var host := cache.hosts[i];
      assert cache.hosts[..i + 1][..i] == cache.hosts[..i];
      if host in cache.entries {
        var fullRemotes := cache.entries[host];
        currentVhostFile := currentVhostFile + "upstream " + host + " {\n";
        if fullRemotes != [] {
          // first call of the forEach callback: `fullRemote` is not in scope
          return Err(UndefinedVariable("fullRemote"));
        }
        assert ServerLines(fullRemotes) == "";
        currentVhostFile := currentVhostFile + "}\n";
      }
      i := i + 1;
    }
    assert cache.hosts[..i] == cache.hosts;
    r := Ok(currentVhostFile);
  }
}
