/**
  The upstream section app.js renders: one block per container with a
  truthy VIRTUAL_HOST, in input order, with no grouping and no
  de-duplication. Every record's `data.fields.dockerIp` is read before its
  environment is looked at.
 */
module FlatRender {
  import opened JsValues
  import opened Containers
  import opened Upstream
  import VhostCache

  /** The text app.js appends for one eligible container. */
  function FlatBlock(host: string, address: string, port: string): string {
    "upstream " + host + " {\n\tserver " + address + ":" + port + ";\n}\n"
  }

  /** One iteration of the `forEach`: read `data.fields` first, then append the block when VIRTUAL_HOST is truthy. */
  function FlatStep(before: Result<string>, c: Container): Result<string> {
    match before
    case Err(e) => Err(e)
    case Ok(text) =>
      if c.fields.None? then Err(MissingFields(c.name))
      else
        match VirtualHost(c)
        case None => Ok(text)
        case Some(h) => Ok(text + FlatBlock(h, Address(c.fields.value, DockerIpField), VirtualPort(c.environment.value)))
  }

  /** The upstream section after the `forEach` has run over `cs`, or the exception that stopped it. */
  function Flat(cs: seq<Container>): Result<string>
    decreases |cs|
  {
    if cs == [] then Ok("") else FlatStep(Flat(cs[..|cs| - 1]), cs[|cs| - 1])
  }

  /** Sequencing two runs of the loop: the first exception wins, otherwise the texts are concatenated. */
  function Then(a: Result<string>, b: Result<string>): Result<string> {
    if a.Err? then a else if b.Err? then b else Ok(a.value + b.value)
  }

  method RenderFlat(data: seq<Container>) returns (r: Result<string>)
    ensures r == Flat(data)
  {
    var currentVhostFile := "";
    var idx := 0;
    while idx < |data|
      invariant 0 <= idx <= |data|
      invariant Flat(data[..idx]) == Ok(currentVhostFile)
    {
      var el := data[idx];
      assert data[..idx + 1][..idx] == data[..idx];
      var env := el.environment;
      if el.fields.None? {
        // `el.data.fields.dockerIp` throws before the environment is checked
        r := Err(MissingFields(el.name));
        FlatErrSticks(data[..idx + 1], data[idx + 1..]);
        assert data[..idx + 1] + data[idx + 1..] == data;
        return;
      }
      var remoteAddress := Address(el.fields.value, DockerIpField);
      if env.Some? && Truthy(Get(env.value, VirtualHostKey)) {
        var virtualPort := VirtualPort(env.value);
        currentVhostFile := currentVhostFile + ("upstream " + env.value[VirtualHostKey] + " {\n\tserver "
          + remoteAddress + ":" + virtualPort + ";\n}\n");
      }
      idx := idx + 1;
    }
    assert data[..idx] == data;
    r := Ok(currentVhostFile);
  }

  // ---------------------------------------------------------------------------
  // Properties.

  /** app.js's one-container block is the block app/app.js renders for a one-element list. */
  lemma FlatBlockIsBlock(host: string, address: string, port: string)
    ensures FlatBlock(host, address, port) == Block(host, [address + ":" + port])
  {
    assert ServerLines([address + ":" + port]) == ServerLine(address + ":" + port) by {
      assert [address + ":" + port][..0] == [];
    }
  }

  lemma {:induction false} FlatErrSticks(xs: seq<Container>, ys: seq<Container>)
    requires Flat(xs).Err?
    ensures Flat(xs + ys) == Flat(xs)
    decreases |ys|
  {
    if ys == [] {
      assert xs + ys == xs;
    } else {
      assert (xs + ys)[..|xs + ys| - 1] == xs + ys[..|ys| - 1];
      FlatErrSticks(xs, ys[..|ys| - 1]);
    }
  }

  /** What one container contributes: an exception without `data.fields`, else its block when it is eligible. */
  lemma FlatOne(c: Container)
    ensures c.fields.None? ==> Flat([c]) == Err(MissingFields(c.name))
    ensures c.fields.Some? && VirtualHost(c).None? ==> Flat([c]) == Ok("")
    ensures c.fields.Some? && VirtualHost(c).Some? ==>
      Flat([c]) == Ok(Block(VirtualHost(c).value, [RemoteOf(c, DockerIpField)]))
  {
    assert [c][..0] == [];
    if c.fields.Some? && VirtualHost(c).Some? {
      FlatBlockIsBlock(VirtualHost(c).value, Address(c.fields.value, DockerIpField), VirtualPort(c.environment.value));
      assert RemoteOf(c, DockerIpField) == Address(c.fields.value, DockerIpField) + ":" + VirtualPort(c.environment.value);
      var block := FlatBlock(VirtualHost(c).value, Address(c.fields.value, DockerIpField), VirtualPort(c.environment.value));
      assert Flat([c]) == Ok("" + block);
      assert "" + block == block;
    }
  }

  lemma FlatSnoc(cs: seq<Container>, y: Container)
    ensures Flat(cs + [y]) == FlatStep(Flat(cs), y)
  {
    assert (cs + [y])[..|cs|] == cs;
  }

  /** Running one more container after a sequenced pair is sequencing it after the second part. */
  lemma ThenStep(a: Result<string>, b: Result<string>, y: Container)
    ensures Then(a, FlatStep(b, y)) == FlatStep(Then(a, b), y)
  {
    if a.Ok? && b.Ok? && y.fields.Some? && VirtualHost(y).Some? {
      var block := FlatBlock(VirtualHost(y).value, Address(y.fields.value, DockerIpField), VirtualPort(y.environment.value));
      ConcatAssoc(a.value, b.value, block);
    }
  }

  /** The output for a concatenation is the concatenation of the outputs: one block per container, in input order. */
  lemma {:induction false} FlatAppend(xs: seq<Container>, ys: seq<Container>)
    ensures Flat(xs + ys) == Then(Flat(xs), Flat(ys))
    decreases |ys|
  {
    if ys == [] {
      assert xs + ys == xs;
      if Flat(xs).Ok? {
        assert Flat(xs).value + "" == Flat(xs).value;
      }
    } else if Flat(xs).Err? {
      FlatErrSticks(xs, ys);
    } else {
      var init, y := ys[..|ys| - 1], ys[|ys| - 1];
      FlatAppend(xs, init);
      assert ys == init + [y];
      assert xs + ys == (xs + init) + [y];
      FlatSnoc(init, y);
      FlatSnoc(xs + init, y);
      ThenStep(Flat(xs), Flat(init), y);
    }
  }

  /** The cycle aborts exactly when some record, eligible or not, lacks `data.fields`. */
  lemma {:induction false} FlatFailsIff(cs: seq<Container>)
    ensures Flat(cs).Err? <==> exists i :: 0 <= i < |cs| && cs[i].fields.None?
    decreases |cs|
  {
    if cs != [] {
      var init := cs[..|cs| - 1];
      FlatFailsIff(init);
      if i :| 0 <= i < |init| && init[i].fields.None? {
        assert cs[i] == init[i];
      }
      if i :| 0 <= i < |cs| && cs[i].fields.None? {
        if i < |init| {
          assert init[i] == cs[i];
        }
      }
    }
  }

  /** Two identical eligible records give two identical blocks: nothing is de-duplicated. */
  lemma FlatNoDedup(c: Container)
    requires c.fields.Some? && VirtualHost(c).Some?
    ensures Flat([c, c]) == Ok(Block(VirtualHost(c).value, [RemoteOf(c, DockerIpField)]) +
                              Block(VirtualHost(c).value, [RemoteOf(c, DockerIpField)]))
  {
    FlatOne(c);
    FlatAppend([c], [c]);
    assert [c] + [c] == [c, c];
  }

  lemma {:induction false} BlocksFrame(hosts: seq<string>, entries: map<string, seq<string>>, h: string, v: seq<string>)
    requires h !in hosts
    ensures Blocks(hosts, entries[h := v]) == Blocks(hosts, entries)
    decreases |hosts|
  {
    if hosts != [] {
      BlocksFrame(hosts[..|hosts| - 1], entries, h, v);
    }
  }

  /**
    When no two eligible containers share a virtual host, the grouping
    iteration (reading the address from `dockerIp`) renders exactly what
    app.js renders.
   */
  lemma {:induction false} FlatAgreesWithGrouping(cs: seq<Container>)
    requires forall i :: 0 <= i < |cs| ==> cs[i].fields.Some?
    requires forall i :: 0 <= i < |cs| ==> !VhostCache.Throws(cs[i])
    requires VhostCache.NoDup(VhostCache.EligibleHosts(cs))
    ensures VhostCache.Build(cs, DockerIpField).Ok?
    ensures Flat(cs) == Ok(Render(VhostCache.Build(cs, DockerIpField).value))
    decreases |cs|
  {
    VhostCache.BuildSucceedsIff(cs, DockerIpField);
    if cs != [] {
      var init, c := cs[..|cs| - 1], cs[|cs| - 1];
      assert cs == init + [c];
      VhostCache.EligibleHostsSnoc(init, c);
      assert VhostCache.NoDup(VhostCache.EligibleHosts(init)) by {
        var e := VhostCache.EligibleHosts(init);
        forall i, j | 0 <= i < j < |e| ensures e[i] != e[j] {
          assert VhostCache.EligibleHosts(cs)[i] == e[i] && VhostCache.EligibleHosts(cs)[j] == e[j];
        }
      }
      FlatAgreesWithGrouping(init);
      var cache := VhostCache.Build(init, DockerIpField).value;
      if VirtualHost(c).Some? {
        var h := VirtualHost(c).value;
        var e := VhostCache.EligibleHosts(init);
        assert h !in e by {
          forall k | 0 <= k < |e| ensures e[k] != h {
            assert VhostCache.EligibleHosts(cs)[k] == e[k];
            assert VhostCache.EligibleHosts(cs)[|e|] == h;
          }
        }
        VhostCache.BuildOrdersAs(init, DockerIpField);
        VhostCache.DedupMembership(e, h);
        assert h !in cache.hosts;
        var remote := RemoteOf(c, DockerIpField);
        BlocksFrame(cache.hosts, cache.entries, h, [remote]);
        FlatBlockIsBlock(h, Address(c.fields.value, DockerIpField), VirtualPort(c.environment.value));
        assert (cache.hosts + [h])[..|cache.hosts|] == cache.hosts;
      }
    }
  }
}
