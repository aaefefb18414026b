/**
  The vhost cache of app/app.js: the `forEach` over the fetched containers
  that groups every eligible container's `address:port` under its
  VIRTUAL_HOST, pushing a backend only when the host's list does not hold it
  yet.

  The JavaScript `cache` is a plain object, that is, an ordered dictionary:
  `hosts` is its key order (the order in which hosts were first seen) and
  `entries` maps each key to its array.
 */
module VhostCache {
  import opened JsValues
  import opened Containers

  datatype Cache = Cache(hosts: seq<string>, entries: map<string, seq<string>>)

  const Empty := Cache([], map[])

  predicate NoDup(s: seq<string>) {
    forall i, j :: 0 <= i < j < |s| ==> s[i] != s[j]
  }

  /**
    What every cache the loop builds satisfies: the key order lists each key
    once, every list is non-empty and free of duplicates, and no key is a
    name an empty object already inherits.
   */
  ghost predicate Valid(cache: Cache) {
    && NoDup(cache.hosts)
    && (forall h :: h in cache.entries <==> h in cache.hosts)
    && (forall h :: h in cache.entries ==> cache.entries[h] != [] && NoDup(cache.entries[h]))
    && (forall h :: h in cache.entries ==> h !in InheritedNames)
  }

  /** One iteration of the `forEach` body, as a function of the cache so far. */
  function Step(cache: Cache, c: Container, ipField: string): Result<Cache> {
    match VirtualHost(c)
    case None => Ok(cache)
    case Some(h) =>
      if c.fields.None? then Err(MissingFields(c.name))
      else
        var remote := FullRemote(c.fields.value, ipField, c.environment.value);
        if h in cache.entries then
          if remote in cache.entries[h] then Ok(cache)
          else Ok(Cache(cache.hosts, cache.entries[h := cache.entries[h] + [remote]]))
        else if h in InheritedNames then Err(NotAnArray(h))
        else Ok(Cache(cache.hosts + [h], cache.entries[h := [remote]]))
  }

  /** The cache after the loop has run over `cs`, or the exception that stopped it. */
  function Build(cs: seq<Container>, ipField: string): Result<Cache>
    decreases |cs|
  {
    if cs == [] then Ok(Empty)
    else
      match Build(cs[..|cs| - 1], ipField)
      case Err(e) => Err(e)
      case Ok(cache) => Step(cache, cs[|cs| - 1], ipField)
  }

  // ---------------------------------------------------------------------------
  // Reference definitions, independent of the loop.

  /** The virtual hosts of the eligible containers, in input order, repeats kept. */
  function EligibleHosts(cs: seq<Container>): seq<string>
    decreases |cs|
  {
    if cs == [] then []
    else
      EligibleHosts(cs[..|cs| - 1]) +
      (match VirtualHost(cs[|cs| - 1]) case None => [] case Some(h) => [h])
  }

  /** The backends of the eligible containers routed as `h`, in input order, repeats kept. */
  function RemotesFor(cs: seq<Container>, ipField: string, h: string): seq<string>
    decreases |cs|
  {
    if cs == [] then []
    else
      RemotesFor(cs[..|cs| - 1], ipField, h) +
      (if VirtualHost(cs[|cs| - 1]) == Some(h) then [RemoteOf(cs[|cs| - 1], ipField)] else [])
  }

  /** The first occurrence of every element, in first-seen order. */
  function Dedup(s: seq<string>): seq<string>
    decreases |s|
  {
    if s == [] then []
    else
      var d := Dedup(s[..|s| - 1]);
      if s[|s| - 1] in d then d else d + [s[|s| - 1]]
  }

  /** A container makes the loop throw exactly when it is eligible and lacks `data.fields` or names an inherited key. */
  predicate Throws(c: Container) {
    VirtualHost(c).Some? && (c.fields.None? || VirtualHost(c).value in InheritedNames)
  }

  // ---------------------------------------------------------------------------
  // The loop itself.

  method BuildCache(containers: seq<Container>, ipField: string) returns (r: Result<Cache>)
    ensures r == Build(containers, ipField)
    ensures r.Ok? ==> Valid(r.value)
  {
    var hosts: seq<string> := [];
    var cache: map<string, seq<string>> := map[];
    var i := 0;
    while i < |containers|
      invariant 0 <= i <= |containers|
      invariant Build(containers[..i], ipField) == Ok(Cache(hosts, cache))
    {
      var container := containers[i];
      assert containers[..i + 1][..i] == containers[..i];
      var containerEnv := container.environment;
      if containerEnv.Some? && Truthy(Get(containerEnv.value, VirtualHostKey)) {
        var host := containerEnv.value[VirtualHostKey];
        if container.fields.None? {
          r := Err(MissingFields(container.name));
          ErrorSticks(containers[..i + 1], containers[i + 1..], ipField);
          assert containers[..i + 1] + containers[i + 1..] == containers;
          return;
        }
        var remoteAddress := Address(container.fields.value, ipField);
        var virtualPort := VirtualPort(containerEnv.value);
        var fullRemote := remoteAddress + ":" + virtualPort;
        if host in cache {
          if fullRemote !in cache[host] {
            cache := cache[host := cache[host] + [fullRemote]];
          }
        } else if host in InheritedNames {
          r := Err(NotAnArray(host));
          ErrorSticks(containers[..i + 1], containers[i + 1..], ipField);
          assert containers[..i + 1] + containers[i + 1..] == containers;
          return;
        } else {
          cache := cache[host := [fullRemote]];
          hosts := hosts + [host];
        }
      }
      i := i + 1;
    }
    assert containers[..i] == containers;
    r := Ok(Cache(hosts, cache));
    BuildValid(containers, ipField);
  }

  // ---------------------------------------------------------------------------
  // Properties.

  /** Once the loop has thrown, later containers do not matter: the exception is the first one raised. */
  lemma {:induction false} ErrorSticks(xs: seq<Container>, ys: seq<Container>, ipField: string)
    requires Build(xs, ipField).Err?
    ensures Build(xs + ys, ipField) == Build(xs, ipField)
    decreases |ys|
  {
    if ys != [] {
      var init := ys[..|ys| - 1];
      assert (xs + ys)[..|xs + ys| - 1] == xs + init;
      ErrorSticks(xs, init, ipField);
    } else {
      assert xs + ys == xs;
    }
  }

  /** One step keeps the cache invariant. */
  lemma StepValid(cache: Cache, c: Container, ipField: string)
    requires Valid(cache)
    requires Step(cache, c, ipField).Ok?
    ensures Valid(Step(cache, c, ipField).value)
  {
    var next := Step(cache, c, ipField).value;
    if VirtualHost(c).Some? && VirtualHost(c).value !in cache.entries {
      var h := VirtualHost(c).value;
      forall i, j | 0 <= i < j < |next.hosts| ensures next.hosts[i] != next.hosts[j] {
        if j == |cache.hosts| {
          assert next.hosts[i] == cache.hosts[i];
        }
      }
    }
  }

  /** After the loop, no list holds a backend twice, every list is non-empty, and the key order lists every key once. */
  lemma {:induction false} BuildValid(cs: seq<Container>, ipField: string)
    requires Build(cs, ipField).Ok?
    ensures Valid(Build(cs, ipField).value)
    decreases |cs|
  {
    if cs != [] {
      var init := cs[..|cs| - 1];
      BuildValid(init, ipField);
      StepValid(Build(init, ipField).value, cs[|cs| - 1], ipField);
    }
  }

  lemma {:induction false} DedupMembership(s: seq<string>, x: string)
    ensures x in Dedup(s) <==> x in s
    decreases |s|
  {
    if s != [] {
      var init := s[..|s| - 1];
      DedupMembership(init, x);
      assert s == init + [s[|s| - 1]];
    }
  }

  /** The de-duplicated sequence has no repeated element. */
  lemma {:induction false} DedupNoDup(s: seq<string>)
    ensures NoDup(Dedup(s))
    decreases |s|
  {
    if s != [] {
      var init := s[..|s| - 1];
      DedupNoDup(init);
      DedupMembership(init, s[|s| - 1]);
    }
  }

  lemma DedupSnoc(s: seq<string>, x: string)
    ensures Dedup(s + [x]) == if x in s then Dedup(s) else Dedup(s) + [x]
  {
    assert (s + [x])[..|s + [x]| - 1] == s;
    DedupMembership(s, x);
  }

  lemma EligibleHostsSnoc(cs: seq<Container>, c: Container)
    ensures EligibleHosts(cs + [c]) ==
      EligibleHosts(cs) + (match VirtualHost(c) case None => [] case Some(h) => [h])
  {
    assert (cs + [c])[..|cs + [c]| - 1] == cs;
  }

  lemma RemotesForSnoc(cs: seq<Container>, ipField: string, c: Container, h: string)
    ensures RemotesFor(cs + [c], ipField, h) ==
      RemotesFor(cs, ipField, h) + (if VirtualHost(c) == Some(h) then [RemoteOf(c, ipField)] else [])
  {
    assert (cs + [c])[..|cs + [c]| - 1] == cs;
  }

  /**
    The key order of `cache` is the hosts of `cs` in first-seen order, and
    a host is a key exactly when some eligible container of `cs` names it.
   */
  ghost predicate OrdersAs(cache: Cache, cs: seq<Container>) {
    && cache.hosts == Dedup(EligibleHosts(cs))
    && (forall h :: h in cache.entries <==> h in EligibleHosts(cs))
  }

  /**
    A host's list in `cache` is the backends of the containers of `cs` that
    name it, in first-seen order with repeats dropped.
   */
  ghost predicate GroupsAs(cache: Cache, cs: seq<Container>, ipField: string) {
    && (forall h :: h in cache.entries <==> RemotesFor(cs, ipField, h) != [])
    && (forall h :: h in cache.entries ==> cache.entries[h] == Dedup(RemotesFor(cs, ipField, h)))
    && (forall h :: h in cache.entries <==> h in EligibleHosts(cs))
  }

  lemma StepOrdersAs(cache: Cache, cs: seq<Container>, c: Container, ipField: string)
    requires OrdersAs(cache, cs)
    requires Step(cache, c, ipField).Ok?
    ensures OrdersAs(Step(cache, c, ipField).value, cs + [c])
  {
    EligibleHostsSnoc(cs, c);
    if VirtualHost(c).Some? {
      var h := VirtualHost(c).value;
      DedupSnoc(EligibleHosts(cs), h);
    } else {
      assert EligibleHosts(cs + [c]) == EligibleHosts(cs);
    }
  }

  /** Grouping, for a container whose host is already a key. */
  lemma StepGroupsAsKnownHost(cache: Cache, cs: seq<Container>, c: Container, ipField: string)
    requires GroupsAs(cache, cs, ipField)
    requires Step(cache, c, ipField).Ok?
    requires VirtualHost(c).Some? && VirtualHost(c).value in cache.entries
    ensures GroupsAs(Step(cache, c, ipField).value, cs + [c], ipField)
  {
    var next := Step(cache, c, ipField).value;
    var h, remote := VirtualHost(c).value, RemoteOf(c, ipField);
    assert remote == FullRemote(c.fields.value, ipField, c.environment.value);
    EligibleHostsSnoc(cs, c);
    DedupSnoc(RemotesFor(cs, ipField, h), remote);
    DedupMembership(RemotesFor(cs, ipField, h), remote);
    forall g ensures g in next.entries <==> RemotesFor(cs + [c], ipField, g) != []
      ensures g in next.entries ==> next.entries[g] == Dedup(RemotesFor(cs + [c], ipField, g))
      ensures g in next.entries <==> g in EligibleHosts(cs + [c])
    {
      RemotesForSnoc(cs, ipField, c, g);
      if g == h {
        assert RemotesFor(cs + [c], ipField, g) == RemotesFor(cs, ipField, h) + [remote];
        assert next.entries[h] == if remote in cache.entries[h] then cache.entries[h] else cache.entries[h] + [remote];
      } else {
        assert RemotesFor(cs + [c], ipField, g) == RemotesFor(cs, ipField, g);
      }
    }
  }

  /** Grouping, for a container whose host is not a key yet. */
  lemma StepGroupsAsNewHost(cache: Cache, cs: seq<Container>, c: Container, ipField: string)
    requires GroupsAs(cache, cs, ipField)
    requires Step(cache, c, ipField).Ok?
    requires VirtualHost(c).Some? && VirtualHost(c).value !in cache.entries
    ensures GroupsAs(Step(cache, c, ipField).value, cs + [c], ipField)
  {
    var next := Step(cache, c, ipField).value;
    var h, remote := VirtualHost(c).value, RemoteOf(c, ipField);
    assert remote == FullRemote(c.fields.value, ipField, c.environment.value);
    EligibleHostsSnoc(cs, c);
    assert RemotesFor(cs, ipField, h) == [];
    forall g ensures g in next.entries <==> RemotesFor(cs + [c], ipField, g) != []
      ensures g in next.entries ==> next.entries[g] == Dedup(RemotesFor(cs + [c], ipField, g))
      ensures g in next.entries <==> g in EligibleHosts(cs + [c])
    {
      RemotesForSnoc(cs, ipField, c, g);
      if g == h {
        assert RemotesFor(cs + [c], ipField, g) == [remote];
        DedupSnoc([], remote);
        assert next.entries[h] == [remote];
      } else {
        assert RemotesFor(cs + [c], ipField, g) == RemotesFor(cs, ipField, g);
      }
    }
  }

  lemma StepGroupsAs(cache: Cache, cs: seq<Container>, c: Container, ipField: string)
    requires GroupsAs(cache, cs, ipField)
    requires Step(cache, c, ipField).Ok?
    ensures GroupsAs(Step(cache, c, ipField).value, cs + [c], ipField)
  {
    if VirtualHost(c).None? {
      EligibleHostsSnoc(cs, c);
      assert EligibleHosts(cs + [c]) == EligibleHosts(cs);
      forall g ensures RemotesFor(cs + [c], ipField, g) == RemotesFor(cs, ipField, g) {
        RemotesForSnoc(cs, ipField, c, g);
      }
    } else if VirtualHost(c).value in cache.entries {
      StepGroupsAsKnownHost(cache, cs, c, ipField);
    } else {
      StepGroupsAsNewHost(cache, cs, c, ipField);
    }
  }

  /** The loop keeps its hosts in first-seen order. */
  lemma {:induction false} BuildOrdersAs(cs: seq<Container>, ipField: string)
    requires Build(cs, ipField).Ok?
    ensures OrdersAs(Build(cs, ipField).value, cs)
    decreases |cs|
  {
    if cs != [] {
      var init, c := cs[..|cs| - 1], cs[|cs| - 1];
      assert cs == init + [c];
      BuildOrdersAs(init, ipField);
      StepOrdersAs(Build(init, ipField).value, init, c, ipField);
    }
  }

  /** The loop computes the reference grouping of its input. */
  lemma {:induction false} BuildGroupsAs(cs: seq<Container>, ipField: string)
    requires Build(cs, ipField).Ok?
    ensures GroupsAs(Build(cs, ipField).value, cs, ipField)
    decreases |cs|
  {
    if cs != [] {
      var init, c := cs[..|cs| - 1], cs[|cs| - 1];
      assert cs == init + [c];
      BuildGroupsAs(init, ipField);
      StepGroupsAs(Build(init, ipField).value, init, c, ipField);
    }
  }

  // ---------------------------------------------------------------------------
  // Consequences for callers.

  lemma {:induction false} RemotesForMembership(cs: seq<Container>, ipField: string, h: string, x: string)
    ensures x in RemotesFor(cs, ipField, h) <==>
      exists i :: 0 <= i < |cs| && VirtualHost(cs[i]) == Some(h) && RemoteOf(cs[i], ipField) == x
    decreases |cs|
  {
    if cs != [] {
      var init, c := cs[..|cs| - 1], cs[|cs| - 1];
      RemotesForMembership(init, ipField, h, x);
      if x in RemotesFor(cs, ipField, h) && x !in RemotesFor(init, ipField, h) {
        assert VirtualHost(cs[|cs| - 1]) == Some(h) && RemoteOf(cs[|cs| - 1], ipField) == x;
      }
      if i :| 0 <= i < |cs| && VirtualHost(cs[i]) == Some(h) && RemoteOf(cs[i], ipField) == x {
        if i < |init| {
          assert init[i] == cs[i];
        }
      }
    }
  }

  lemma StepThrows(cache: Cache, c: Container, ipField: string)
    requires Valid(cache)
    ensures Step(cache, c, ipField).Err? <==> Throws(c)
  {
  }

  /**
    The loop runs to completion exactly when no eligible container lacks
    `data.fields` and none names a member every object inherits.
   */
  lemma {:induction false} BuildSucceedsIff(cs: seq<Container>, ipField: string)
    ensures Build(cs, ipField).Ok? <==> forall i :: 0 <= i < |cs| ==> !Throws(cs[i])
    decreases |cs|
  {
    if cs != [] {
      var init := cs[..|cs| - 1];
      BuildSucceedsIff(init, ipField);
      if Build(init, ipField).Ok? {
        BuildValid(init, ipField);
        StepThrows(Build(init, ipField).value, cs[|cs| - 1], ipField);
      }
      if forall i :: 0 <= i < |cs| ==> !Throws(cs[i]) {
        assert forall i :: 0 <= i < |init| ==> !Throws(init[i]) by {
          forall i | 0 <= i < |init| ensures !Throws(init[i]) {
            assert init[i] == cs[i];
          }
        }
      } else {
        var k :| 0 <= k < |cs| && Throws(cs[k]);
        if k < |init| {
          assert init[k] == cs[k];
        }
      }
    }
  }

  /** Every backend in the cache came from an eligible container routed as that host. */
  lemma CacheSound(cs: seq<Container>, ipField: string, h: string, x: string)
    requires Build(cs, ipField).Ok?
    requires h in Build(cs, ipField).value.entries && x in Build(cs, ipField).value.entries[h]
    ensures exists i :: 0 <= i < |cs| && VirtualHost(cs[i]) == Some(h) && RemoteOf(cs[i], ipField) == x
  {
    BuildGroupsAs(cs, ipField);
    DedupMembership(RemotesFor(cs, ipField, h), x);
    RemotesForMembership(cs, ipField, h, x);
  }

  /** Every eligible container's backend is listed under its host. */
  lemma CacheComplete(cs: seq<Container>, ipField: string, i: nat)
    requires Build(cs, ipField).Ok?
    requires i < |cs| && VirtualHost(cs[i]).Some?
    ensures VirtualHost(cs[i]).value in Build(cs, ipField).value.entries
    ensures RemoteOf(cs[i], ipField) in Build(cs, ipField).value.entries[VirtualHost(cs[i]).value]
  {
    var h, x := VirtualHost(cs[i]).value, RemoteOf(cs[i], ipField);
    BuildGroupsAs(cs, ipField);
    RemotesForMembership(cs, ipField, h, x);
    DedupMembership(RemotesFor(cs, ipField, h), x);
  }

  /**
    Each entry is exactly `address + ":" + port`: the address is the
    configured field, or "undefined" when it is missing; the port is
    VIRTUAL_PORT when it is non-empty, or 80.
   */
  lemma EntryShape(cs: seq<Container>, ipField: string, i: nat)
    requires Build(cs, ipField).Ok?
    requires i < |cs| && VirtualHost(cs[i]).Some?
    ensures cs[i].fields.Some? && cs[i].environment.Some?
    ensures VirtualHost(cs[i]).value in Build(cs, ipField).value.entries
    ensures
      var fields, env := cs[i].fields.value, cs[i].environment.value;
      (if ipField in fields then fields[ipField] else "undefined") + ":" +
      (if VirtualPortKey in env && env[VirtualPortKey] != "" then env[VirtualPortKey] else "80")
        in Build(cs, ipField).value.entries[VirtualHost(cs[i]).value]
  {
    BuildSucceedsIff(cs, ipField);
    CacheComplete(cs, ipField, i);
  }

  /**
    A container without the configured address field is not skipped: its
    host lists the backend "undefined:<port>".
   */
  lemma MissingAddressNotSkipped(cs: seq<Container>, ipField: string, i: nat)
    requires Build(cs, ipField).Ok?
    requires i < |cs| && VirtualHost(cs[i]).Some?
    requires cs[i].fields.Some? && ipField !in cs[i].fields.value
    ensures VirtualHost(cs[i]).value in Build(cs, ipField).value.entries
    ensures "undefined:" + VirtualPort(cs[i].environment.value)
      in Build(cs, ipField).value.entries[VirtualHost(cs[i]).value]
  {
    CacheComplete(cs, ipField, i);
    assert RemoteOf(cs[i], ipField) == "undefined:" + VirtualPort(cs[i].environment.value);
  }

  /** A container without a truthy VIRTUAL_HOST changes nothing, wherever it stands in the input. */
  lemma {:induction false} IneligibleContributesNothing(xs: seq<Container>, c: Container, ys: seq<Container>, ipField: string)
    requires VirtualHost(c).None?
    ensures Build(xs + [c] + ys, ipField) == Build(xs + ys, ipField)
    decreases |ys|
  {
    if ys == [] {
      assert xs + [c] + ys == xs + [c];
      assert (xs + [c])[..|xs + [c]| - 1] == xs;
      assert xs + ys == xs;
    } else {
      var init, y := ys[..|ys| - 1], ys[|ys| - 1];
      IneligibleContributesNothing(xs, c, init, ipField);
      assert (xs + [c] + ys)[..|xs + [c] + ys| - 1] == xs + [c] + init;
      assert (xs + ys)[..|xs + ys| - 1] == xs + init;
      assert (xs + [c] + ys)[|xs + [c] + ys| - 1] == y == (xs + ys)[|xs + ys| - 1];
    }
  }

  /**
    Feeding the loop containers it has already seen leaves the cache as it
    was: their backends are found by `indexOf` and nothing is pushed.
   */
  lemma {:induction false} RepeatIsNoop(cs: seq<Container>, ys: seq<Container>, ipField: string)
    requires Build(cs, ipField).Ok?
    requires forall j :: 0 <= j < |ys| ==> ys[j] in cs
    ensures Build(cs + ys, ipField) == Build(cs, ipField)
    decreases |ys|
  {
    if ys == [] {
      assert cs + ys == cs;
    } else {
      var init, y := ys[..|ys| - 1], ys[|ys| - 1];
      RepeatIsNoop(cs, init, ipField);
      assert (cs + ys)[..|cs + ys| - 1] == cs + init;
      assert (cs + ys)[|cs + ys| - 1] == y;
      var i :| 0 <= i < |cs| && cs[i] == y;
      if VirtualHost(y).Some? {
        BuildSucceedsIff(cs, ipField);
        CacheComplete(cs, ipField, i);
      }
    }
  }

  /**
    A container whose host is already a key and whose `address:port` is
    already in that host's list pushes nothing, whichever record it is:
    `indexOf` finds the string.
   */
  lemma KnownRemoteIsNoop(cs: seq<Container>, c: Container, ipField: string)
    requires Build(cs, ipField).Ok?
    requires VirtualHost(c).Some? && c.fields.Some?
    requires VirtualHost(c).value in Build(cs, ipField).value.entries
    requires RemoteOf(c, ipField) in Build(cs, ipField).value.entries[VirtualHost(c).value]
    ensures Build(cs + [c], ipField) == Build(cs, ipField)
  {
    assert (cs + [c])[..|cs + [c]| - 1] == cs;
  }

  /** Running the loop over the same list twice gives the cache of running it once. */
  lemma BuildTwice(cs: seq<Container>, ipField: string)
    ensures Build(cs + cs, ipField) == Build(cs, ipField)
  {
    if Build(cs, ipField).Err? {
      ErrorSticks(cs, cs, ipField);
    } else {
      RepeatIsNoop(cs, cs, ipField);
    }
  }
}
