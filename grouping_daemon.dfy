/**
  The reconciliation cycle of app/app.js: fetch the containers, group them
  into the vhost cache, look at cache.json, render the upstream blocks,
  write the configuration, then start or reload nginx. Each I/O stage's
  outcome is an input of the cycle; any failure lands in the final
  `.catch`, which only logs.
 */
module GroupingDaemon {
  import opened JsValues
  import opened Containers
  import opened VhostCache
  import opened Upstream
  import opened NginxControl

  /** What `fs.statSync("cache.json")` and the read after it find. */
  datatype CacheFile =
    | Parsed      // a file, read and parsed: `.spread` receives `[cache, parsed]`
    | Unreadable  // a file, but `readFile` or `JSON.parse` rejects
    | Missing     // `statSync` throws: `.spread` receives `[cache, {}]`
    | NotAFile    // the callback returns `undefined`, which `.spread` cannot spread

  /** The cases in which `.spread` calls its callback; the parsed value itself is never used. */
  predicate Spreads(f: CacheFile) {
    f.Parsed? || f.Missing?
  }

  /** What a cycle handed to the outside world: the text given to `fs.writeFile`, and the command given to `exec`. */
  datatype Outcome = Outcome(config: Option<string>, command: Option<string>)

  class Daemon {
    const nginx: string
    const ipField: string
    const template: string
    var nginxStarted: bool

    /** `env.NGINX_CMD || "nginx"`, `env.IP_FIELD || "dockerIp"`, the template file's text, and a fresh flag. */
    constructor(nginxCmdEnv: Option<string>, ipFieldEnv: Option<string>, templateVhost: string)
      ensures nginx == (if Truthy(nginxCmdEnv) then nginxCmdEnv.value else "nginx")
      ensures ipField == (if Truthy(ipFieldEnv) then ipFieldEnv.value else "dockerIp")
      ensures template == templateVhost
      ensures !nginxStarted
    {
      nginx := if Truthy(nginxCmdEnv) then nginxCmdEnv.value else "nginx";
      ipField := if Truthy(ipFieldEnv) then ipFieldEnv.value else "dockerIp";
      template := templateVhost;
      nginxStarted := false;
    }

    /** The tail of the chain: write `upstream + "\n" + template`, run the chosen command, set the flag once it resolves. */
    method Apply(upstream: string, writeOk: bool, execOk: bool) returns (outcome: Outcome)
      modifies this`nginxStarted
      ensures outcome.config == Some(ConfigText(upstream, template))
      ensures outcome.command.Some? <==> writeOk
      ensures outcome.command.Some? ==> outcome.command.value == CommandFor(nginx, old(nginxStarted))
      ensures nginxStarted == Next(old(nginxStarted), Attempt(outcome.command.Some?, execOk))
    {
      var currentVhostFile := upstream + "\n" + template;
      if !writeOk {
        // `fs.writeFile` throws: the chain skips to `.catch`
        return Outcome(Some(currentVhostFile), None);
      }
      var nginxCmd := nginx;
      if nginxStarted {
        nginxCmd := nginx + " -s reload";
      }
      outcome := Outcome(Some(currentVhostFile), Some(nginxCmd));
      if execOk {
        nginxStarted := true;
      }
    }

    /** One cycle, with the `server` lines built from `remote`. */
    method Cycle(fetched: Option<seq<Container>>, cacheFile: CacheFile, writeOk: bool, execOk: bool)
      returns (outcome: Outcome)
      modifies this`nginxStarted
      ensures outcome.config.Some? <==> fetched.Some? && Build(fetched.value, ipField).Ok? && Spreads(cacheFile)
      ensures outcome.config.Some? ==>
        outcome.config.value == ConfigText(Render(Build(fetched.value, ipField).value), template)
      ensures fetched == Some([]) && Spreads(cacheFile) ==> outcome.config == Some("\n" + template)
      ensures outcome.command.Some? <==> outcome.config.Some? && writeOk
      ensures outcome.command.Some? ==> outcome.command.value == CommandFor(nginx, old(nginxStarted))
      ensures nginxStarted == Next(old(nginxStarted), Attempt(outcome.command.Some?, execOk))
    {
      outcome := Outcome(None, None);
      if fetched.None? {
        return;
      }
      var built := BuildCache(fetched.value, ipField);
      if built.Err? || !Spreads(cacheFile) {
        return;
      }
      var upstream := RenderUpstreams(built.value);
      if fetched.value == [] {
        assert ConfigText(upstream, template) == "\n" + template;
      }
      outcome := Apply(upstream, writeOk, execOk);
    }

    /**
      One cycle as app/app.js is written: rendering reads the out-of-scope
      `fullRemote`, so as soon as one container is eligible nothing is
      written, no command runs and the flag stays as it was.
     */
    method CycleAsWritten(fetched: Option<seq<Container>>, cacheFile: CacheFile, writeOk: bool, execOk: bool)
      returns (outcome: Outcome)
      modifies this`nginxStarted
      ensures fetched.Some? && EligibleHosts(fetched.value) != [] ==>
        outcome == Outcome(None, None) && nginxStarted == old(nginxStarted)
      ensures outcome.config.Some? <==>
        fetched.Some? && Build(fetched.value, ipField).Ok? && Spreads(cacheFile) && EligibleHosts(fetched.value) == []
      ensures outcome.config.Some? ==> outcome.config.value == "\n" + template
      ensures outcome.command.Some? <==> outcome.config.Some? && writeOk
      ensures outcome.command.Some? ==> outcome.command.value == CommandFor(nginx, old(nginxStarted))
      ensures nginxStarted == Next(old(nginxStarted), Attempt(outcome.command.Some?, execOk))
    {
      outcome := Outcome(None, None);
      if fetched.None? {
        return;
      }
      var built := BuildCache(fetched.value, ipField);
      if built.Err? || !Spreads(cacheFile) {
        return;
      }
      BuildOrdersAs(fetched.value, ipField);
      DedupMembership(EligibleHosts(fetched.value), if EligibleHosts(fetched.value) == [] then "" else EligibleHosts(fetched.value)[0]);
      if EligibleHosts(fetched.value) == [] {
        assert built.value.hosts == Dedup([]) == [];
        assert Render(built.value) == "";
      }
      var rendered := RenderAsWritten(built.value);
      if rendered.Err? {
        return;
      }
      outcome := Apply(rendered.value, writeOk, execOk);
    }
  }
}
