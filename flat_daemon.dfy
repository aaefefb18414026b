/**
  The reconciliation cycle of app.js: fetch the containers, render one
  upstream block per eligible container, write the configuration, then
  start or reload nginx. Each I/O stage's outcome is an input of the
  cycle; any failure lands in the final `.catch`, which only logs.
 */
module FlatDaemon {
  import opened JsValues
  import opened Containers
  import opened Upstream
  import opened FlatRender
  import opened NginxControl

  /** What a cycle handed to the outside world: the text given to `fs.writeFile`, and the command given to `exec`. */
  datatype Outcome = Outcome(config: Option<string>, command: Option<string>)

  class Daemon {
    const nginx: string
    const template: string
    var nginxStarted: bool

    /** `env.NGINX || "nginx"`, the template file's text, and a fresh flag. */
    constructor(nginxEnv: Option<string>, templateVhost: string)
      ensures nginx == (if Truthy(nginxEnv) then nginxEnv.value else "nginx")
      ensures template == templateVhost
      ensures !nginxStarted
    {
      nginx := if Truthy(nginxEnv) then nginxEnv.value else "nginx";
      template := templateVhost;
      nginxStarted := false;
    }

    method Cycle(fetched: Option<seq<Container>>, writeOk: bool, execOk: bool) returns (outcome: Outcome)
      modifies this`nginxStarted
      ensures outcome.config.Some? <==> fetched.Some? && Flat(fetched.value).Ok?
      ensures outcome.config.Some? ==> outcome.config.value == ConfigText(Flat(fetched.value).value, template)
      ensures fetched == Some([]) ==> outcome.config == Some("\n" + template)
      ensures outcome.command.Some? <==> outcome.config.Some? && writeOk
      ensures outcome.command.Some? ==> outcome.command.value == CommandFor(nginx, old(nginxStarted))
      ensures nginxStarted == Next(old(nginxStarted), Attempt(outcome.command.Some?, execOk))
    {
      outcome := Outcome(None, None);
      if fetched.None? {
        return;
      }
      var rendered := RenderFlat(fetched.value);
      if rendered.Err? {
        return;
      }
      var currentVhostFile := rendered.value + "\n" + template;
      if fetched.value == [] {
        assert currentVhostFile == "\n" + template;
      }
      if !writeOk {
        // `fs.writeFile` throws: the chain skips to `.catch`
        outcome := Outcome(Some(currentVhostFile), None);
        return;
      }
      var nginxCmd := nginx;
      if nginxStarted {
        nginxCmd := nginx + " -s reload";
      }
      outcome := Outcome(Some(currentVhostFile), Some(nginxCmd));
      if execOk {
        nginxStarted := true;
      }
    }
  }
}
