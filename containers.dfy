/**
  Container records as the metadata service returns them, and the values the
  daemon reads off one record: the virtual host it asks to be routed as, its
  port and its address.
 */
module Containers {
  import opened JsValues

  /**
    One element of `containers.data`. `environment` is `None` when the record
    has no `environment` object; `fields` is `None` when `data.fields` is
    missing (reading a property of it then throws).
   */
  datatype Container = Container(
    name: string,
    environment: Option<map<string, string>>,
    fields: Option<map<string, string>>)

  const VirtualHostKey := "VIRTUAL_HOST"
  const VirtualPortKey := "VIRTUAL_PORT"
  const DefaultPort := "80"

  /** The field of `data.fields` that app.js reads the address from. */
  const DockerIpField := "dockerIp"

  /**
    `env && env.VIRTUAL_HOST`: the host a container is routed as, or `None`
    when it has no environment or no non-empty VIRTUAL_HOST.
   */
  function VirtualHost(c: Container): (h: Option<string>)
    ensures h.Some? <==>
      c.environment.Some? && VirtualHostKey in c.environment.value && c.environment.value[VirtualHostKey] != ""
    ensures h.Some? ==> h.value == c.environment.value[VirtualHostKey]
  {
    match c.environment
    case None => None
    case Some(env) => if Truthy(Get(env, VirtualHostKey)) then Get(env, VirtualHostKey) else None
  }

  /** `env.VIRTUAL_PORT || 80`: an absent or empty VIRTUAL_PORT falls back to 80. */
  function VirtualPort(env: map<string, string>): (p: string)
    ensures VirtualPortKey in env && env[VirtualPortKey] != "" ==> p == env[VirtualPortKey]
    ensures VirtualPortKey !in env || env[VirtualPortKey] == "" ==> p == "80"
    ensures p != ""
  {
    var port := Get(env, VirtualPortKey);
    if Truthy(port) then port.value else DefaultPort
  }

  /** `fields[ipField]` in string context: a missing field reads as "undefined". */
  function Address(fields: map<string, string>, ipField: string): (a: string)
    ensures ipField !in fields ==> a == "undefined"
    ensures ipField in fields ==> a == fields[ipField]
  {
    ToJsString(Get(fields, ipField))
  }

  /** `remoteAddress + ":" + virtualPort`, the backend a container contributes. */
  function FullRemote(fields: map<string, string>, ipField: string, env: map<string, string>): string {
    Address(fields, ipField) + ":" + VirtualPort(env)
  }

  /**
    The backend of a container, with an absent `fields` or `environment`
    read as an empty object; it agrees with `FullRemote` whenever both are
    present, which is the only case in which the daemon uses it.
   */
  function RemoteOf(c: Container, ipField: string): string {
    FullRemote(
      if c.fields.Some? then c.fields.value else map[],
      ipField,
      if c.environment.Some? then c.environment.value else map[])
  }
}
