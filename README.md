# nginx-rancher-rp reconciliation step, modelled in Dafny

The daemon polls the Rancher metadata service for its containers. From
every container whose environment sets `VIRTUAL_HOST`, it writes nginx
`upstream` blocks in front of a static vhost template, then starts nginx
(the first time) or reloads it (afterwards). The repository holds two
iterations of this step, and both are modelled:

- **app/app.js** groups containers by virtual host in a cache (a JavaScript
  object of arrays). A backend `address:port` is pushed only when its host's
  array does not hold it yet. The cache is then rendered one block per host,
  after a check of `cache.json`.
- **app.js** renders one block per eligible container, in input order, with
  no grouping.

In both, a module-level `nginxStarted` flag picks the command
(`nginx`, or `nginx -s reload`). The flag becomes true only when the
command's promise resolves; any failure ends in the chain's `.catch`.

Files and modules:

- `js_values.dfy` (`JsValues`): the JavaScript value notions used:
  `undefined` as `Option`, exceptions as `Result`, string truthiness, and the
  names a plain object inherits.
- `containers.dfy` (`Containers`): container records, and the virtual host,
  port and address read off one.
- `vhost_cache.dfy` (`VhostCache`): the cache-building loop of app/app.js.
  It is an imperative method, proved equal to a per-container fold. That
  fold's properties are proved against a reference grouping that does not
  use the loop.
- `upstream.dfy` (`Upstream`): rendering the cache (the corrected loop and
  the loop as written) and the final file text.
- `upstream_text.dfy` (`UpstreamText`): a parser for the rendered section,
  and the proof that parsing gives the cache back.
- `flat_render.dfy` (`FlatRender`): the per-container rendering of app.js.
- `nginx_control.dfy` (`NginxControl`): the start/reload choice and the flag
  over any sequence of cycles.
- `grouping_daemon.dfy` (`GroupingDaemon`) and `flat_daemon.dfy`
  (`FlatDaemon`): one class per iteration. Each holds `nginxStarted`, and
  its `Cycle` method takes the outcome of every I/O stage as input.

How the model reads the JavaScript:

- The JavaScript `cache` object is an ordered dictionary. `Cache.hosts` is
  its key order, and `Cache.entries` maps each key to its array.
- `cache[h]` for a host named like an inherited member of `Object.prototype`
  (`constructor`, `toString`, `__proto__`, …) is truthy although never
  assigned. Calling `.indexOf` on it then throws. The model returns
  `Err(NotAnArray(h))` for such a host.
- A record without `data.fields` throws when the address is read. app/app.js
  reads it only for eligible containers; app.js reads it for every container.
- A missing address field reads as the string `undefined`.
- A `VIRTUAL_PORT` that is absent or empty gives `80`.

The model follows the code in four points where a reader might expect
otherwise. The code does not skip non-running containers. It does not
skip a container whose address is missing. It does not sort hosts. It
rewrites the file and runs nginx on every cycle, with no comparison against
a previous snapshot.

## Model

| member | source | states |
|---|---|---|
| VhostCache.BuildCache | app/app.js:35-56 | the loop's result is the per-container fold `Build`, exception included, and every cache it returns satisfies `Valid` |
| VhostCache.ErrorSticks | app/app.js:36-55 | after an exception the remaining containers change nothing: the first exception is the result |
| VhostCache.BuildValid | app/app.js:44-50 | after the loop no host's list holds a string twice, every list is non-empty, every key is listed once in key order, and no key is an inherited name |
| VhostCache.BuildOrdersAs | app/app.js:44-50 | the key order is the virtual hosts in first-seen order, and a host is a key exactly when some eligible container names it |
| VhostCache.BuildGroupsAs | app/app.js:44-50 | each host's list is the backends of the containers naming it, in first-seen order with repeats dropped |
| VhostCache.BuildSucceedsIff | app/app.js:40-49 | the loop completes exactly when no eligible container lacks `data.fields` and none names an inherited member; otherwise it throws |
| VhostCache.CacheSound | app/app.js:44-50 | every string in `cache[h]` is the `address:port` of some eligible container whose VIRTUAL_HOST is h |
| VhostCache.CacheComplete | app/app.js:44-50 | every eligible container's `address:port` appears in its host's list |
| VhostCache.EntryShape | app/app.js:41-49 | an eligible container in a completed run has `data.fields`, and its host lists exactly `address + ":" + port`, where the address is the configured field or "undefined" and the port is a non-empty VIRTUAL_PORT or "80" |
| VhostCache.MissingAddressNotSkipped | app/app.js:41-43 | an eligible container without the address field is not skipped: its host lists "undefined:<port>" |
| VhostCache.IneligibleContributesNothing | app/app.js:40-53 | a container without environment or without a truthy VIRTUAL_HOST leaves the whole result unchanged, wherever it stands in the input |
| VhostCache.RepeatIsNoop | app/app.js:44-47 | processing again containers the loop has already seen leaves the cache unchanged |
| VhostCache.KnownRemoteIsNoop | app/app.js:44-47 | any eligible container with `data.fields`, whichever record it is, whose host is already a key and whose `address:port` is already in that host's list leaves the cache unchanged |
| VhostCache.BuildTwice | app/app.js:36-55 | the loop over a list given twice produces what the loop over the list once produces |
| Upstream.RenderUpstreams | app/app.js:71-83 | with `server` lines built from `remote`, the section is `Render(cache)`: one block per key, in key order, each listing its backends in order; an empty cache renders "" |
| Upstream.RenderAsWritten | app/app.js:71-83 | as written, rendering throws a ReferenceError for `fullRemote` exactly when some host has a backend, so any valid non-empty cache fails; otherwise it yields `Render(cache)` |
| Upstream.ConfigText | app/app.js:86 | the written text is the upstream section, then one newline, then the template unchanged |
| UpstreamText.RenderRoundTrip | app/app.js:71-83 | when no host or backend holds a newline, parsing the rendered section returns every host in key order with its backends: rendering loses and adds nothing |
| FlatRender.RenderFlat | app.js:38-51 | the loop's result is `Flat(data)`, the per-container concatenation, including the exception for a record without `data.fields` |
| FlatRender.FlatBlockIsBlock | app.js:47 | an app.js block is exactly `"upstream H {\n\tserver A:P;\n}\n"`, the app/app.js block of the one-element list |
| FlatRender.FlatOne | app.js:40-50 | one container contributes its block when eligible, "" when not, and an exception when it lacks `data.fields` |
| FlatRender.FlatAppend | app.js:40-50 | the output for `xs + ys` is the output for `xs` followed by that for `ys` (first exception wins): one block per eligible container, in input order |
| FlatRender.FlatFailsIff | app.js:43-45 | the cycle aborts exactly when some record lacks `data.fields`, even one that would have been skipped |
| FlatRender.FlatNoDedup | app.js:45-49 | two identical eligible records give the same block twice |
| FlatRender.FlatAgreesWithGrouping | app.js:39-50 | when every record, eligible or not, has `data.fields`, no eligible container's host is an inherited `Object.prototype` name, and no two eligible containers share a host, app.js renders exactly what app/app.js's corrected rendering renders for its cache; this equality is over the cache's insertion-ordered keys, so it does not cover JavaScript's `for..in` listing integer-like host names first |
| NginxControl.CommandFor | app/app.js:90-96 | the command is exactly the nginx command when not started, and that command plus " -s reload" when started |
| NginxControl.StartedAfterIff | app/app.js:99-105 | from a fresh daemon the flag is true exactly when some cycle's command resolved |
| NginxControl.StaysStarted | app/app.js:101 | once true, no later cycle clears the flag |
| NginxControl.CommandOfCycle | app/app.js:89-105 | cycle i starts nginx until some earlier cycle's command resolved, and reloads from then on; a failed start keeps the next cycle starting |
| GroupingDaemon.Daemon.constructor | app/app.js:18-24 | the command defaults to "nginx", the address field to "dockerIp", and the flag starts false |
| GroupingDaemon.Daemon.Apply | app/app.js:85-105 | writes `upstream + "\n" + template`; runs the command only when the write did not throw; sets the flag only when the command resolved |
| GroupingDaemon.Daemon.Cycle | app/app.js:33-105 | the text written is `ConfigText(Render(Build(..)))` exactly when the fetch, the loop and the cache.json branch succeed; the command runs only after that and a successful write, and is chosen from the old flag; the flag changes only when the command resolved |
| GroupingDaemon.Daemon.CycleAsWritten | app/app.js:33-105 | as written, any cycle with an eligible container writes nothing, runs nothing and leaves the flag as it was; text is written exactly when the fetch, the loop and the cache.json branch succeed with no eligible container, and that text is a newline followed by the template; the command and flag then follow the start/reload choice |
| FlatDaemon.Daemon.constructor | app.js:15-20 | the command defaults to "nginx" and the flag starts false |
| FlatDaemon.Daemon.Cycle | app.js:36-73 | the text written is `Flat(data)`, a newline and the template (`"\n" + template` for an empty list) exactly when the fetch and rendering succeed; the command and the flag follow as in app/app.js |

## Left out

- The HTTP request and JSON decoding. The decoded list is the `fetched` input, and `None` stands for every failure, including a body without a `data` array. app.js does not reject a non-2xx status; such a body fails the same way or is rendered like any other.
- `cache.json`. Only which branch is taken is modelled (`CacheFile`); the parsed value is never used in rendering.
- `fs.writeFile`. Its outcome is the `writeOk` input. Both files call it without a callback, so the next stage does not wait for the write, and an asynchronous write error is not reported to the chain. Neither effect is modelled.
- `exec`. Its outcome is the `execOk` input; its output is only logged.
- The `later` scheduler. Cycles that overlap and share `nginxStarted` are not modelled: each `Cycle` call is one complete cycle.
- `console.log`, and reading the environment beyond the defaults the constructors apply.
- The template is the text of the file. Decoding the Buffer that `readFileSync` returns is not modelled.
- Environment and `data.fields` values are strings. Numbers, `null` and nested values in the JSON are not modelled, and neither is a `null` array element. A record without `data` is treated like one without `data.fields`.
- Containers.Address: an IP field name that is itself an inherited member of `Object.prototype` (which would read a function) is not modelled.
- Upstream.RenderUpstreams: JavaScript's `for..in` lists integer-like keys (such as "8080") first, in ascending numeric order. The model renders every key in insertion order.
- FlatRender.FlatAgreesWithGrouping: inherits the same key-order simplification, so for integer-like host names the grouped rendering it compares against is not the order JavaScript would produce.
- Stream (TCP/UDP) backends, `VIRTUAL_PORT=auto`, snapshot diffing, atomic writes, sorted output and a non-overlapping scheduler. Neither file does any of these.

## Findings

| source | as written | input that shows it | evidently intended | confidence | as-written member | corrected member |
|---|---|---|---|---|---|---|
| app/app.js:77 | each `server` line reads `fullRemote`, a variable local to the cache-building callback, which throws a ReferenceError; the `.catch` swallows it, so no file is written and nginx never starts | one container with `VIRTUAL_HOST=a.example` (any cache with a host) | build the line from `remote`, the array element being visited | high; not executed | Upstream.RenderAsWritten, GroupingDaemon.Daemon.CycleAsWritten | Upstream.RenderUpstreams, GroupingDaemon.Daemon.Cycle |
