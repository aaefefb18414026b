/**
  Starting or reloading nginx, as both iterations do it: the module-level
  `nginxStarted` flag picks `nginx` or `nginx -s reload`, and it becomes
  true only in the `.then` that follows a resolved command.
 */
module NginxControl {

  const ReloadArgs := " -s reload"

  /** The command a cycle runs: the bare command before nginx is known to run, with ` -s reload` after. */
  function CommandFor(nginx: string, started: bool): (cmd: string)
    ensures !started ==> cmd == nginx
    ensures started ==> cmd == nginx + " -s reload"
    ensures started ==> cmd != nginx
  {
    if started then nginx + ReloadArgs else nginx
  }

  /** How far one cycle got: whether it ran the command, and whether the command's promise resolved. */
  datatype Attempt = Attempt(ran: bool, resolved: bool)

  predicate Succeeded(a: Attempt) {
    a.ran && a.resolved
  }

  /** The flag after one cycle: set by a resolved command, left alone by any failure. */
  function Next(started: bool, a: Attempt): bool {
    if Succeeded(a) then true else started
  }

  /** The flag after a sequence of cycles. */
  function StartedAfter(started: bool, trace: seq<Attempt>): bool
    decreases |trace|
  {
    if trace == [] then started
    else Next(StartedAfter(started, trace[..|trace| - 1]), trace[|trace| - 1])
  }

  /** Starting from a fresh daemon, the flag is set exactly when some cycle's command resolved. */
  lemma {:induction false} StartedAfterIff(trace: seq<Attempt>)
    ensures StartedAfter(false, trace) <==> exists i :: 0 <= i < |trace| && Succeeded(trace[i])
    decreases |trace|
  {
    if trace != [] {
      var init := trace[..|trace| - 1];
      StartedAfterIff(init);
      if i :| 0 <= i < |init| && Succeeded(init[i]) {
        assert trace[i] == init[i];
      }
      if i :| 0 <= i < |trace| && Succeeded(trace[i]) {
        if i < |init| {
          assert init[i] == trace[i];
        }
      }
    }
  }

  /** Once set, nothing clears the flag. */
  lemma {:induction false} StaysStarted(trace: seq<Attempt>)
    ensures StartedAfter(true, trace)
    decreases |trace|
  {
    if trace != [] {
      StaysStarted(trace[..|trace| - 1]);
    }
  }

  /**
    The command of the i-th cycle of a fresh daemon is the bare command
    until one earlier cycle's command has resolved, and the reload command
    from then on; a failed start keeps the next cycle starting.
   */
  lemma CommandOfCycle(nginx: string, trace: seq<Attempt>, i: nat)
    requires i <= |trace|
    ensures CommandFor(nginx, StartedAfter(false, trace[..i])) ==
      if exists j :: 0 <= j < i && Succeeded(trace[j]) then nginx + " -s reload" else nginx
  {
    StartedAfterIff(trace[..i]);
    if j :| 0 <= j < i && Succeeded(trace[j]) {
      assert trace[..i][j] == trace[j];
    }
    if j :| 0 <= j < i && Succeeded(trace[..i][j]) {
      assert trace[..i][j] == trace[j];
    }
  }
}
