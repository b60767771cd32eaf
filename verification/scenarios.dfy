/**
 Particular interleavings of the daemon's critical sections: a second `execute`
 while the first waits, two `execute`s that both pass the check, a stale finish
 after a restart, the window between `toggle`'s check and its action, and the
 verbs served alone.
 */
module Scenarios {
  import opened Wrappers
  import opened Registry
  import D = Daemon
  import opened Server

  /** An environment whose contents the section does not consult. */
  const Quiet := Env(None, false)

  /** The daemon serving a single handler. */
  function Solo(reg: Registry, disk: Disk, t: Task): Config
  {
    Config(reg, disk, [t])
  }

  /** A schedule is run one event at a time. */
  lemma RunCons(c: Config, e: Event, s: seq<Event>)
    ensures Run(c, [e] + s) == Run(Apply(c, e), s)
  {
    assert ([e] + s)[1..] == s;
  }

  /** `execute` of a registered, stopped name, with nothing in between: the shell is
      launched with the registered command, its entry is gone again when it exits,
      and the reply reports success. */
  lemma ExecuteAlone(reg: Registry, disk: Disk, n: string, pid: Pid)
    requires n in reg.commands && n !in reg.procs
    ensures var r := Run(Solo(reg, disk, CheckTask(n, None)),
                         [Advance(0, Quiet), Advance(0, Env(Some(pid), false)), Advance(0, Quiet)]);
            && r.tasks == [Done(Text(D.ExecutedOk(n)))]
            && r.reg == reg
            && StateSynced(r.disk, reg)
  {
    var c0 := Solo(reg, disk, CheckTask(n, None));
    var c1 := Step(c0, 0, Quiet);
    assert c1.tasks[0] == SpawnTask(n, reg.commands[n], None);
    var c2 := Step(c1, 0, Env(Some(pid), false));
    assert c2.tasks[0] == WaitTask(n, pid, None);
    D.StartFinishRestores(reg, n, pid);
    RunCons(c0, Advance(0, Quiet), [Advance(0, Env(Some(pid), false)), Advance(0, Quiet)]);
    RunCons(c1, Advance(0, Env(Some(pid), false)), [Advance(0, Quiet)]);
    RunCons(c2, Advance(0, Quiet), []);
  }

  /** `execute` of a name that is running or unregistered replies at once and
      changes neither the registry nor the files. */
  lemma ExecuteRefusedAlone(reg: Registry, disk: Disk, n: string, env: Env)
    requires n !in reg.commands || n in reg.procs
    ensures Run(Solo(reg, disk, CheckTask(n, None)), [Advance(0, env)])
            == Solo(reg, disk, Done(Text(D.NotRegistered(n))))
  {
    RunCons(Solo(reg, disk, CheckTask(n, None)), Advance(0, env), []);
  }

  /** A second `execute` of a name whose first one is still waiting is refused, and
      the pid of the first stays recorded. */
  lemma SecondExecuteRefused(reg: Registry, disk: Disk, n: string, pid: Pid)
    requires n in reg.commands && n !in reg.procs
    ensures var r := Run(Config(reg, disk, [CheckTask(n, None), CheckTask(n, None)]),
                         [Advance(0, Quiet), Advance(0, Env(Some(pid), false)), Advance(1, Quiet)]);
            && r.tasks == [WaitTask(n, pid, None), Done(Text(D.NotRegistered(n)))]
            && n in r.reg.procs && r.reg.procs[n] == pid
  {
    var c0 := Config(reg, disk, [CheckTask(n, None), CheckTask(n, None)]);
    var c1 := Step(c0, 0, Quiet);
    var c2 := Step(c1, 0, Env(Some(pid), false));
    RunCons(c0, Advance(0, Quiet), [Advance(0, Env(Some(pid), false)), Advance(1, Quiet)]);
    RunCons(c1, Advance(0, Env(Some(pid), false)), [Advance(1, Quiet)]);
    RunCons(c2, Advance(1, Quiet), []);
  }

  /** The first five sections of the race below: an `execute` has launched `p` and
      waits, and a `restart` has killed it and launched the command again under `q`. */
  lemma RestartDuringWait(reg: Registry, disk: Disk, n: string, p: Pid, q: Pid)
    requires n in reg.commands && n !in reg.procs
    ensures var s := [Advance(0, Quiet), Advance(0, Env(Some(p), false)),
                      Advance(1, Env(None, true)), Advance(1, Quiet), Advance(1, Env(Some(q), false))];
            var r := Run(Config(reg, disk, [CheckTask(n, None), KillTask(n, true)]), s);
            && r.reg == reg.(procs := reg.procs[n := q])
            && r.tasks == [WaitTask(n, p, None), WaitTask(n, q, Some(D.Killed))]
  {
    var cmd := reg.commands[n];
    var c0 := Config(reg, disk, [CheckTask(n, None), KillTask(n, true)]);
    var c1 := Step(c0, 0, Quiet);
    assert c1 == c0.(tasks := [SpawnTask(n, cmd, None), KillTask(n, true)]);
    var c2 := Step(c1, 0, Env(Some(p), false));
    assert c2.tasks == [WaitTask(n, p, None), KillTask(n, true)];
    var c3 := Step(c2, 1, Env(None, true));
    assert c3.reg.procs == reg.procs;
    assert c3.reg == reg;
    assert c3.tasks == [WaitTask(n, p, None), CheckTask(n, Some(D.Killed))];
    var c4 := Step(c3, 1, Quiet);
    assert c4.reg == reg;
    assert c4.tasks == [WaitTask(n, p, None), SpawnTask(n, cmd, Some(D.Killed))];
    var c5 := Step(c4, 1, Env(Some(q), false));
    assert c5.reg == reg.(procs := reg.procs[n := q]);
    assert c5.tasks == [WaitTask(n, p, None), WaitTask(n, q, Some(D.Killed))];
    RunCons(c0, Advance(0, Quiet), [Advance(0, Env(Some(p), false)), Advance(1, Env(None, true)),
                                    Advance(1, Quiet), Advance(1, Env(Some(q), false))]);
    RunCons(c1, Advance(0, Env(Some(p), false)), [Advance(1, Env(None, true)), Advance(1, Quiet),
                                                  Advance(1, Env(Some(q), false))]);
    RunCons(c2, Advance(1, Env(None, true)), [Advance(1, Quiet), Advance(1, Env(Some(q), false))]);
    RunCons(c3, Advance(1, Quiet), [Advance(1, Env(Some(q), false))]);
    RunCons(c4, Advance(1, Env(Some(q), false)), []);
  }

  /** The race the mismatched-pid branch of the finish handles: while an `execute` with pid `p` waits, a
      `restart` kills it and launches the command again under `q`.  The first
      handler, finishing late, leaves the entry of `q` alone and says so; the
      restart's own finish then removes it, and the registry ends as it began. */
  lemma StaleFinishSparesNewerLaunch(reg: Registry, disk: Disk, n: string, p: Pid, q: Pid)
    requires n in reg.commands && n !in reg.procs && p != q
    ensures var s := [Advance(0, Quiet), Advance(0, Env(Some(p), false)),
                      Advance(1, Env(None, true)), Advance(1, Quiet), Advance(1, Env(Some(q), false))];
            var r := Run(Run(Config(reg, disk, [CheckTask(n, None), KillTask(n, true)]), s), [Advance(0, Quiet)]);
            && r.tasks[0] == Done(Text(D.ExecutedRaced(n)))
            && n in r.reg.procs && r.reg.procs[n] == q
            && var r' := Run(r, [Advance(1, Quiet)]);
               && r'.tasks[1] == Done(Text(D.Killed + "\n" + D.ExecutedOk(n)))
               && r'.reg == reg
  {
    RestartDuringWait(reg, disk, n, p, q);
    var s := [Advance(0, Quiet), Advance(0, Env(Some(p), false)),
              Advance(1, Env(None, true)), Advance(1, Quiet), Advance(1, Env(Some(q), false))];
    var c5 := Run(Config(reg, disk, [CheckTask(n, None), KillTask(n, true)]), s);
    var c6 := Step(c5, 0, Quiet);
    assert c6.reg == c5.reg;
    assert c6.tasks == [Done(Text(D.ExecutedRaced(n))), WaitTask(n, q, Some(D.Killed))];
    var c7 := Step(c6, 1, Quiet);
    D.StartFinishRestores(reg, n, q);
    assert c7.reg == reg;
    RunCons(c5, Advance(0, Quiet), []);
    RunCons(c6, Advance(1, Quiet), []);
  }

  /** The window between `execute`'s check and its insert: two `execute`s of one
      stopped name both pass the check and both launch.  The second insert overwrites
      the first pid, so the shell with `p` runs untracked; when it exits its finish
      gets the timing reply and the entry for `q` stays.  This covers distinct pids;
      the first `wait` may reap `p` before the second spawn, and a relaunch that gets
      `p` back is the case of `StaleFinishWithReusedPid`. */
  lemma BothExecutesLaunch(reg: Registry, disk: Disk, n: string, p: Pid, q: Pid)
    requires n in reg.commands && n !in reg.procs && p != q
    ensures var s := [Advance(0, Quiet), Advance(1, Quiet),
                      Advance(0, Env(Some(p), false)), Advance(1, Env(Some(q), false))];
            var r := Run(Config(reg, disk, [CheckTask(n, None), CheckTask(n, None)]), s);
            && r.tasks == [WaitTask(n, p, None), WaitTask(n, q, None)]
            && r.reg == reg.(procs := reg.procs[n := q])
            && var r' := Run(r, [Advance(0, Quiet)]);
               && r'.tasks == [Done(Text(D.ExecutedRaced(n))), WaitTask(n, q, None)]
               && r'.reg == r.reg
  {
    var cmd := reg.commands[n];
    var c0 := Config(reg, disk, [CheckTask(n, None), CheckTask(n, None)]);
    var c1 := Step(c0, 0, Quiet);
    assert c1 == c0.(tasks := [SpawnTask(n, cmd, None), CheckTask(n, None)]);
    var c2 := Step(c1, 1, Quiet);
    assert c2 == c0.(tasks := [SpawnTask(n, cmd, None), SpawnTask(n, cmd, None)]);
    var c3 := Step(c2, 0, Env(Some(p), false));
    assert c3.reg == reg.(procs := reg.procs[n := p]);
    assert c3.tasks == [WaitTask(n, p, None), SpawnTask(n, cmd, None)];
    var c4 := Step(c3, 1, Env(Some(q), false));
    assert c4.reg == reg.(procs := reg.procs[n := q]);
    assert c4.tasks == [WaitTask(n, p, None), WaitTask(n, q, None)];
    var c5 := Step(c4, 0, Quiet);
    assert c5.reg == c4.reg;
    RunCons(c0, Advance(0, Quiet), [Advance(1, Quiet), Advance(0, Env(Some(p), false)),
                                    Advance(1, Env(Some(q), false))]);
    RunCons(c1, Advance(1, Quiet), [Advance(0, Env(Some(p), false)), Advance(1, Env(Some(q), false))]);
    RunCons(c2, Advance(0, Env(Some(p), false)), [Advance(1, Env(Some(q), false))]);
    RunCons(c3, Advance(1, Env(Some(q), false)), []);
    RunCons(c4, Advance(0, Quiet), []);
  }

  /** The mismatched-pid check cannot tell a relaunch apart when the OS hands the
      relaunched shell the pid the first handler's `wait` has just reaped: the stale
      finish then removes the newer entry, replies success, and the restart's shell
      runs untracked. */
  lemma StaleFinishWithReusedPid(reg: Registry, disk: Disk, n: string, p: Pid)
    requires n in reg.commands && n !in reg.procs
    ensures var s := [Advance(0, Quiet), Advance(0, Env(Some(p), false)),
                      Advance(1, Env(None, true)), Advance(1, Quiet), Advance(1, Env(Some(p), false))];
            var r := Run(Run(Config(reg, disk, [CheckTask(n, None), KillTask(n, true)]), s), [Advance(0, Quiet)]);
            && r.tasks == [Done(Text(D.ExecutedOk(n))), WaitTask(n, p, Some(D.Killed))]
            && n !in r.reg.procs
  {
    RestartDuringWait(reg, disk, n, p, p);
    var s := [Advance(0, Quiet), Advance(0, Env(Some(p), false)),
              Advance(1, Env(None, true)), Advance(1, Quiet), Advance(1, Env(Some(p), false))];
    var c5 := Run(Config(reg, disk, [CheckTask(n, None), KillTask(n, true)]), s);
    var c6 := Step(c5, 0, Quiet);
    assert c6.tasks == [Done(Text(D.ExecutedOk(n))), WaitTask(n, p, Some(D.Killed))];
    RunCons(c5, Advance(0, Quiet), []);
  }

  /** A finish whose pid is no longer the recorded one never removes the entry,
      whatever else is in flight. */
  lemma StaleFinishKeepsEntry(c: Config, i: nat, env: Env)
    requires i < |c.tasks| && c.tasks[i].WaitTask?
    requires var n := c.tasks[i].name;
             n in c.reg.procs && c.reg.procs[n] != c.tasks[i].pid
    ensures Step(c, i, env).reg == c.reg && Step(c, i, env).disk == c.disk
    ensures Step(c, i, env).tasks[i] == Done(Reply(D.ExecutedRaced(c.tasks[i].name), c.tasks[i].lead))
  {
  }

  /** `toggle` behaves, in every configuration and every continuation, as `kill`
      when the name is running and as `execute` otherwise. */
  lemma ToggleIsKillOrExecute(c: Config, i: nat, n: string, env: Env, s: seq<Event>)
    requires i < |c.tasks| && c.tasks[i] == ToggleTask(n)
    ensures n in c.reg.procs ==>
              Run(c, [Advance(i, env)] + s) == Run(c.(tasks := c.tasks[i := KillTask(n, false)]), s)
    ensures n !in c.reg.procs ==>
              Run(c, [Advance(i, env)] + s) == Run(c.(tasks := c.tasks[i := CheckTask(n, None)]), s)
  {
    RunCons(c, Advance(i, env), s);
  }

  /** The window between `toggle`'s check and its action: another handler kills the
      name in between, and the toggle's own kill then reports that nothing runs. */
  lemma ToggleAfterConcurrentKill(reg: Registry, disk: Disk, n: string)
    requires n in reg.procs
    ensures var r := Run(Config(reg, disk, [ToggleTask(n), KillTask(n, false)]),
                         [Advance(0, Quiet), Advance(1, Env(None, true)), Advance(0, Env(None, true))]);
            && r.tasks == [Done(Text(D.NotRunning(n))), Done(Text(D.Killed))]
            && n !in r.reg.procs
            && r.reg.commands == reg.commands
  {
    var c0 := Config(reg, disk, [ToggleTask(n), KillTask(n, false)]);
    var c1 := Step(c0, 0, Quiet);
    var c2 := Step(c1, 1, Env(None, true));
    RunCons(c0, Advance(0, Quiet), [Advance(1, Env(None, true)), Advance(0, Env(None, true))]);
    RunCons(c1, Advance(1, Env(None, true)), [Advance(0, Env(None, true))]);
    RunCons(c2, Advance(0, Env(None, true)), []);
  }

  /** `restart` moves on to `execute` whatever its kill replied, and its reply joins
      the two replies with a newline. */
  lemma RestartAlwaysExecutes(c: Config, i: nat, env: Env)
    requires i < |c.tasks| && c.tasks[i].KillTask? && c.tasks[i].restart
    ensures var n := c.tasks[i].name;
            Step(c, i, env).tasks[i] == CheckTask(n, Some(D.Kill(c.reg, n, env.found).reply))
  {
  }

  /** `restart` of a running name whose process is gone: the kill fails, the entry
      stays, so the execute that follows is refused, and both replies come back. */
  lemma RestartOfVanishedProcess(reg: Registry, disk: Disk, n: string)
    requires n in reg.procs
    ensures Run(Solo(reg, disk, KillTask(n, true)), [Advance(0, Env(None, false)), Advance(0, Quiet)])
            == Solo(reg, disk, Done(Text(D.ProcessNotFound + "\n" + D.NotRegistered(n))))
  {
    var c0 := Solo(reg, disk, KillTask(n, true));
    var c1 := Step(c0, 0, Env(None, false));
    RunCons(c0, Advance(0, Env(None, false)), [Advance(0, Quiet)]);
    RunCons(c1, Advance(0, Quiet), []);
  }
}
