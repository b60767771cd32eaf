/**
 The daemon's verbs, each one critical section on the registry: what the section
 replies, the registry it leaves behind, and which files it rewrites.  `execute`
 holds the lock three times and is split into `ExecuteCheck`, `ExecuteStart` and
 `ExecuteFinish`; `toggle`'s first section is `IsRunning`.
 */
module Daemon {
  import opened Wrappers
  import opened Registry

  /** Reply, registry after the section, and the files it rewrote. */
  datatype Outcome = Outcome(reply: string, reg: Registry, writes: Writes)

  /** Registry after a section that does not reply, and the files it rewrote. */
  datatype Update = Update(reg: Registry, writes: Writes)

  /** What `execute`'s first section decides: launch a shell with `command`, or
      refuse with `reply`. */
  datatype Check = Launch(command: string) | Refuse(reply: string)

  function NotRegistered(name: string): string { name + " is not registered yet" }
  function ExecutedOk(name: string): string { name + " executed successfully" }
  function ExecutedRaced(name: string): string
  {
    name + " executed successfully, but was restarted with very interesting timing"
  }
  function NotRunning(name: string): string { name + " was not running via uniq-proc" }
  const ProcessNotFound := "Failed to get the process"
  const Killed := "Successfully killed name"
  function Added(command: string): string { "Added: " + command }
  function Removed(name: string): string { "Removed " + name }

  /** `add`: upserts the command, persists both files, and echoes the stored command. */
  function Add(reg: Registry, name: string, command: string): (o: Outcome)
    ensures name in o.reg.commands && o.reg.commands[name] == command
    ensures UnchangedExcept(reg.commands, o.reg.commands, name)
    ensures o.reg.procs == reg.procs
    ensures o.reply == Added(command)
    ensures o.writes == SaveAll
  {
    var r := reg.(commands := reg.commands[name := command]);
    Outcome(Added(r.commands[name]), r, SaveAll)
  }

  /** `remove`: drops the command whether or not it was there, leaves `procs` alone
      (a running command stays tracked), persists both files. */
  function Remove(reg: Registry, name: string): (o: Outcome)
    ensures name !in o.reg.commands
    ensures UnchangedExcept(reg.commands, o.reg.commands, name)
    ensures o.reg.procs == reg.procs
    ensures o.reply == Removed(name)
    ensures o.writes == SaveAll
  {
    Outcome(Removed(name), reg.(commands := reg.commands - {name}), SaveAll)
  }

  /** `list`: reads the commands and changes nothing.  It shows every registered
      name, running or not, with the command an `execute` would launch once the name
      is stopped; for a stopped name, that is what `execute` launches now. */
  function List(reg: Registry): (commands: map<string, string>)
    ensures forall n :: n in commands <==> ExecuteCheck(Kill(reg, n, true).reg, n).Launch?
    ensures forall n :: n in commands ==> ExecuteCheck(Kill(reg, n, true).reg, n) == Launch(commands[n])
    ensures forall n :: n !in reg.procs ==> (n in commands <==> ExecuteCheck(reg, n).Launch?)
    ensures forall n :: n in commands && n !in reg.procs ==> ExecuteCheck(reg, n) == Launch(commands[n])
  {
    reg.commands
  }

  /** `execute`, first section: a name is launched only when it is registered and
      not running; both failures get the same reply. Nothing is changed. */
  function ExecuteCheck(reg: Registry, name: string): (c: Check)
    ensures c.Launch? <==> name in reg.commands && name !in reg.procs
    ensures c.Launch? ==> c.command == reg.commands[name]
    ensures c.Refuse? ==> c.reply == NotRegistered(name)
  {
    var command := if name !in reg.procs then Lookup(reg.commands, name) else None;
    match command
    case Some(command) => Launch(command)
    case None => Refuse(NotRegistered(name))
  }

  function Lookup<V>(m: map<string, V>, k: string): Option<V>
  {
    if k in m then Some(m[k]) else None
  }

  /** `execute`, second section: records the pid of the shell just spawned and saves
      the snapshot. Only `procs[name]` changes. */
  function ExecuteStart(reg: Registry, name: string, pid: Pid): (u: Update)
    ensures name in u.reg.procs && u.reg.procs[name] == pid
    ensures UnchangedExcept(reg.procs, u.reg.procs, name)
    ensures u.reg.commands == reg.commands
    ensures u.writes == SaveState
  {
    Update(reg.(procs := reg.procs[name := pid]), SaveState)
  }

  /** `execute`, last section, once the shell with `pid` has exited: the entry is
      removed only when it still holds that pid; an entry holding another pid
      belongs to a later launch and is left untouched. */
  function ExecuteFinish(reg: Registry, name: string, pid: Pid): (o: Outcome)
    ensures name in reg.procs && reg.procs[name] == pid ==>
              && name !in o.reg.procs
              && UnchangedExcept(reg.procs, o.reg.procs, name)
              && o.reg.commands == reg.commands
              && o.reply == ExecutedOk(name)
              && o.writes == SaveState
    ensures !(name in reg.procs && reg.procs[name] == pid) ==>
              o == Outcome(ExecutedRaced(name), reg, NoWrite)
  {
    if Lookup(reg.procs, name) == Some(pid) then
      Outcome(ExecutedOk(name), reg.(procs := reg.procs - {name}), SaveState)
    else
      Outcome(ExecutedRaced(name), reg, NoWrite)
  }

  /** `kill`, with `found` standing for whether the OS still has a process with the
      recorded pid.  An untracked name and a vanished process leave everything as
      it was (the entry of a vanished process stays); otherwise only `procs[name]`
      is dropped and the snapshot saved. */
  function Kill(reg: Registry, name: string, found: bool): (o: Outcome)
    ensures name !in reg.procs ==> o == Outcome(NotRunning(name), reg, NoWrite)
    ensures name in reg.procs && !found ==> o == Outcome(ProcessNotFound, reg, NoWrite)
    ensures name in reg.procs && found ==>
              && name !in o.reg.procs
              && UnchangedExcept(reg.procs, o.reg.procs, name)
              && o.reg.commands == reg.commands
              && o.reply == Killed
              && o.writes == SaveState
  {
    match Lookup(reg.procs, name)
    case None => Outcome(NotRunning(name), reg, NoWrite)
    case Some(pid) =>
      if !found then Outcome(ProcessNotFound, reg, NoWrite)
      else Outcome(Killed, reg.(procs := reg.procs - {name}), SaveState)
  }

  /** `toggle`, first section: whether a pid is recorded for the name.  It is true
      exactly when a `kill` that finds its process would stop something; when it is
      false, a `kill` would reply that nothing runs and `execute` launches exactly
      when the name is registered. */
  function IsRunning(reg: Registry, name: string): (b: bool)
    ensures b <==> Kill(reg, name, true).reg != reg
    ensures !b ==> Kill(reg, name, true).reply == NotRunning(name)
    ensures !b ==> (ExecuteCheck(reg, name).Launch? <==> name in reg.commands)
  {
    name in reg.procs
  }

  /** Every section that changes the registry saves the snapshot, and every one that
      changes the commands also rewrites the command-definition file. */
  lemma SectionsPersistChanges(reg: Registry, name: string, command: string, pid: Pid, found: bool)
    ensures forall o | o in {Add(reg, name, command), Remove(reg, name), ExecuteFinish(reg, name, pid), Kill(reg, name, found)} ::
              (o.reg != reg ==> o.writes != NoWrite) && (o.reg.commands != reg.commands ==> o.writes == SaveAll)
    ensures var u := ExecuteStart(reg, name, pid);
            (u.reg != reg ==> u.writes != NoWrite) && (u.reg.commands != reg.commands ==> u.writes == SaveAll)
  {
  }

  /** A second `kill` right after a successful one reports that nothing runs. */
  lemma KillTwice(reg: Registry, name: string, found: bool, again: bool)
    requires name in reg.procs && found
    ensures Kill(Kill(reg, name, found).reg, name, again) == Outcome(NotRunning(name), Kill(reg, name, found).reg, NoWrite)
  {
  }

  /** Removing twice is removing once, and removing an absent name changes nothing. */
  lemma RemoveIdempotent(reg: Registry, name: string)
    ensures Remove(Remove(reg, name).reg, name) == Remove(reg, name)
    ensures name !in reg.commands ==> Remove(reg, name).reg == reg
  {
  }

  /** After `add`, `list` shows the command and an `execute` of a name that is not
      running launches it; after `remove`, `list` no longer shows the name and
      `execute` refuses, whether or not the name runs. */
  lemma AddRemoveThenCheck(reg: Registry, name: string, command: string)
    ensures name in List(Add(reg, name, command).reg) && List(Add(reg, name, command).reg)[name] == command
    ensures name !in reg.procs ==> ExecuteCheck(Add(reg, name, command).reg, name) == Launch(command)
    ensures name !in List(Remove(reg, name).reg)
    ensures ExecuteCheck(Remove(reg, name).reg, name) == Refuse(NotRegistered(name))
  {
  }

  /** Start then finish with the same pid restores the registry of before the start. */
  lemma StartFinishRestores(reg: Registry, name: string, pid: Pid)
    requires name !in reg.procs
    ensures ExecuteFinish(ExecuteStart(reg, name, pid).reg, name, pid) == Outcome(ExecutedOk(name), reg, SaveState)
  {
  }
}
