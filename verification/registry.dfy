/**
 The registry the uniq-proc daemon guards with its one mutex: which shell command
 each name stands for, and which pid each running name was started under.  Also
 the two files the registry is persisted to, and the merge that rebuilds the
 registry from them when a daemon starts.
 */
module Registry {
  import opened Wrappers

  /** Process ids as the daemon stores them (`u32`). */
  newtype Pid = x: int | 0 <= x < 0x1_0000_0000

  /** The registry: `commands` maps names to shell commands, `procs` maps each
      name that is currently running to the pid of its shell. */
  datatype Registry = Registry(commands: map<string, string>, procs: map<string, Pid>)

  /** The registry of a daemon started without any file to recover from. */
  const Empty := Registry(map[], map[])

  /** `m'` agrees with `m` on every key other than `n`. */
  ghost predicate UnchangedExcept<V>(m: map<string, V>, m': map<string, V>, n: string)
  {
    forall k :: k != n ==> (k in m <==> k in m') && (k in m ==> m'[k] == m[k])
  }

  /** `m'` agrees with `m` on key `n`: both lack it or both map it to the same value. */
  ghost predicate SameAt<V>(m: map<string, V>, m': map<string, V>, n: string)
  {
    (n in m <==> n in m') && (n in m ==> m'[n] == m[n])
  }

  /** A file on disk: absent, holding a parsable document, or holding text that
      does not parse as the expected JSON document. */
  datatype File<+T> = Missing | Holds(value: T) | Garbled

  /** The two files the daemon reads and writes: the state snapshot (both maps)
      and the command-definition file in the configuration directory (commands only). */
  datatype Disk = Disk(state: File<Registry>, config: File<map<string, string>>)

  /** Which files one critical section rewrites from the registry it leaves behind:
      `SaveState` is `save_state`, `SaveAll` is `save_state` followed by
      `write_commands_to_config_dir`. */
  datatype Writes = NoWrite | SaveState | SaveAll

  /** The disk after rewriting the files `w` names from registry `reg`. */
  function Persist(disk: Disk, w: Writes, reg: Registry): (d: Disk)
    ensures w == NoWrite ==> d == disk
    ensures w != NoWrite ==> d.state == Holds(reg)
    ensures w == SaveAll ==> d.config == Holds(reg.commands)
    ensures w != SaveAll ==> d.config == disk.config
  {
    match w
    case NoWrite => disk
    case SaveState => disk.(state := Holds(reg))
    case SaveAll => Disk(Holds(reg), Holds(reg.commands))
  }

  /** The command-definition file, when present, agrees with the registry's commands. */
  predicate ConfigSynced(disk: Disk, reg: Registry)
  {
    disk.config.Missing? || disk.config == Holds(reg.commands)
  }

  /** The state snapshot holds exactly the registry. */
  predicate StateSynced(disk: Disk, reg: Registry)
  {
    disk.state == Holds(reg)
  }

  /** The message given to `expect` when a file does not parse (the panic adds the parser's error). */
  const InvalidJson := "valid json"

  /**
   The startup merge of a daemon launched with or without `-k` (`keep`).  The state
   snapshot is read only when `keep` is set; its procs are taken over, and its
   commands too unless a command-definition file exists; a command-definition
   file, whenever present, supplies the commands.  A file that does not parse
   aborts the daemon, even when its content would have been discarded.
   */
  function Startup(keep: bool, disk: Disk): (r: Result<Registry, string>)
    ensures r.Failure? <==> (keep && disk.state.Garbled?) || disk.config.Garbled?
    ensures r.Failure? ==> r.error == InvalidJson
    ensures r.Success? && disk.config.Holds? ==> r.value.commands == disk.config.value
    ensures r.Success? && disk.config.Missing? && keep && disk.state.Holds? ==>
              r.value.commands == disk.state.value.commands
    ensures r.Success? && disk.config.Missing? && !(keep && disk.state.Holds?) ==>
              r.value.commands == map[]
    ensures r.Success? && keep && disk.state.Holds? ==> r.value.procs == disk.state.value.procs
    ensures r.Success? && !(keep && disk.state.Holds?) ==> r.value.procs == map[]
  {
    var recovered :=
      if keep && !disk.state.Missing? then
        match disk.state
        case Garbled => Failure(InvalidJson)
        case Holds(parsed) =>
          var commands := if disk.config.Missing? then parsed.commands else Empty.commands;
          Success(Registry(commands, parsed.procs))
      else Success(Empty);
    match recovered
    case Failure(e) => Failure(e)
    case Success(reg) =>
      match disk.config
      case Missing => Success(reg)
      case Garbled => Failure(InvalidJson)
      case Holds(commands) => Success(reg.(commands := commands))
  }

  /** Whatever a daemon starts from, its registry agrees with the command-definition file. */
  lemma StartupConfigSynced(keep: bool, disk: Disk)
    requires Startup(keep, disk).Success?
    ensures ConfigSynced(disk, Startup(keep, disk).value)
  {
  }

  /** A snapshot the daemon wrote, with a command-definition file that agrees with it,
      gives back the same registry to a daemon started with `-k`. */
  lemma RecoverSnapshot(disk: Disk, reg: Registry)
    requires StateSynced(disk, reg) && ConfigSynced(disk, reg)
    ensures Startup(true, disk) == Success(reg)
  {
  }

  /** Without `-k` the snapshot is never read: nothing is running, and the commands
      are those of the command-definition file (or none). */
  lemma FreshStartIgnoresSnapshot(disk: Disk)
    requires !disk.config.Garbled?
    ensures Startup(false, disk).Success?
    ensures Startup(false, disk).value.procs == map[]
    ensures Startup(false, disk) == Startup(false, disk.(state := Missing))
  {
  }
}
