/**
 The daemon serving requests.  Every accepted connection becomes a task (one
 handler thread in the daemon); a task advances one critical section at a time,
 and a schedule interleaves the sections of all tasks in any order, which is how
 the model stands in for the threads and the mutex.  What the OS contributes to
 a section (the pid of a spawned shell, whether a process to kill still exists)
 comes with the schedule event.
 */
module Server {
  import opened Wrappers
  import opened Registry
  import P = Protocol
  import D = Daemon

  /** What the daemon writes back on a connection: text, or the command map `list`
      serialises to JSON. */
  datatype Response = Text(text: string) | Listing(commands: map<string, string>)

  /** A handler thread, by the critical section it runs next.  `restart` on a kill
      means an execute follows it; `lead` is the reply of that kill, which heads the
      combined reply. */
  datatype Task =
    | AddTask(name: string, command: string)
    | RemoveTask(name: string)
    | ListTask
    | ToggleTask(name: string)
    | KillTask(name: string, restart: bool)
    | CheckTask(name: string, lead: Option<string>)
    | SpawnTask(name: string, command: string, lead: Option<string>)
    | WaitTask(name: string, pid: Pid, lead: Option<string>)
    | Done(response: Response)
    | Crashed

  /** The OS's part of one section: the pid of the shell a spawn started (`None`
      when spawning failed) and whether the process a kill looks up exists. */
  datatype Env = Env(spawned: Option<Pid>, found: bool)

  /** One scheduling decision: a connection is accepted carrying a decoded message
      (`None` for a payload that does not decode), or task `task` runs its next section. */
  datatype Event = Connect(payload: Option<P.Message>) | Advance(task: nat, env: Env)

  /** The daemon: registry, files, and every handler thread accepted so far. */
  datatype Config = Config(reg: Registry, disk: Disk, tasks: seq<Task>)

  const AliveReply := "running"
  const Unparsable := "Could parse the command"

  /** The handler has written its response, or has panicked without one. */
  predicate Settled(t: Task)
  {
    t.Done? || t.Crashed?
  }

  /** The name a task works on, if any. */
  function TaskName(t: Task): Option<string>
  {
    match t
    case AddTask(n, _) => Some(n)
    case RemoveTask(n) => Some(n)
    case ToggleTask(n) => Some(n)
    case KillTask(n, _) => Some(n)
    case CheckTask(n, _) => Some(n)
    case SpawnTask(n, _, _) => Some(n)
    case WaitTask(n, _, _) => Some(n)
    case ListTask => None
    case Done(_) => None
    case Crashed => None
  }

  /** The name a decoded payload refers to, if any. */
  function PayloadName(p: Option<P.Message>): Option<string>
  {
    match p
    case None => None
    case Some(m) =>
      match m
      case Add(n, _) => Some(n)
      case Remove(n) => Some(n)
      case Execute(n) => Some(n)
      case Kill(n) => Some(n)
      case Restart(n) => Some(n)
      case Toggle(n) => Some(n)
      case List => None
      case Alive => None
  }

  /** A task that will rewrite the commands. */
  predicate Edits(t: Task)
  {
    t.AddTask? || t.RemoveTask?
  }

  /** The text of a section's reply, behind the kill reply a restart leads with. */
  function Reply(text: string, lead: Option<string>): (r: Response)
    ensures r.Text?
    ensures lead.None? ==> r.text == text
    ensures lead.Some? ==> var k := |lead.value|;
              && |r.text| == k + 1 + |text|
              && r.text[..k] == lead.value && r.text[k] == '\n' && r.text[k + 1..] == text
  {
    match lead
    case None => Text(text)
    case Some(k) => Text(k + "\n" + text)
  }

  /** The handler a connection starts, by the message it decoded.  The liveness probe
      and an undecodable payload are answered on the spot. */
  function Dispatch(payload: Option<P.Message>): (t: Task)
    ensures Settled(t) <==> payload.None? || payload.value.Alive?
    ensures payload.None? ==> t == Done(Text(Unparsable))
    ensures payload == Some(P.Alive) ==> t == Done(Text(AliveReply))
    ensures TaskName(t) == PayloadName(payload)
    ensures Edits(t) <==> payload.Some? && (payload.value.Add? || payload.value.Remove?)
    ensures payload.Some? && payload.value.Add? ==> t == AddTask(payload.value.name, payload.value.command)
    ensures payload.Some? && payload.value.Remove? ==> t == RemoveTask(payload.value.name)
    ensures payload == Some(P.Message.List) ==> t == ListTask
    ensures payload.Some? && payload.value.Execute? ==> t == CheckTask(payload.value.name, None)
    ensures payload.Some? && payload.value.Kill? ==> t == KillTask(payload.value.name, false)
    ensures payload.Some? && payload.value.Restart? ==> t == KillTask(payload.value.name, true)
    ensures payload.Some? && payload.value.Toggle? ==> t == ToggleTask(payload.value.name)
  {
    match payload
    case None => Done(Text(Unparsable))
    case Some(m) =>
      match m
      case Add(name, command) => AddTask(name, command)
      case Remove(name) => RemoveTask(name)
      case Kill(name) => KillTask(name, false)
      case Restart(name) => KillTask(name, true)
      case Toggle(name) => ToggleTask(name)
      case Execute(name) => CheckTask(name, None)
      case List => ListTask
      case Alive => Done(Text(AliveReply))
  }

  /** Ends task `i` with the outcome of its last section. */
  function Conclude(c: Config, i: nat, o: D.Outcome, lead: Option<string>): Config
    requires i < |c.tasks|
  {
    Config(o.reg, Persist(c.disk, o.writes, o.reg), c.tasks[i := Done(Reply(o.reply, lead))])
  }

  /** Task `i` runs its next critical section. */
  function Step(c: Config, i: nat, env: Env): (r: Config)
    requires i < |c.tasks|
    ensures |r.tasks| == |c.tasks|
    ensures forall j :: 0 <= j < |c.tasks| && j != i ==> r.tasks[j] == c.tasks[j]
    ensures Settled(c.tasks[i]) ==> r == c
  {
    match c.tasks[i]
    case AddTask(n, command) => Conclude(c, i, D.Add(c.reg, n, command), None)
    case RemoveTask(n) => Conclude(c, i, D.Remove(c.reg, n), None)
    case ListTask => c.(tasks := c.tasks[i := Done(Listing(D.List(c.reg)))])
    case ToggleTask(n) =>
      var next := if D.IsRunning(c.reg, n) then KillTask(n, false) else CheckTask(n, None);
      c.(tasks := c.tasks[i := next])
    case KillTask(n, restart) =>
      var o := D.Kill(c.reg, n, env.found);
      if restart then
        Config(o.reg, Persist(c.disk, o.writes, o.reg), c.tasks[i := CheckTask(n, Some(o.reply))])
      else Conclude(c, i, o, None)
    case CheckTask(n, lead) =>
      (match D.ExecuteCheck(c.reg, n)
       case Launch(command) => c.(tasks := c.tasks[i := SpawnTask(n, command, lead)])
       case Refuse(reply) => c.(tasks := c.tasks[i := Done(Reply(reply, lead))]))
    case SpawnTask(n, _, lead) =>
      (match env.spawned
       case None => c.(tasks := c.tasks[i := Crashed])
       case Some(pid) =>
         var u := D.ExecuteStart(c.reg, n, pid);
         Config(u.reg, Persist(c.disk, u.writes, u.reg), c.tasks[i := WaitTask(n, pid, lead)]))
    case WaitTask(n, pid, lead) => Conclude(c, i, D.ExecuteFinish(c.reg, n, pid), lead)
    case Done(_) => c
    case Crashed => c
  }

  /** One scheduling decision; advancing a task that does not exist does nothing. */
  function Apply(c: Config, e: Event): Config
  {
    match e
    case Connect(payload) => c.(tasks := c.tasks + [Dispatch(payload)])
    case Advance(i, env) => if i < |c.tasks| then Step(c, i, env) else c
  }

  /** The number of connections a schedule accepts. */
  function Connects(s: seq<Event>): nat
  {
    if |s| == 0 then 0 else (if s[0].Connect? then 1 else 0) + Connects(s[1..])
  }

  /** The daemon after a schedule: one task per accepted connection, and a response,
      once written, never changes. */
  function Run(c: Config, s: seq<Event>): (r: Config)
    ensures |r.tasks| == |c.tasks| + Connects(s)
    ensures forall i :: 0 <= i < |c.tasks| && Settled(c.tasks[i]) ==> r.tasks[i] == c.tasks[i]
    decreases |s|
  {
    if |s| == 0 then c else Run(Apply(c, s[0]), s[1..])
  }

  /** Every handler thread has ended. */
  predicate AllSettled(tasks: seq<Task>)
  {
    forall i :: 0 <= i < |tasks| ==> Settled(tasks[i])
  }

  const ScopedThreadPanicked := "a scoped thread panicked"

  /** The final save once the accept loop has stopped.  The thread scope first joins
      every handler, so no task is still in flight; if one of them panicked the scope
      panics in turn and the save never happens. */
  function Shutdown(c: Config): (r: Result<Disk, string>)
    requires AllSettled(c.tasks)
    ensures r.Failure? <==> exists i :: 0 <= i < |c.tasks| && c.tasks[i].Crashed?
    ensures r.Failure? ==> r.error == ScopedThreadPanicked
    ensures r.Success? ==> StateSynced(r.value, c.reg) && r.value.config == c.disk.config
  {
    if exists i :: 0 <= i < |c.tasks| && c.tasks[i].Crashed? then Failure(ScopedThreadPanicked)
    else Success(Persist(c.disk, SaveState, c.reg))
  }

  /** The daemon right after startup, before it accepts a connection. */
  function Boot(keep: bool, disk: Disk): (r: Result<Config, string>)
    ensures r.Success? <==> Startup(keep, disk).Success?
    ensures r.Success? ==> r.value == Config(Startup(keep, disk).value, disk, [])
    ensures r.Success? ==> ConfigSynced(disk, r.value.reg)
  {
    match Startup(keep, disk)
    case Failure(e) => Failure(e)
    case Success(reg) =>
      StartupConfigSynced(keep, disk);
      Success(Config(reg, disk, []))
  }

  // ---------------------------------------------------------------------------
  // What one section may change

  /** A section keeps the command-definition file in agreement with the registry,
      and the snapshot too once it is. */
  lemma StepKeepsSynced(c: Config, i: nat, env: Env)
    requires i < |c.tasks|
    ensures ConfigSynced(c.disk, c.reg) ==> ConfigSynced(Step(c, i, env).disk, Step(c, i, env).reg)
    ensures StateSynced(c.disk, c.reg) ==> StateSynced(Step(c, i, env).disk, Step(c, i, env).reg)
  {
  }

  /** A section that changes the registry leaves the snapshot holding it. */
  lemma StepPersistsChanges(c: Config, i: nat, env: Env)
    requires i < |c.tasks|
    ensures Step(c, i, env).reg != c.reg ==> StateSynced(Step(c, i, env).disk, Step(c, i, env).reg)
  {
  }

  /** Only an `add` or `remove` handler changes the commands, and no section turns a
      task into one. */
  lemma StepCommandsFrame(c: Config, i: nat, env: Env)
    requires i < |c.tasks|
    ensures !Edits(c.tasks[i]) ==> Step(c, i, env).reg.commands == c.reg.commands
    ensures !Edits(Step(c, i, env).tasks[i])
  {
  }

  /** A section touches the registry only at the name its task works on, and a task
      keeps its name until it settles. */
  lemma StepIsolation(c: Config, i: nat, env: Env, n: string)
    requires i < |c.tasks|
    requires TaskName(c.tasks[i]) != Some(n)
    ensures SameAt(c.reg.commands, Step(c, i, env).reg.commands, n)
    ensures SameAt(c.reg.procs, Step(c, i, env).reg.procs, n)
    ensures TaskName(Step(c, i, env).tasks[i]) != Some(n)
  {
    match c.tasks[i]
    case AddTask(m, command) =>
    case RemoveTask(m) =>
    case ListTask =>
    case ToggleTask(m) =>
    case KillTask(m, restart) =>
    case CheckTask(m, lead) =>
    case SpawnTask(m, _, lead) =>
    case WaitTask(m, pid, lead) =>
    case Done(_) =>
    case Crashed =>
  }

  // ---------------------------------------------------------------------------
  // What a whole schedule may change

  /** A schedule keeps the command-definition file in agreement with the registry. */
  lemma {:induction false} RunKeepsConfigSynced(c: Config, s: seq<Event>)
    requires ConfigSynced(c.disk, c.reg)
    ensures ConfigSynced(Run(c, s).disk, Run(c, s).reg)
    decreases |s|
  {
    if |s| > 0 {
      var c' := Apply(c, s[0]);
      if s[0].Advance? && s[0].task < |c.tasks| {
        StepKeepsSynced(c, s[0].task, s[0].env);
      }
      RunKeepsConfigSynced(c', s[1..]);
    }
  }

  /** Once the snapshot holds the registry, every schedule keeps it so: the daemon
      saves in the same section as it changes. */
  lemma {:induction false} RunKeepsStateSynced(c: Config, s: seq<Event>)
    requires StateSynced(c.disk, c.reg)
    ensures StateSynced(Run(c, s).disk, Run(c, s).reg)
    decreases |s|
  {
    if |s| > 0 {
      if s[0].Advance? && s[0].task < |c.tasks| {
        StepKeepsSynced(c, s[0].task, s[0].env);
      }
      RunKeepsStateSynced(Apply(c, s[0]), s[1..]);
    }
  }

  /** With no `add` or `remove` in flight or among the accepted connections, no
      interleaving of the other verbs changes the commands. */
  lemma {:induction false} RunCommandsFrame(c: Config, s: seq<Event>)
    requires forall i :: 0 <= i < |c.tasks| ==> !Edits(c.tasks[i])
    requires forall k :: 0 <= k < |s| && s[k].Connect? ==> !Edits(Dispatch(s[k].payload))
    ensures Run(c, s).reg.commands == c.reg.commands
    decreases |s|
  {
    if |s| > 0 {
      var c' := Apply(c, s[0]);
      if s[0].Advance? && s[0].task < |c.tasks| {
        StepCommandsFrame(c, s[0].task, s[0].env);
      }
      RunCommandsFrame(c', s[1..]);
    }
  }

  /** Requests for other names, in any interleaving, leave the command and the pid
      recorded for `n` as they were. */
  lemma {:induction false} RunIsolation(c: Config, s: seq<Event>, n: string)
    requires forall i :: 0 <= i < |c.tasks| ==> TaskName(c.tasks[i]) != Some(n)
    requires forall k :: 0 <= k < |s| && s[k].Connect? ==> PayloadName(s[k].payload) != Some(n)
    ensures SameAt(c.reg.commands, Run(c, s).reg.commands, n)
    ensures SameAt(c.reg.procs, Run(c, s).reg.procs, n)
    decreases |s|
  {
    if |s| > 0 {
      var c' := Apply(c, s[0]);
      if s[0].Advance? && s[0].task < |c.tasks| {
        StepIsolation(c, s[0].task, s[0].env, n);
      }
      RunIsolation(c', s[1..], n);
    }
  }

  /** A daemon started from any readable files, serving any schedule until its
      handlers have all ended without a panic, leaves files from which a daemon started with `-k`
      recovers exactly the registry it shut down with. */
  lemma SessionRoundTrip(keep: bool, disk: Disk, s: seq<Event>)
    requires Boot(keep, disk).Success?
    requires AllSettled(Run(Boot(keep, disk).value, s).tasks)
    requires Shutdown(Run(Boot(keep, disk).value, s)).Success?
    ensures var c := Run(Boot(keep, disk).value, s);
            Startup(true, Shutdown(c).value) == Success(c.reg)
  {
    var c := Run(Boot(keep, disk).value, s);
    RunKeepsConfigSynced(Boot(keep, disk).value, s);
    RecoverSnapshot(Shutdown(c).value, c.reg);
  }
}
