/**
 The request vocabulary: the CLI subcommands (`Commands`), the messages sent to
 the daemon over its socket (`Message`), and the conversion between them.
 */
module Protocol {
  import opened Wrappers

  /** The CLI subcommands. */
  datatype Commands =
    | Add(name: string, command: string)
    | Remove(name: string)
    | List
    | Execute(name: string)
    | Kill(name: string)
    | Restart(name: string)
    | Toggle(name: string)
    | Daemon

  /** The messages the daemon decodes from a connection. `Alive` is the liveness
      probe; it has no subcommand of its own. */
  datatype Message =
    | Add(name: string, command: string)
    | Remove(name: string)
    | List
    | Alive
    | Execute(name: string)
    | Kill(name: string)
    | Restart(name: string)
    | Toggle(name: string)

  const DaemonIsNotAMessage := "Daemon is not a message"

  /** The client's conversion of a subcommand into the message it forwards. */
  function ToMessage(c: Commands): (r: Result<Message, string>)
    ensures r.Failure? <==> c.Daemon?
    ensures r.Failure? ==> r.error == DaemonIsNotAMessage
    ensures r.Success? ==> !r.value.Alive?
  {
    match c
    case Daemon => Failure(DaemonIsNotAMessage)
    case Add(name, command) => Success(Message.Add(name, command))
    case Remove(name) => Success(Message.Remove(name))
    case Execute(name) => Success(Message.Execute(name))
    case Kill(name) => Success(Message.Kill(name))
    case Restart(name) => Success(Message.Restart(name))
    case List => Success(Message.List)
    case Toggle(name) => Success(Message.Toggle(name))
  }

  /** The subcommand a message stands for; the liveness probe stands for none. */
  function ToCommands(m: Message): Option<Commands>
  {
    match m
    case Add(name, command) => Some(Commands.Add(name, command))
    case Remove(name) => Some(Commands.Remove(name))
    case List => Some(Commands.List)
    case Alive => None
    case Execute(name) => Some(Commands.Execute(name))
    case Kill(name) => Some(Commands.Kill(name))
    case Restart(name) => Some(Commands.Restart(name))
    case Toggle(name) => Some(Commands.Toggle(name))
  }

  /** Every subcommand but `Daemon` converts to the message of the same name carrying
      the same fields, and every message but `Alive` comes from exactly one subcommand. */
  lemma ToMessageRoundTrip(c: Commands, m: Message)
    ensures ToMessage(c).Success? ==> ToCommands(ToMessage(c).value) == Some(c)
    ensures ToCommands(m) == Some(c) <==> ToMessage(c) == Success(m)
  {
    match c
    case Daemon =>
    case Add(n, x) =>
    case Remove(n) =>
    case List =>
    case Execute(n) =>
    case Kill(n) =>
    case Restart(n) =>
    case Toggle(n) =>
  }
}
