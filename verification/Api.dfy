/**
 The values that travel between the event loop and its worker threads.

 An actor is a boxed object that is moved, never copied, so it is modelled by its identity.  The content
 of a message is opaque to the runtime, so it is a number.  The `stamp` of an envelope is bookkeeping of this model: it
 says who put the envelope on the action channel and as which entry.  No branch of the runtime reads it.
 */
module Api {

  /** The name an actor is registered under. */
  datatype Tag = Tag(name: string)

  datatype Actor = Actor(id: nat)

  /** An actor together with the address it was spawned under. */
  datatype Instance = Instance(tag: Tag, actor: Actor)

  datatype Origin = Outside | Sender(actor: Actor) | Timer

  datatype Stamp = Stamp(origin: Origin, serial: nat)

  datatype Envelope = Envelope(message: nat, from: Tag, to: Tag, stamp: Stamp)

  /** An entry of the delay heap; `at` is in nanoseconds. */
  datatype Entry = Entry(at: nat, tag: Tag, envelope: Envelope)

  /** Received by worker threads. */
  datatype Event =
    | Mail(tag: Tag, actor: Actor, envelope: Envelope)
    | Stop(tag: Tag, actor: Actor)
    | Shutdown

  /** Received by the event loop. */
  datatype Action =
    | Return(tag: Tag, actor: Actor, ok: bool)
    | Spawn(tag: Tag, actor: Actor)
    | Queue(tag: Tag, envelope: Envelope)
    | Delay(entry: Entry)
    | Stop(tag: Tag)
    | Logs(tag: Tag)
    | Metrics
    | Shutdown
}
