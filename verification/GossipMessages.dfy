/** The messages of the membership example, over what names an agent and what counts its beats (examples/gossip.rs). */
module GossipMessages {

  /** Tick and Init never leave the runtime of an agent; the others travel as bytes. */
  datatype Content<+T, +N> =
    | Ping(tag: T, beat: N)
    | Pong(tag: T, beat: N)
    | Spread(rumors: seq<(T, N)>)  // Message::Gossip
    | Stop
    | Tick
    | Init(horizon: N, tick: N, period: N, pings: seq<T>, countdown: T)
}
