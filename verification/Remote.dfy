/**
 From an actor to an actor on another host, and back: client, connection and reply address (src/core.rs,
 src/remote/client.rs, src/remote/server.rs).
 */
module Remote {
  import opened Wrappers
  import opened Words
  import opened Buffers
  import opened Addresses
  import opened Packets
  import opened Reassembly

  /** An envelope that carries bytes, the only kind the client forwards. */
  datatype Letter = Letter(payload: seq<byte>, from: Text, to: Text)

  /** A `Queue` action: what a sender puts on the action channel. */
  datatype Post = Post(tag: seq<byte>, letter: Letter)

  /** `$CLIENT`. */
  const CLIENT: seq<byte> := [0x24, 0x43, 0x4C, 0x49, 0x45, 0x4E, 0x54]

  /** `Local::send` with `adjust_remote_address`. */
  function Routed(address: Text, letter: Letter): Post {
    if AT in address then Post(CLIENT, letter.(to := address)) else Post(address, letter)
  }

  // --- The client ----------------------------------------------------------------------------------------------------

  /** The packet for a letter the client was handed. */
  function Packed(letter: Letter, port: u16): Packet {
    Packet(Split(letter.to).0, letter.from, letter.payload, port)
  }

  datatype Sending = Sent | Failed | Panicked

  function HostOf(letter: Letter): Text {
    Split(letter.to).1
  }

  /** Among the first `n` letters is one for `host` whose address was opened under that very name. */
  predicate Opened(letters: seq<Letter>, resolved: seq<Option<Text>>, n: nat, host: Text)
    requires n <= |letters| == |resolved|
  {
    exists j :: 0 <= j < n && HostOf(letters[j]) == host && resolved[j] == Some(host)
  }

  predicate OpenedBy(letters: seq<Letter>, resolved: seq<Option<Text>>, i: nat)
    requires i < |letters| == |resolved|
  {
    Opened(letters, resolved, i + 1, HostOf(letters[i]))
  }

  /** What the outcome for a letter adds to the bytes for a host. */
  function Given(letter: Letter, r: Sending, host: Text, port: u16): seq<byte> {
    if r == Sent && HostOf(letter) == host then Encoded(Packed(letter, port)) else []
  }

  /** The packets of the letters to `host` that were sent. */
  function SentTo(letters: seq<Letter>, rs: seq<Sending>, host: Text, port: u16): seq<Packet>
    requires |rs| <= |letters|
  {
    if rs == [] then []
    else
      var i := |rs| - 1;
      SentTo(letters, rs[..i], host, port)
      + if rs[i] == Sent && HostOf(letters[i]) == host then [Packed(letters[i], port)] else []
  }

  class Client {
    var counter: nat
    var targets: map<nat, Text>         // the `target` of each open connection
    var outgoing: map<nat, seq<byte>>   // and its `send_buf`
    var destinations: map<Text, nat>
    const responsePort: u16

    /** A destination names an open connection to itself, and ids are not used twice. */
    predicate Valid()
      reads this
    {
      && targets.Keys == outgoing.Keys
      && (forall id :: id in targets ==> id <= counter)
      && (forall host :: host in destinations ==> destinations[host] in targets && targets[destinations[host]] == host)
    }

    constructor (responsePort: u16)
      ensures Valid() && this.responsePort == responsePort && destinations == map[]
    {
      this.responsePort := responsePort;
      counter, targets, outgoing, destinations := 0, map[], map[], map[];
    }

    /** `connect`; `resolved` is the printed form of the parsed host, if it could be parsed and connected to. */
    method Connect(resolved: Option<Text>) returns (ok: bool)
      requires Valid()
      modifies this
      ensures Valid() && ok == resolved.Some? && counter == old(counter) + 1
      ensures ok ==> targets == old(targets)[counter := resolved.value] && outgoing == old(outgoing)[counter := []]
                     && destinations == old(destinations)[resolved.value := counter]
      ensures !ok ==> targets == old(targets) && outgoing == old(outgoing) && destinations == old(destinations)
    {
      counter := counter + 1;
      if resolved.None? {
        return false;
      }
      var host := resolved.value;
      targets := targets[counter := host];
      outgoing := outgoing[counter := []];
      destinations := destinations[host := counter];
      return true;
    }

    /** What waits to be written to a host. */
    function Outbox(host: Text): seq<byte>
      reads this
      requires Valid()
    {
      if host in destinations then outgoing[destinations[host]] else []
    }

    /** The branch of `receive` for bytes. */
    method Receive(letter: Letter, resolved: Option<Text>) returns (r: Sending)
      requires Valid()
      modifies this
      ensures Valid()
      ensures r == Expected(HostOf(letter) in old(destinations), HostOf(letter), resolved)
      ensures HostOf(letter) in old(destinations) ==> r == Sent && destinations == old(destinations)
      ensures HostOf(letter) !in old(destinations) ==>
                match resolved
                case None => r == Failed && destinations == old(destinations)
                case Some(address) =>
                  && r == (if address == HostOf(letter) then Sent else Panicked)
                  && destinations == old(destinations)[address := counter] && counter == old(counter) + 1
      ensures r == Sent ==>
                var host := HostOf(letter);
                && host in destinations
                && outgoing[destinations[host]]
                   == (if host in old(destinations) then old(outgoing[destinations[host]]) else [])
                      + Encoded(Packed(letter, responsePort))
                && (forall id :: id in old(outgoing) && id != destinations[host] ==>
                      id in outgoing && outgoing[id] == old(outgoing[id]))
      ensures r != Sent ==> forall id :: id in old(outgoing) ==> id in outgoing && outgoing[id] == old(outgoing[id])
      ensures r != Panicked ==> forall host :: Outbox(host) == old(Outbox(host)) + Given(letter, r, host, responsePort)
    {
      hide Encoded, Split, Utf8;
      var (to, host) := Split(letter.to);
      var ok := host in destinations;
      if !ok {
        ok := Connect(resolved);
      }
      if !ok {
        return Failed;
      }
      if host !in destinations {
        return Panicked;
      }
      var bytes := ToBytes(Packet(to, letter.from, letter.payload, responsePort));
      var id := destinations[host];
      outgoing := outgoing[id := outgoing[id] + bytes];
      return Sent;
    }

    /**
     Letters to any hosts, handed over one after the other until a lookup panics.  The bytes for each host grow by the
     packets of the letters sent to it, in order, and by nothing else; a letter is sent exactly when its host was
     connected before, or its address was opened under that very name for it or for an earlier letter.
     */
    method ReceiveAll(letters: seq<Letter>, resolved: seq<Option<Text>>) returns (rs: seq<Sending>)
      requires Valid() && |letters| == |resolved|
      modifies this
      ensures Valid() && |rs| <= |letters|
      ensures |rs| < |letters| ==> rs != [] && rs[|rs| - 1] == Panicked
      ensures forall i :: 0 <= i < |rs| - 1 ==> rs[i] != Panicked
      ensures forall i :: 0 <= i < |rs| ==>
                (rs[i] == Sent <==> HostOf(letters[i]) in old(destinations) || OpenedBy(letters, resolved, i))
      ensures forall i :: 0 <= i < |rs| && rs[i] != Sent ==> (rs[i] == Failed <==> resolved[i] == None)
      ensures Panicked !in rs ==>
                forall host :: Outbox(host) == old(Outbox(host)) + Joined(SentTo(letters, rs, host, responsePort))
    {
      hide *;
      rs := [];
      Unsent(letters, responsePort);
      NoneOpened(letters, resolved);
      while |rs| < |letters|
        invariant Valid() && |rs| <= |letters| && Panicked !in rs
        invariant forall host ::
                    host in destinations <==> host in old(destinations) || Opened(letters, resolved, |rs|, host)
        invariant forall i :: 0 <= i < |rs| ==>
                    (rs[i] == Sent <==> HostOf(letters[i]) in old(destinations) || OpenedBy(letters, resolved, i))
        invariant forall i :: 0 <= i < |rs| && rs[i] != Sent ==> (rs[i] == Failed <==> resolved[i] == None)
        invariant forall host :: Outbox(host) == old(Outbox(host)) + Joined(SentTo(letters, rs, host, responsePort))
      {
        var i := |rs|;
        var r := Receive(letters[i], resolved[i]);
        SentMore(letters, rs, r, responsePort);
        OpenedMore(letters, resolved, i);
        rs := rs + [r];
        if r == Panicked {
          return;
        }
      }
    }

    /** The end of `poll` for a connection found closed. */
    method Close(id: nat)
      requires Valid() && id in targets
      modifies this
      ensures Valid()
      ensures targets == old(targets) - {id} && outgoing == old(outgoing) - {id}
      ensures destinations == old(destinations) - {old(targets[id])}
    {
      destinations := destinations - {targets[id]};
      targets, outgoing := targets - {id}, outgoing - {id};
    }
  }

  /**
   The outcome for a letter, from what a caller can see.  A new connection is filed under the printed form of its
   address, and the lookup that follows uses the text of the letter, so a host written another way is a panic.
   */
  function Expected(known: bool, host: Text, resolved: Option<Text>): Sending {
    if known then Sent
    else if resolved.None? then Failed
    else if resolved.value != host then Panicked
    else Sent
  }

  /**
   For an IP address in its printed form and any numeral of a port, a first letter to that host is sent exactly when the
   numeral has no zero in front; otherwise the client panics.  Rust reads a port with zeros in front as its number.
   */
  lemma NewHostIsSentExactlyWhen(ip: Text, port: seq<byte>)
    requires Numeral(port) && Value(port) < 0x1_0000
    ensures Expected(false, Written(ip, port), Some(Socket(ip, Value(port))))
         == if |port| == 1 || port[0] != ZERO then Sent else Panicked
  {
    WrittenAsPrintedExactlyWhen(ip, port);
  }

  lemma Unsent(letters: seq<Letter>, port: u16)
    ensures forall host: Text :: Joined(SentTo(letters, [], host, port)) == []
  {
  }

  lemma SentMore(letters: seq<Letter>, rs: seq<Sending>, r: Sending, port: u16)
    requires |rs| < |letters|
    ensures forall host: Text ::
              Joined(SentTo(letters, rs + [r], host, port))
              == Joined(SentTo(letters, rs, host, port)) + Given(letters[|rs|], r, host, port)
  {
    hide Joined, Packed, HostOf, Encoded, Utf8;
    var all := rs + [r];
    assert all[..|rs|] == rs && all[|rs|] == r;
    forall host: Text ensures Joined(SentTo(letters, rs + [r], host, port))
                           == Joined(SentTo(letters, rs, host, port)) + Given(letters[|rs|], r, host, port) {
      var sent := SentTo(letters, rs, host, port);
      JoinedMore(sent, Packed(letters[|rs|], port));
      assert sent + [] == sent;
    }
  }

  lemma NoneOpened(letters: seq<Letter>, resolved: seq<Option<Text>>)
    requires |letters| == |resolved|
    ensures forall host: Text :: !Opened(letters, resolved, 0, host)
  {
  }

  lemma OpenedMore(letters: seq<Letter>, resolved: seq<Option<Text>>, n: nat)
    requires n < |letters| == |resolved|
    ensures forall host: Text :: Opened(letters, resolved, n + 1, host) <==>
              Opened(letters, resolved, n, host) || (HostOf(letters[n]) == host && resolved[n] == Some(host))
    ensures OpenedBy(letters, resolved, n) == Opened(letters, resolved, n + 1, HostOf(letters[n]))
  {
    hide HostOf, Utf8;
  }

  // --- The connection ------------------------------------------------------------------------------------------------

  /** The reply address the server writes: the sender's name at the sender's address, with the port it listens on. */
  function ReplyTo(p: Packet, ip: Text): Text {
    Join(p.from, Socket(ip, p.port))
  }

  function Delivery(p: Packet, ip: Text): Post {
    Routed(p.to, Letter(p.payload, ReplyTo(p, ip), p.to))
  }

  function Deliveries(ps: seq<Packet>, ip: Text): (posts: seq<Post>)
    ensures |posts| == |ps|
  {
    if ps == [] then [] else [Delivery(ps[0], ip)] + Deliveries(ps[1..], ip)
  }

  datatype Read = Nothing | Closed | Bytes(bytes: seq<byte>)

  class Connection {
    const ip: Text
    const input: ByteStream
    var isOpen: bool
    var keepAlive: bool
    var output: seq<byte>
    var canWrite: bool
    var posts: seq<Post>
    var stops: nat      // how often it asked to be stopped

    constructor (ip: Text)
      ensures this.ip == ip && isOpen && keepAlive && !canWrite && output == [] && posts == [] && stops == 0
      ensures fresh(input) && input.View() == Stream([], 0)
    {
      this.ip := ip;
      input := new ByteStream([]);
      isOpen, keepAlive, canWrite, output, posts, stops := true, true, false, [], [], 0;
    }

    method KeepOpen() returns (open: bool)
      modifies this`isOpen, this`stops
      ensures open == isOpen == (old(isOpen) || !keepAlive)
      ensures stops == old(stops) + if open then 0 else 1
    {
      if !isOpen {
        if !keepAlive {
          isOpen := true;
        } else {
          stops := stops + 1;
        }
      }
      open := isOpen;
    }

    /** The loop of `receive`: everything that can be read is posted, in order, and a stream that is too long fails. */
    method Parse() returns (end: Outcome)
      requires input.cursor <= |input.data|
      modifies this`isOpen, this`posts, input
      ensures input.cursor <= |input.data|
      ensures end == Drained(old(input.View()), LIMIT).1
      ensures end != Panic ==> input.View() == Drained(old(input.View()), LIMIT).2
      ensures posts == old(posts) + Deliveries(Drained(old(input.View()), LIMIT).0, ip)
      ensures isOpen == (old(isOpen) && end != TooLong)
    {
      hide Parsed, Delivery, Utf8;
      ghost var parsed: seq<Packet> := [];
      ghost var all := Drained(input.View(), LIMIT);
      while true
        invariant input.cursor <= |input.data|
        invariant posts == old(posts) + Deliveries(parsed, ip)
        invariant all.0 == parsed + Drained(input.View(), LIMIT).0
        invariant all.1 == Drained(input.View(), LIMIT).1 && all.2 == Drained(input.View(), LIMIT).2
        invariant isOpen == old(isOpen)
        decreases |input.data|
      {
        ghost var before := input.View();
        var r := input.FromBytes(LIMIT);
        if !r.Got? {
          assert Drained(before, LIMIT) == ([], r, Parsed(before, LIMIT).1);
          assert all.0 == parsed;
          isOpen := isOpen && r != TooLong;
          return r;
        }
        posts := posts + [Delivery(r.packet, ip)];
        OneMore(parsed, r.packet, ip);
        assert Drained(before, LIMIT).0 == [r.packet] + Drained(input.View(), LIMIT).0;
        parsed := parsed + [r.packet];
      }
    }

    /** `receive` for a `Work` message; `ok` is false when parsing panicked. */
    method Receive(work: Read, writable: bool, writes: bool) returns (ok: bool)
      requires input.cursor <= |input.data|
      modifies this`isOpen, this`canWrite, this`output, this`posts, this`stops, input
      ensures input.cursor <= |input.data|
      ensures canWrite == (old(canWrite) || writable)
      ensures var start := Filled(old(input.View()), work);
              var closed := (!old(isOpen) || work == Closed) && keepAlive;
              if closed then
                ok && posts == old(posts) && stops == old(stops) + 1 && output == old(output) && input.View() == start
              else
                && ok == (Drained(start, LIMIT).1 != Panic)
                && posts == old(posts) + Deliveries(Drained(start, LIMIT).0, ip)
                && (ok ==> input.View() == Drained(start, LIMIT).2)
                && (ok ==>
                      var failed := Drained(start, LIMIT).1 == TooLong || (canWrite && old(output) != [] && !writes);
                      isOpen == !(failed && keepAlive) && stops == old(stops) + if isOpen then 0 else 1)
                && output == (if ok && canWrite && writes then [] else old(output))
    {
      hide Drained, Deliveries, Utf8;
      canWrite := canWrite || writable;
      match work {
        case Nothing =>
        case Closed => isOpen := false;
        case Bytes(b) => input.Put(b);
      }
      var open := KeepOpen();
      if !open {
        return true;
      }
      var end := Parse();
      if end == Panic {
        return false;
      }
      if canWrite && |output| > 0 {
        if writes {
          output := [];
        } else {
          isOpen := false;
        }
      }
      open := KeepOpen();
      return true;
    }

    /**
     Pieces that arrive one after the other, until the connection asks to be stopped or the parser panics: what can be
     read of them is posted, in order, and nothing else.
     */
    method ReceiveAll(chunks: seq<seq<byte>>) returns (ok: bool)
      requires isOpen && keepAlive && output == [] && input.View() == Stream([], 0)
      modifies this`isOpen, this`canWrite, this`output, this`posts, this`stops, input
      ensures posts == old(posts) + Deliveries(Fed(chunks, LIMIT).0, ip)
      ensures ok == (Fed(chunks, LIMIT).1 != Panic)
      ensures ok ==> isOpen == (Fed(chunks, LIMIT).1 != TooLong)
      ensures Fed(chunks, LIMIT).1 == Outcome.Nothing ==> input.View() == Fed(chunks, LIMIT).2
    {
      hide Drained, Deliveries, Utf8;
      for n := 0 to |chunks|
        invariant input.cursor <= |input.data| && output == []
        invariant posts == old(posts) + Deliveries(Fed(chunks[..n], LIMIT).0, ip)
        invariant isOpen && Fed(chunks[..n], LIMIT).1 == Outcome.Nothing && input.View() == Fed(chunks[..n], LIMIT).2
      {
        assert chunks[..n + 1][..n] == chunks[..n];
        ghost var start := Filled(input.View(), Bytes(chunks[n]));
        DeliveriesSplit(Fed(chunks[..n], LIMIT).0, Drained(start, LIMIT).0, ip);
        FedOne(chunks, n, LIMIT);
        ok := Receive(Bytes(chunks[n]), false, false);
        if !ok || !isOpen {
          FedEnds(chunks, n + 1, LIMIT);
          return;
        }
      }
      assert chunks[..|chunks|] == chunks;
      return true;
    }
  }

  function Filled(s: Stream, work: Read): Stream {
    if work.Bytes? then s.(data := s.data + work.bytes) else s
  }

  lemma {:induction false} OneMore(ps: seq<Packet>, p: Packet, ip: Text)
    ensures Deliveries(ps + [p], ip) == Deliveries(ps, ip) + [Delivery(p, ip)]
  {
    hide Delivery, Utf8;
    if ps == [] {
      assert [p] + [] == [p];
    } else {
      assert (ps + [p])[1..] == ps[1..] + [p];
      OneMore(ps[1..], p, ip);
    }
  }

  lemma {:induction false} DeliveriesSplit(ps: seq<Packet>, qs: seq<Packet>, ip: Text)
    ensures Deliveries(ps + qs, ip) == Deliveries(ps, ip) + Deliveries(qs, ip)
  {
    hide Delivery, Utf8;
    if ps == [] {
      assert ps + qs == qs;
    } else {
      assert (ps + qs)[1..] == ps[1..] + qs;
      DeliveriesSplit(ps[1..], qs, ip);
    }
  }

  lemma {:induction false} DeliveriesAt(ps: seq<Packet>, ip: Text, i: nat)
    requires i < |ps|
    ensures Deliveries(ps, ip)[i] == Delivery(ps[i], ip)
  {
    hide Delivery, Utf8;
    if i > 0 {
      DeliveriesAt(ps[1..], ip, i - 1);
    }
  }

  // --- End to end ----------------------------------------------------------------------------------------------------

  /** One message: `payload` sent to the actor `to` at `host` by the actor `from`. */
  datatype Message = Message(payload: seq<byte>, from: Text, to: Text, host: Text)

  /** The letter as it reaches the client of the sending side. */
  function Handed(m: Message): Letter {
    Routed(Join(m.to, m.host), Letter(m.payload, m.from, [])).letter
  }

  function Wire(ms: seq<Message>, port: u16): seq<Packet> {
    seq(|ms|, i requires 0 <= i < |ms| => Packed(Handed(ms[i]), port))
  }

  predicate Addressable(m: Message) {
    AT !in m.to && AT !in m.host
  }

  lemma PackedMessage(m: Message, port: u16)
    requires Addressable(m)
    ensures Routed(Join(m.to, m.host), Letter(m.payload, m.from, [])).tag == CLIENT
    ensures Split(Handed(m).to).1 == m.host
    ensures Packed(Handed(m), port) == Packet(m.to, m.from, m.payload, port)
  {
    hide Split, Join, Utf8;
    SplitJoinExactlyWhen(m.to, m.host);
  }

  /** What the receiving actor gets for a message. */
  function Received(m: Message, ip: Text, port: u16): Post {
    Post(m.to, Letter(m.payload, Join(m.from, Socket(ip, port)), m.to))
  }

  lemma WireDelivery(ms: seq<Message>, ip: Text, port: u16)
    requires forall m :: m in ms ==> Addressable(m)
    ensures forall i :: 0 <= i < |ms| ==> Deliveries(Wire(ms, port), ip)[i] == Received(ms[i], ip, port)
  {
    hide Deliveries, Split, Join, Utf8, Packed, Handed, Socket;
    forall i | 0 <= i < |ms| ensures Deliveries(Wire(ms, port), ip)[i] == Received(ms[i], ip, port) {
      DeliveriesAt(Wire(ms, port), ip, i);
      PackedMessage(ms[i], port);
    }
  }

  /** The letters in which messages reach the client. */
  function Letters(ms: seq<Message>): seq<Letter> {
    seq(|ms|, i requires 0 <= i < |ms| => Handed(ms[i]))
  }

  /** Of the messages handed to the client, with these outcomes, those that were sent to `host`. */
  function MessagesTo(ms: seq<Message>, rs: seq<Sending>, host: Text): seq<Message>
    requires |rs| <= |ms|
  {
    if rs == [] then []
    else
      var i := |rs| - 1;
      MessagesTo(ms, rs[..i], host) + if rs[i] == Sent && ms[i].host == host then [ms[i]] else []
  }

  lemma {:induction false} SentIsWire(ms: seq<Message>, rs: seq<Sending>, host: Text, port: u16)
    requires |rs| <= |ms| && forall m :: m in ms ==> Addressable(m)
    ensures SentTo(Letters(ms), rs, host, port) == Wire(MessagesTo(ms, rs, host), port)
    ensures forall m :: m in MessagesTo(ms, rs, host) ==> m in ms
  {
    hide Split, Join, Utf8, Handed, Packed, Addressable;
    if rs != [] {
      var i := |rs| - 1;
      SentIsWire(ms, rs[..i], host, port);
      PackedMessage(ms[i], port);
    }
  }

  /**
   Of messages to any actors on any hosts, in whatever pieces arrive what the client sends to one host: they come out at
   its server, at the actors they were addressed to, unchanged, in order, once each, and nothing else is posted and
   nothing is left, exactly when no piece ends after the header of a packet and before its end.
   */
  lemma RemoteDelivery(
    ms: seq<Message>, rs: seq<Sending>, host: Text, chunks: seq<seq<byte>>, ip: Text, port: u16)
    requires |rs| <= |ms| && forall m :: m in ms ==> Addressable(m) && Fits(Packed(Handed(m), port), LIMIT)
    requires var mine := MessagesTo(ms, rs, host); mine != [] ==> !Bare(Packed(Handed(mine[|mine| - 1]), port))
    requires Whole(chunks) == Joined(SentTo(Letters(ms), rs, host, port))
    ensures var mine := MessagesTo(ms, rs, host);
            var (ps, end, left) := Fed(chunks, LIMIT);
            && (CleanCuts(Wire(mine, port), chunks, |chunks|) <==>
                  (ps, end, left) == (Wire(mine, port), Outcome.Nothing, Stream([], 0)))
            && (ps == Wire(mine, port) ==>
                  && |Deliveries(ps, ip)| == |mine|
                  && forall i :: 0 <= i < |mine| ==> Deliveries(ps, ip)[i] == Received(mine[i], ip, port))
  {
    hide Fed, Joined, Deliveries, Split, Join, Utf8, Packed, Handed, Socket, Bare, Fits, SentTo, MessagesTo, CleanCut;
    var mine := MessagesTo(ms, rs, host);
    SentIsWire(ms, rs, host, port);
    forall i | 0 <= i < |mine| ensures Fits(Wire(mine, port)[i], LIMIT) {
      assert mine[i] in ms;
    }
    ArrivesExactlyWhen(Wire(mine, port), chunks, LIMIT);
    WireDelivery(mine, ip, port);
  }

  /**
   A reply to the address a message came from goes to the client, which splits it into the sender's name and the
   address of the sender's server, exactly when neither the name nor the printed address holds an `@`.
   */
  lemma ReplyComesBackExactlyWhen(m: Message, ip: Text, port: u16, answer: seq<byte>, me: Text)
    ensures var from := Received(m, ip, port).letter.from;
            var reply := Routed(from, Letter(answer, me, []));
            && reply.tag == CLIENT && reply.letter.payload == answer && reply.letter.from == me
            && (Split(reply.letter.to) == (m.from, Socket(ip, port)) <==> AT !in m.from && AT !in ip)
  {
    hide Split, Utf8;
    SplitJoinExactlyWhen(m.from, Socket(ip, port));
  }

  /** The server reaches its connections through the runtime of its own host. */
  lemma ConnectionsAreLocal(me: Text, id: nat, letter: Letter)
    requires AT !in me && Utf8(ConnectionTag(me, id))
    ensures Routed(ConnectionTag(me, id), letter) == Post(ConnectionTag(me, id), letter)
  {
    hide Padded, Utf8;
    var t := ConnectionTag(me, id);
    forall i | 0 <= i < |t| ensures t[i] != AT {
      if i < |me| {
        assert me[i] in me;
      } else if i > |me| {
        assert t[i] == Padded(id)[i - |me| - 1];
      }
    }
  }
}
