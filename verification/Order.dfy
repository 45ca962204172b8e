/**
 Messages of one address are handled in the order they were sent, in every run.

 Every message for an address travels through the action channel, the mailbox and the event channel.  Read from its
 far end, this pipeline always holds the messages in the order they entered it, whatever was dropped on the way.
 */
module Order {
  import opened Api
  import opened Scheduler
  import opened ActorSystem
  import opened Conservation

  /** The messages that workers have started on at address `t`, in order. */
  function BegunAt(log: seq<(Tag, Envelope)>, t: Tag): seq<Envelope> {
    if log == [] then []
    else (if log[0].0 == t then [log[0].1] else []) + BegunAt(log[1..], t)
  }

  function QueuedAt(q: seq<Action>, t: Tag): seq<Envelope> {
    if q == [] then []
    else Arrival(q[0], t) + QueuedAt(q[1..], t)
  }

  function Arrival(a: Action, t: Tag): seq<Envelope> {
    if a.Queue? && a.tag == t then [a.envelope] else []
  }

  function Pipeline(s: Sys, t: Tag): seq<Envelope> {
    BegunAt(s.past.begun, t) + MailTo(s.events, t) + Mailbox(s.loop, t) + QueuedAt(s.actions, t)
  }

  /** In order of sending, and each exactly as it was sent to `t`. */
  predicate InOrder(p: seq<Envelope>, sent: seq<(Tag, Envelope)>, t: Tag) {
    && (forall i, j :: 0 <= i < j < |p| ==> p[i].stamp.serial < p[j].stamp.serial)
    && (forall i :: 0 <= i < |p| ==> p[i].stamp.serial < |sent| && sent[p[i].stamp.serial] == (t, p[i]))
  }

  // --- Appending -----------------------------------------------------------------------------------------------------

  lemma {:induction false} BegunAppend(log: seq<(Tag, Envelope)>, x: (Tag, Envelope), t: Tag)
    ensures BegunAt(log + [x], t) == BegunAt(log, t) + if x.0 == t then [x.1] else []
  {
    if log == [] {
      assert log + [x] == [x];
    } else {
      assert (log + [x])[1..] == log[1..] + [x];
      BegunAppend(log[1..], x, t);
    }
  }

  lemma {:induction false} MailAppend(q: seq<Event>, more: seq<Event>, t: Tag)
    ensures MailTo(q + more, t) == MailTo(q, t) + MailTo(more, t)
  {
    if q == [] {
      assert q + more == more;
    } else {
      assert (q + more)[1..] == q[1..] + more;
      MailAppend(q[1..], more, t);
    }
  }

  lemma {:induction false} QueuedAppend(q: seq<Action>, a: Action, t: Tag)
    ensures QueuedAt(q + [a], t) == QueuedAt(q, t) + Arrival(a, t)
  {
    if q == [] {
      assert q + [a] == [a];
    } else {
      assert (q + [a])[1..] == q[1..] + [a];
      QueuedAppend(q[1..], a, t);
    }
  }

  // --- One step ------------------------------------------------------------------------------------------------------

  /** Taking a stretch out of the middle keeps the rest in order. */
  lemma Cut(a: seq<Envelope>, b: seq<Envelope>, c: seq<Envelope>, sent: seq<(Tag, Envelope)>, t: Tag)
    requires InOrder(a + b + c, sent, t)
    ensures InOrder(a + c, sent, t)
  {
    var p, p' := a + b + c, a + c;
    forall i | 0 <= i < |p'| ensures p'[i] == p[if i < |a| then i else i + |b|] {}
  }

  /** What moves from the mailbox to the workers stays where it is in the pipeline. */
  lemma Moved<T>(begun: seq<T>, mail: seq<T>, box: seq<T>, arrival: seq<T>, rest: seq<T>, out: seq<T>, box': seq<T>)
    requires box + arrival == out + box'
    ensures begun + (mail + out) + box' + rest == begun + mail + box + (arrival + rest)
  {
    assert begun + (mail + out) + box' + rest == begun + mail + (out + box') + rest;
    assert begun + mail + box + (arrival + rest) == begun + mail + (box + arrival) + rest;
  }

  lemma Extend(p: seq<Envelope>, sent: seq<(Tag, Envelope)>, t: Tag, to: Tag, e: Envelope)
    requires InOrder(p, sent, t) && e.stamp.serial == |sent|
    ensures InOrder(p + if to == t then [e] else [], sent + [(to, e)], t)
  {
    var p' := p + if to == t then [e] else [];
    forall i | 0 <= i < |p'| ensures i < |p| ==> p'[i] == p[i] {}
  }

  lemma SendOrdered(s: Sys, a: Action, origin: Origin, t: Tag)
    requires InOrder(Pipeline(s, t), s.past.sent, t)
    ensures InOrder(Pipeline(Send(s, a, origin), t), Send(s, a, origin).past.sent, t)
  {
    hide InOrder, QueuedAt, BegunAt, MailTo;
    var s' := Send(s, a, origin);
    var p := Pipeline(s, t);
    var last := s'.actions[|s.actions|];
    QueuedAppend(s.actions, last, t);
    assert Pipeline(s', t) == p + Arrival(last, t);
    if a.Queue? {
      Extend(p, s.past.sent, t, a.tag, last.envelope);
    } else {
      assert p + [] == p;
    }
  }

  lemma TakeOrdered(s: Sys, t: Tag)
    requires Enabled(s, Take) && (s.phase.Running? ==> Good(s.loop)) && InOrder(Pipeline(s, t), s.past.sent, t)
    ensures InOrder(Pipeline(TakeAction(s), t), TakeAction(s).past.sent, t)
  {
    hide Handle, Dropped, InOrder, Good, IdleEmpty;
    var s', a, rest := TakeAction(s), s.actions[0], QueuedAt(s.actions[1..], t);
    var begun, mail, box := BegunAt(s.past.begun, t), MailTo(s.events, t), Mailbox(s.loop, t);
    assert Pipeline(s, t) == begun + mail + box + (Arrival(a, t) + rest);
    if s.phase.Closing? {
      assert Pipeline(s, t) == (begun + mail + box) + Arrival(a, t) + rest;
      Cut(begun + mail + box, Arrival(a, t), rest, s.past.sent, t);
    } else if a.Shutdown? {
      Removed(begun, mail, box, Arrival(a, t), rest, s.past.sent, t);
      assert Pipeline(s', t) == begun + mail + rest;
    } else {
      HandledOrdered(s, t);
    }
  }

  lemma Removed(begun: seq<Envelope>, mail: seq<Envelope>, box: seq<Envelope>, arrival: seq<Envelope>,
                rest: seq<Envelope>, sent: seq<(Tag, Envelope)>, t: Tag)
    requires InOrder(begun + mail + box + (arrival + rest), sent, t)
    ensures InOrder(begun + mail + rest, sent, t)
  {
    hide InOrder;
    assert begun + mail + box + (arrival + rest) == (begun + mail) + (box + arrival) + rest;
    Cut(begun + mail, box + arrival, rest, sent, t);
  }

  lemma MovedOrRemoved(begun: seq<Envelope>, mail: seq<Envelope>, box: seq<Envelope>, arrival: seq<Envelope>,
                       rest: seq<Envelope>, out: seq<Envelope>, box': seq<Envelope>, sent: seq<(Tag, Envelope)>, t: Tag)
    requires InOrder(begun + mail + box + (arrival + rest), sent, t)
    requires box + arrival == out + box' || (out == [] && box' == [])
    ensures InOrder(begun + (mail + out) + box' + rest, sent, t)
  {
    hide InOrder;
    if box + arrival == out + box' {
      Moved(begun, mail, box, arrival, rest, out, box');
    } else {
      Removed(begun, mail, box, arrival, rest, sent, t);
      assert mail + out == mail && begun + mail + box' == begun + mail;
    }
  }

  lemma HandledOrdered(s: Sys, t: Tag)
    requires Enabled(s, Take) && s.phase.Running? && Good(s.loop) && !s.actions[0].Shutdown?
    requires InOrder(Pipeline(s, t), s.past.sent, t)
    ensures InOrder(Pipeline(TakeAction(s), t), TakeAction(s).past.sent, t)
  {
    hide Handle, InOrder, IdleEmpty, BegunAt, MailTo, Arrival;
    var a, rest := s.actions[0], QueuedAt(s.actions[1..], t);
    var (loop, events) := Handle(s.loop, a);
    ArrivalIs(a, t);
    HandleMail(s.loop, a, t);
    HandleKeepsGood(s.loop, a);
    MailAppend(s.events, events, t);
    MovedOrRemoved(BegunAt(s.past.begun, t), MailTo(s.events, t), Mailbox(s.loop, t), Arrival(a, t), rest,
                   MailTo(events, t), Mailbox(loop, t), s.past.sent, t);
  }

  lemma ArrivalIs(a: Action, t: Tag)
    ensures Arrival(a, t) == if a.Queue? && a.tag == t then [a.envelope] else []
  {
  }

  lemma PickOrdered(s: Sys, w: nat, t: Tag)
    requires Enabled(s, Pick(w))
    ensures Pipeline(PickEvent(s, w), t) == Pipeline(s, t) && PickEvent(s, w).past.sent == s.past.sent
  {
    var e := s.events[0];
    if e.Mail? {
      BegunAppend(s.past.begun, (e.tag, e.envelope), t);
      var first := if e.tag == t then [e.envelope] else [];
      assert BegunAt(s.past.begun, t) + (first + MailTo(s.events[1..], t))
          == (BegunAt(s.past.begun, t) + first) + MailTo(s.events[1..], t);
    }
  }

  lemma TokenOrdered(s: Sys, t: Tag)
    ensures MailTo(s.events + [Event.Shutdown], t) == MailTo(s.events, t)
  {
    MailAppend(s.events, [Event.Shutdown], t);
    assert MailTo([Event.Shutdown], t) == [];
  }

  lemma GiveBackOrdered(q: seq<Action>, a: Action, t: Tag)
    requires a.Return?
    ensures QueuedAt(q + [a], t) == QueuedAt(q, t)
  {
    QueuedAppend(q, a, t);
  }

  lemma StepOrdered(s: Sys, step: Step, t: Tag)
    requires Enabled(s, step) && (s.phase.Running? ==> Good(s.loop)) && InOrder(Pipeline(s, t), s.past.sent, t)
    ensures InOrder(Pipeline(Apply(s, step), t), Apply(s, step).past.sent, t)
  {
    match step
    case Post(a) => SendOrdered(s, a, Outside, t);
    case Take => TakeOrdered(s, t);
    case Expire(e) =>
      SendOrdered(s.(loop := s.loop.(tasks := s.loop.tasks - multiset{e})), Queue(e.tag, e.envelope), Timer, t);
    case Quit =>
      Cut(BegunAt(s.past.begun, t) + MailTo(s.events, t), Mailbox(s.loop, t), QueuedAt(s.actions, t), s.past.sent, t);
    case Token => TokenOrdered(s, t);
    case Pick(w) => PickOrdered(s, w, t);
    case Emit(w, a) => SendOrdered(s, a, if s.workers[w].Flushing? then Outside else Sender(s.workers[w].actor), t);
    case GiveBack(w) => GiveBackOrdered(s.actions, Apply(s, step).actions[|s.actions|], t);
    case _ =>
  }

  // --- Whole runs ----------------------------------------------------------------------------------------------------

  lemma {:induction false} RunOrdered(s: Sys, steps: seq<Step>, t: Tag)
    requires Runs(s, steps) && Good(s.loop) && InOrder(Pipeline(s, t), s.past.sent, t)
    ensures InOrder(Pipeline(End(s, steps), t), End(s, steps).past.sent, t)
    decreases |steps|
  {
    if steps != [] {
      hide Good, InOrder, Pipeline, Enabled, Apply;
      StepGood(s, steps[0]);
      StepOrdered(s, steps[0], t);
      RunOrdered(Apply(s, steps[0]), steps[1..], t);
    }
  }

  /**
   Order of delivery: of two messages handled at one address, the one handled first was sent first; and what is handled
   is what was sent.  In particular the messages from one sender to one address are handled in the order it sent them.
   */
  lemma HandledInOrderOfSending(s: Sys, steps: seq<Step>, t: Tag, i: nat, j: nat)
    requires Init(s) && Runs(s, steps)
    requires i < j < |BegunAt(End(s, steps).past.begun, t)|
    ensures var h, sent := BegunAt(End(s, steps).past.begun, t), End(s, steps).past.sent;
            && h[i].stamp.serial < h[j].stamp.serial < |sent|
            && sent[h[i].stamp.serial] == (t, h[i])
            && sent[h[j].stamp.serial] == (t, h[j])
  {
    RunOrdered(s, steps, t);
    var e := End(s, steps);
    var p, h := Pipeline(e, t), BegunAt(e.past.begun, t);
    assert p[i] == h[i] && p[j] == h[j];
  }

  // --- One sender and one receiver -----------------------------------------------------------------------------------

  function From(p: seq<Envelope>, sender: Origin): seq<Envelope> {
    if p == [] then []
    else (if p[0].stamp.origin == sender then [p[0]] else []) + From(p[1..], sender)
  }

  /** What `sender` put on the action channel for `t`, from entry `k` on, in order. */
  function SentTo(sent: seq<(Tag, Envelope)>, sender: Origin, t: Tag, k: nat): seq<Envelope>
    decreases |sent| - k
  {
    if k >= |sent| then []
    else
      (if sent[k].0 == t && sent[k].1.stamp.origin == sender then [sent[k].1] else []) + SentTo(sent, sender, t, k + 1)
  }

  predicate IsSubsequence<T(==)>(a: seq<T>, b: seq<T>) {
    a == [] || (b != [] && ((a[0] == b[0] && IsSubsequence(a[1..], b[1..])) || IsSubsequence(a, b[1..])))
  }

  lemma {:induction false} Embeds(p: seq<Envelope>, sent: seq<(Tag, Envelope)>, sender: Origin, t: Tag, k: nat)
    requires InOrder(p, sent, t) && forall i :: 0 <= i < |p| ==> p[i].stamp.serial >= k
    ensures IsSubsequence(From(p, sender), SentTo(sent, sender, t, k))
    decreases |sent| - k
  {
    if p != [] {
      var first := SentTo(sent, sender, t, k);
      var rest := SentTo(sent, sender, t, k + 1);
      assert p[0].stamp.serial < |sent|;
      if p[0].stamp.serial == k {
        assert sent[k] == (t, p[0]);
        Embeds(p[1..], sent, sender, t, k + 1);
        if p[0].stamp.origin == sender {
          assert first == [p[0]] + rest && first[1..] == rest;
          assert From(p, sender) == [p[0]] + From(p[1..], sender) && From(p, sender)[1..] == From(p[1..], sender);
        } else {
          assert first == rest && From(p, sender) == From(p[1..], sender);
        }
      } else {
        Embeds(p, sent, sender, t, k + 1);
        assert first == rest || first[1..] == rest;
      }
    }
  }

  /** What one sender sent to one address is handled there in the order it was sent; some of it may be missing. */
  lemma PairwiseOrder(s: Sys, steps: seq<Step>, sender: Actor, t: Tag)
    requires Init(s) && Runs(s, steps)
    ensures IsSubsequence(From(BegunAt(End(s, steps).past.begun, t), Sender(sender)),
                          SentTo(End(s, steps).past.sent, Sender(sender), t, 0))
  {
    RunOrdered(s, steps, t);
    var e := End(s, steps);
    var p, h := Pipeline(e, t), BegunAt(e.past.begun, t);
    assert h == p[..|h|];
    Embeds(h, e.past.sent, Sender(sender), t, 0);
  }
}
