/**
 The actor model as its users think of it: every address has one actor and one first-in-first-out mailbox, and handles
 one message at a time.  There are no threads, channels or scheduler here.
 */
module ActorModel {
  import opened Api

  datatype Turn = Ready | Running(envelope: Envelope) | Crashed

  datatype Cell = Cell(actor: Actor, mailbox: seq<Envelope>, turn: Turn, registered: bool)

  /** Who lives at which address, and who has left and still has to be told to stop. */
  datatype World = World(cells: map<Tag, Cell>, leaving: multiset<Instance>)

  datatype Label =
    | Registered(tag: Tag, actor: Actor)
    | Accepted(tag: Tag, envelope: Envelope)
    | Began(tag: Tag, actor: Actor, envelope: Envelope)
    | Ended(tag: Tag, actor: Actor, ok: bool)
    | Unregistered(tag: Tag, keep: nat)  // the mailbox is dropped, but for a first message already on its way
    | Retired(tag: Tag, actor: Actor)    // the actor has left its address and is to be stopped
    | Buried(tag: Tag, actor: Actor)     // the actor crashed and is gone
    | Halted(tag: Tag, actor: Actor)     // the actor is being stopped
    | Closed(onTheirWay: set<Tag>)       // all addresses are given up
    | Discarded(tag: Tag, actor: Actor)  // after that, an actor is dropped without a word

  const NOWHERE := World(map[], multiset{})

  predicate At(w: World, t: Tag, i: Actor) {
    t in w.cells && w.cells[t].actor == i
  }

  predicate Allowed(w: World, l: Label) {
    match l
    case Registered(t, _) => t !in w.cells
    case Accepted(t, _) => t in w.cells && w.cells[t].registered
    case Began(t, i, e) =>
      At(w, t, i) && w.cells[t].turn == Ready && w.cells[t].mailbox != [] && w.cells[t].mailbox[0] == e
    case Ended(t, i, _) => At(w, t, i) && w.cells[t].turn.Running?
    case Unregistered(t, keep) =>
      t in w.cells && w.cells[t].registered && keep <= 1 && keep <= |w.cells[t].mailbox| &&
      (w.cells[t].turn != Ready ==> keep == 0)
    case Retired(t, i) => At(w, t, i) && w.cells[t] == Cell(i, [], Ready, false)
    case Buried(t, i) => At(w, t, i) && w.cells[t] == Cell(i, [], Crashed, false)
    case Halted(t, i) => w.leaving[Instance(t, i)] > 0
    case Closed(onTheirWay) =>
      forall t :: t in onTheirWay ==> t in w.cells && w.cells[t].turn == Ready && w.cells[t].mailbox != []
    case Discarded(t, i) =>
      At(w, t, i) && !w.cells[t].registered && w.cells[t].mailbox == [] && !w.cells[t].turn.Running?
  }

  function Follow(w: World, l: Label): World
    requires Allowed(w, l)
  {
    match l
    case Registered(t, i) => w.(cells := w.cells[t := Cell(i, [], Ready, true)])
    case Accepted(t, e) => w.(cells := w.cells[t := w.cells[t].(mailbox := w.cells[t].mailbox + [e])])
    case Began(t, _, e) =>
      w.(cells := w.cells[t := w.cells[t].(mailbox := w.cells[t].mailbox[1..], turn := Running(e))])
    case Ended(t, _, ok) => w.(cells := w.cells[t := w.cells[t].(turn := if ok then Ready else Crashed)])
    case Unregistered(t, keep) =>
      w.(cells := w.cells[t := w.cells[t].(mailbox := w.cells[t].mailbox[..keep], registered := false)])
    case Retired(t, i) => World(w.cells - {t}, w.leaving + multiset{Instance(t, i)})
    case Buried(t, _) => w.(cells := w.cells - {t})
    case Halted(t, i) => w.(leaving := w.leaving - multiset{Instance(t, i)})
    case Closed(onTheirWay) =>
      w.(cells := map t | t in w.cells ::
        w.cells[t].(mailbox := if t in onTheirWay then w.cells[t].mailbox[..1] else [], registered := false))
    case Discarded(t, _) => w.(cells := w.cells - {t})
  }

  predicate Lives(w: World, trace: seq<Label>)
    decreases |trace|
  {
    trace == [] || (Allowed(w, trace[0]) && Lives(Follow(w, trace[0]), trace[1..]))
  }

  function Fate(w: World, trace: seq<Label>): World
    requires Lives(w, trace)
    decreases |trace|
  {
    if trace == [] then w else Fate(Follow(w, trace[0]), trace[1..])
  }

  lemma {:induction false} LivesOn(w: World, past: seq<Label>, more: seq<Label>)
    requires Lives(w, past) && Lives(Fate(w, past), more)
    ensures Lives(w, past + more) && Fate(w, past + more) == Fate(Fate(w, past), more)
    decreases |past|
  {
    if past == [] {
      assert past + more == more;
    } else {
      hide Allowed, Follow;
      assert (past + more)[1..] == past[1..] + more;
      LivesOn(Follow(w, past[0]), past[1..], more);
    }
  }

  // --- What a trace says about one address, read off the labels alone ------------------------------------------------

  datatype Story = Story(
    actor: set<Actor>,         // the actor registered last, if any
    accepted: seq<Envelope>,   // what was accepted since then
    begun: seq<Envelope>,      // what was started since then
    open: int,                 // turns started minus turns ended, ever
    late: nat,                 // turns started after that registration was over
    strangers: nat             // turns ever started by any other actor than the one registered last
  )

  const UNTOLD := Story({}, [], [], 0, 0, 0)

  function Tell(s: Story, l: Label, gone: bool): Story {
    match l
    case Registered(_, i) => Story({i}, [], [], s.open, 0, s.strangers)
    case Accepted(_, e) => s.(accepted := s.accepted + [e])
    case Began(_, i, e) =>
      s.(begun := s.begun + [e], open := s.open + 1, late := if gone then s.late + 1 else s.late,
         strangers := if i in s.actor then s.strangers else s.strangers + 1)
    case Ended(_, _, _) => s.(open := s.open - 1)
    case _ => s
  }

  predicate About(l: Label, t: Tag) {
    !l.Closed? && l.tag == t
  }

  /** Whether the latest registration of `t` is over. */
  predicate Over(trace: seq<Label>, t: Tag) {
    trace != [] && OverAfter(Over(trace[..|trace| - 1], t), trace[|trace| - 1], t)
  }

  function StoryOf(trace: seq<Label>, t: Tag): Story {
    if trace == [] then UNTOLD
    else
      var past, l := trace[..|trace| - 1], trace[|trace| - 1];
      if About(l, t) then Tell(StoryOf(past, t), l, Over(past, t)) else StoryOf(past, t)
  }

  predicate OverAfter(over: bool, l: Label, t: Tag) {
    if l.Registered? && l.tag == t then false else l.Closed? || (l.Unregistered? && l.tag == t) || over
  }

  /** How the story of an address agrees with what is there. */
  predicate Agrees(w: World, story: Story, over: bool, t: Tag) {
    story.strangers == 0 &&
    if t in w.cells then
      var c := w.cells[t];
      && story.actor == {c.actor}
      && c.registered == !over
      && (c.registered ==> story.accepted == story.begun + c.mailbox && story.late == 0)
      && story.begun + c.mailbox <= story.accepted
      && story.open == (if c.turn.Running? then 1 else 0)
      && (over ==> story.late + |c.mailbox| <= 1)
    else
      && story.begun <= story.accepted
      && story.open == 0
      && story.late <= 1
      && (story != UNTOLD ==> over)
  }

  lemma AgreesOn(w: World, l: Label, story: Story, over: bool, t: Tag)
    requires Allowed(w, l) && Agrees(w, story, over, t)
    ensures Agrees(Follow(w, l), if About(l, t) then Tell(story, l, over) else story, OverAfter(over, l, t), t)
  {
    if About(l, t) {
      AgreesHere(w, l, story, over, t);
    } else if l.Closed? && t in w.cells {
      var c, c' := w.cells[t], Follow(w, l).cells[t];
      assert c'.mailbox <= c.mailbox && |c'.mailbox| <= 1;
      assert story.begun + c'.mailbox <= story.begun + c.mailbox;
    }
  }

  lemma AgreesHere(w: World, l: Label, story: Story, over: bool, t: Tag)
    requires Allowed(w, l) && About(l, t) && Agrees(w, story, over, t)
    ensures Agrees(Follow(w, l), Tell(story, l, over), OverAfter(over, l, t), t)
  {
    if t in w.cells {
      var box := w.cells[t].mailbox;
      match l
      case Accepted(_, e) =>
        assert story.begun + (box + [e]) == (story.begun + box) + [e];
      case Began(_, _, e) =>
        assert box == [e] + box[1..];
        assert (story.begun + [e]) + box[1..] == story.begun + box;
      case Unregistered(_, keep) =>
        assert story.begun + box[..keep] <= story.begun + box;
      case _ =>
    }
  }

  lemma {:induction false} LivesBefore(w: World, trace: seq<Label>)
    requires trace != [] && Lives(w, trace)
    ensures var past, l := trace[..|trace| - 1], trace[|trace| - 1];
            Lives(w, past) && Allowed(Fate(w, past), l) && Fate(w, trace) == Follow(Fate(w, past), l)
    decreases |trace|
  {
    var past := trace[..|trace| - 1];
    if |trace| > 1 {
      hide Allowed, Follow;
      assert past[1..] == trace[1..][..|trace| - 2];
      LivesBefore(Follow(w, trace[0]), trace[1..]);
    } else {
      assert trace == [trace[0]];
      assert Lives(Follow(w, trace[0]), trace[1..]);
    }
  }

  lemma {:induction false} StoryAgrees(trace: seq<Label>, t: Tag)
    requires Lives(NOWHERE, trace)
    ensures Agrees(Fate(NOWHERE, trace), StoryOf(trace, t), Over(trace, t), t)
  {
    if trace != [] {
      hide Allowed, Follow, Agrees, Tell, OverAfter, About;
      var past, l := trace[..|trace| - 1], trace[|trace| - 1];
      LivesBefore(NOWHERE, trace);
      StoryAgrees(past, t);
      AgreesOn(Fate(NOWHERE, past), l, StoryOf(past, t), Over(past, t), t);
    }
  }

  /**
   The guarantees of the model: the messages handled for a registration are a prefix of those accepted for it, all of
   them by the actor registered, one at a time, and at most one of them after the registration is over.
   */
  lemma ModelGuarantees(trace: seq<Label>, t: Tag)
    requires Lives(NOWHERE, trace)
    ensures var s := StoryOf(trace, t);
            s.begun <= s.accepted && 0 <= s.open <= 1 && s.late <= 1 && s.strangers == 0
  {
    StoryAgrees(trace, t);
  }
}
