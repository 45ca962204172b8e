/** Merging gossip is taking maxima: what an agent knows does not depend on how it came to hear it. */
module GossipMerge {
  import opened Api
  import opened Gossip

  /** The list of peers read as a map from tags to beats. */
  function Beats(peers: seq<Peer>): map<Tag, nat> {
    map t | t in TagsOf(peers) :: peers[Find(peers, t)].beat
  }

  predicate Heard(gossip: seq<Rumor>, self: Tag, t: Tag, b: nat) {
    t != self && (t, b) in gossip
  }

  /** `m` with everything heard in `gossip`: the least map above both. */
  ghost predicate IsJoin(m: map<Tag, nat>, gossip: seq<Rumor>, self: Tag, joined: map<Tag, nat>) {
    && (forall t :: t in m ==> t in joined && joined[t] >= m[t])
    && (forall t, b :: Heard(gossip, self, t, b) ==> t in joined && joined[t] >= b)
    && (forall t :: t in joined ==> (t in m && joined[t] == m[t]) || Heard(gossip, self, t, joined[t]))
  }

  /** There is only one such map. */
  lemma JoinIsUnique(m: map<Tag, nat>, g: seq<Rumor>, g': seq<Rumor>, self: Tag, a: map<Tag, nat>, b: map<Tag, nat>)
    requires IsJoin(m, g, self, a) && IsJoin(m, g', self, b)
    requires forall r :: r in g <==> r in g'
    ensures a == b
  {
    JoinIsLeast(m, g, g', self, a, b);
    JoinIsLeast(m, g', g, self, b, a);
  }

  lemma JoinIsLeast(m: map<Tag, nat>, g: seq<Rumor>, g': seq<Rumor>, self: Tag, a: map<Tag, nat>, b: map<Tag, nat>)
    requires IsJoin(m, g, self, a) && IsJoin(m, g', self, b)
    requires forall r :: r in g ==> r in g'
    ensures forall t :: t in a ==> t in b && a[t] <= b[t]
  {
    forall t | t in a ensures t in b && a[t] <= b[t] {
      if Heard(g, self, t, a[t]) {
        assert Heard(g', self, t, a[t]);
      }
    }
  }

  lemma FindTag(peers: seq<Peer>, t: Tag)
    ensures t in TagsOf(peers) <==> Find(peers, t) < |peers|
  {
    if t in TagsOf(peers) {
      var i :| 0 <= i < |peers| && peers[i].tag == t;
      assert !(Find(peers, t) > i);
    }
  }

  lemma FindUnique(peers: seq<Peer>, i: nat)
    requires Unique(peers) && i < |peers|
    ensures Find(peers, peers[i].tag) == i
  {
  }

  lemma AcceptOneUnique(self: Tag, peers: seq<Peer>, rumor: Rumor, time: nat)
    requires Unique(peers)
    ensures Unique(AcceptOne(self, peers, rumor, time))
    ensures TagsOf(AcceptOne(self, peers, rumor, time)) == TagsOf(peers) + if rumor.0 == self then {} else {rumor.0}
  {
    var after := AcceptOne(self, peers, rumor, time);
    if rumor.0 != self {
      var i := Find(peers, rumor.0);
      assert forall j :: 0 <= j < |peers| ==> after[j].tag == peers[j].tag;
      assert after[i].tag == rumor.0;
      forall t ensures t in TagsOf(after) <==> t in TagsOf(peers) || t == rumor.0 {
        if t in TagsOf(peers) {
          var j :| 0 <= j < |peers| && peers[j].tag == t;
          assert after[j].tag == t;
        }
      }
    }
  }

  lemma BeatAt(peers: seq<Peer>, i: nat)
    requires Unique(peers) && i < |peers|
    ensures peers[i].tag in Beats(peers) && Beats(peers)[peers[i].tag] == peers[i].beat
  {
    FindUnique(peers, i);
  }

  /** One rumor raises one beat, or adds it. */
  function Raise(m: map<Tag, nat>, self: Tag, r: Rumor): map<Tag, nat> {
    if r.0 == self || (r.0 in m && m[r.0] >= r.1) then m else m[r.0 := r.1]
  }

  lemma BeatsKeys(peers: seq<Peer>)
    ensures Beats(peers).Keys == TagsOf(peers)
  {
  }

  lemma AcceptOneRaises(self: Tag, peers: seq<Peer>, rumor: Rumor, time: nat)
    requires Unique(peers)
    ensures Beats(AcceptOne(self, peers, rumor, time)) == Raise(Beats(peers), self, rumor)
  {
    hide Beats, Find, TagsOf, AcceptOne, Unique, Raise;
    var after := AcceptOne(self, peers, rumor, time);
    AcceptOneUnique(self, peers, rumor, time);
    BeatsKeys(peers);
    BeatsKeys(after);
    RaiseKeys(Beats(peers), self, rumor);
    forall k | k in Beats(after) ensures Beats(after)[k] == Raise(Beats(peers), self, rumor)[k] {
      AcceptOneAt(self, peers, rumor, time, k);
    }
    assert Beats(after).Keys == Raise(Beats(peers), self, rumor).Keys;
  }

  lemma RaiseKeys(m: map<Tag, nat>, self: Tag, r: Rumor)
    ensures Raise(m, self, r).Keys == m.Keys + if r.0 == self then {} else {r.0}
  {
  }

  lemma AcceptOneAt(self: Tag, peers: seq<Peer>, rumor: Rumor, time: nat, k: Tag)
    requires Unique(peers) && Unique(AcceptOne(self, peers, rumor, time))
    requires k in Beats(AcceptOne(self, peers, rumor, time))
    ensures var m := Raise(Beats(peers), self, rumor);
            k in m && Beats(AcceptOne(self, peers, rumor, time))[k] == m[k]
  {
    hide Beats, Unique;
    var after := AcceptOne(self, peers, rumor, time);
    BeatsKeys(peers);
    BeatsKeys(after);
    var j :| 0 <= j < |after| && after[j].tag == k;
    BeatAt(after, j);
    if j < |peers| {
      BeatAt(peers, j);
      FindUnique(peers, j);
    }
    FindTag(peers, k);
  }

  /** The loop of `accept` keeps tags unique and computes the join. */
  lemma {:induction false} AcceptIsJoin(self: Tag, peers: seq<Peer>, gossip: seq<Rumor>, time: nat)
    requires Unique(peers)
    ensures Unique(AcceptAll(self, peers, gossip, time))
    ensures IsJoin(Beats(peers), gossip, self, Beats(AcceptAll(self, peers, gossip, time)))
  {
    if gossip != [] {
      hide Beats, AcceptOne, Unique;
      var past, r := gossip[..|gossip| - 1], gossip[|gossip| - 1];
      var before := AcceptAll(self, peers, past, time);
      AcceptIsJoin(self, peers, past, time);
      AcceptOneUnique(self, before, r, time);
      AcceptOneRaises(self, before, r, time);
      JoinStep(Beats(peers), past, r, self, Beats(before));
      assert gossip == past + [r];
    }
  }

  lemma JoinStep(m: map<Tag, nat>, past: seq<Rumor>, r: Rumor, self: Tag, before: map<Tag, nat>)
    requires IsJoin(m, past, self, before)
    ensures IsJoin(m, past + [r], self, Raise(before, self, r))
  {
    var after := Raise(before, self, r);
    forall t, b | Heard(past + [r], self, t, b) ensures t in after && after[t] >= b {
      if Heard(past, self, t, b) {
      } else {
        assert (t, b) == r;
      }
    }
    forall t | t in after ensures (t in m && after[t] == m[t]) || Heard(past + [r], self, t, after[t]) {
      if t in before && after[t] == before[t] {
        assert (t in m && before[t] == m[t]) || Heard(past, self, t, before[t]);
      } else {
        assert r in past + [r];
      }
    }
  }

  // --- Many lists ----------------------------------------------------------------------------------------------------

  /** What an agent knows after hearing one list after the other, at these times. */
  function Hear(self: Tag, peers: seq<Peer>, lists: seq<seq<Rumor>>, times: seq<nat>): seq<Peer>
    requires |times| == |lists|
  {
    if lists == [] then peers
    else
      var n := |lists| - 1;
      AcceptAll(self, Hear(self, peers, lists[..n], times[..n]), lists[n], times[n])
  }

  function Flat(lists: seq<seq<Rumor>>): seq<Rumor> {
    if lists == [] then [] else Flat(lists[..|lists| - 1]) + lists[|lists| - 1]
  }

  lemma JoinOfJoin(m: map<Tag, nat>, g: seq<Rumor>, h: seq<Rumor>, self: Tag, a: map<Tag, nat>, b: map<Tag, nat>)
    requires IsJoin(m, g, self, a) && IsJoin(a, h, self, b)
    ensures IsJoin(m, g + h, self, b)
  {
    forall t, x | Heard(g + h, self, t, x) ensures t in b && b[t] >= x {
      if Heard(g, self, t, x) {
        assert t in a && a[t] >= x;
      } else {
        assert Heard(h, self, t, x);
      }
    }
    forall t | t in b ensures (t in m && b[t] == m[t]) || Heard(g + h, self, t, b[t]) {
      if t in a && b[t] == a[t] {
        assert (t in m && a[t] == m[t]) || Heard(g, self, t, a[t]);
      } else {
        assert Heard(h, self, t, b[t]);
      }
    }
  }

  lemma {:induction false} HearIsJoin(self: Tag, peers: seq<Peer>, lists: seq<seq<Rumor>>, times: seq<nat>)
    requires |times| == |lists| && Unique(peers)
    ensures Unique(Hear(self, peers, lists, times))
    ensures IsJoin(Beats(peers), Flat(lists), self, Beats(Hear(self, peers, lists, times)))
  {
    if lists != [] {
      hide Beats, Unique, IsJoin, AcceptAll;
      var n := |lists| - 1;
      var before := Hear(self, peers, lists[..n], times[..n]);
      HearIsJoin(self, peers, lists[..n], times[..n]);
      AcceptIsJoin(self, before, lists[n], times[n]);
      JoinOfJoin(Beats(peers), Flat(lists[..n]), lists[n], self, Beats(before), Beats(Hear(self, peers, lists, times)));
    } else {
      HeardNothing(Beats(peers), self);
    }
  }

  lemma HeardNothing(m: map<Tag, nat>, self: Tag)
    ensures IsJoin(m, [], self, m)
  {
  }

  /**
   Order, grouping, repetition and timing do not matter: two agents that start from the same beats and hear the same
   rumors, in whatever lists, end with the same beats.
   */
  lemma OnlyRumorsMatter(self: Tag, peers: seq<Peer>, peers': seq<Peer>, lists: seq<seq<Rumor>>,
                         lists': seq<seq<Rumor>>, times: seq<nat>, times': seq<nat>)
    requires |times| == |lists| && |times'| == |lists'|
    requires Unique(peers) && Unique(peers') && Beats(peers) == Beats(peers')
    requires forall r :: r in Flat(lists) <==> r in Flat(lists')
    ensures Beats(Hear(self, peers, lists, times)) == Beats(Hear(self, peers', lists', times'))
  {
    hide Beats, Unique, IsJoin;
    HearIsJoin(self, peers, lists, times);
    HearIsJoin(self, peers', lists', times');
    JoinIsUnique(Beats(peers), Flat(lists), Flat(lists'), self, Beats(Hear(self, peers, lists, times)),
                 Beats(Hear(self, peers', lists', times')));
  }
}
