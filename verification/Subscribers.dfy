/**
 * Subscriptions and their owners (frontend/crypto/util/EventLoopSubscriber.h and EventObjectChannel.h):
 * what the destruction of the last copy of a subscriber guarantees.
 */
module Subscribers {
  import opened Common
  import opened PriorityQueue

  /** Guids of subscribers, of subscriptions and of channels; names of copies of a subscriber. */
  type Guid = nat
  type Copy = nat

  /** A queued event: the subscriber that it belongs to, and the position of its push, a history. */
  datatype Event = Event(subscriber: Guid, push: nat)

  /** An entry in a channel's list: the subscription and, as a history, its owner. */
  datatype Entry = Entry(subscription: Guid, subscriber: Guid)

  /** A live copy of a subscriber shares its subscriptions with the other copies. */
  datatype Handle = Handle(guid: Guid, subscriptions: set<Guid>)

  datatype State = State(
    channels: map<Guid, seq<Entry>>,
    handles: map<Copy, Handle>,
    queue: seq<Event>,
    executed: seq<Event>,
    pushes: nat,
    next: Guid)

  datatype Step =
    | Create(copy: Copy)
    | Subscribe(copy: Copy, channel: Guid)
    | Duplicate(from: Copy, to: Copy)
    | Push(channel: Guid)
    | Execute
    | Destroy(copy: Copy)

  const START := State(map[], map[], [], [], 0, 0)

  function Entries(s: State, channel: Guid): seq<Entry> {
    if channel in s.channels then s.channels[channel] else []
  }

  /** Some other copy still holds the subscription. */
  predicate HeldElsewhere(s: State, copy: Copy, subscription: Guid) {
    exists c :: c in s.handles && c != copy && subscription in s.handles[c].subscriptions
  }

  /** The subscriptions whose last owner is this copy; their destructors take them off the channels. */
  function Dying(s: State, copy: Copy): set<Guid>
    requires copy in s.handles
  {
    set x | x in s.handles[copy].subscriptions && !HeldElsewhere(s, copy, x)
  }

  function Unlisted(entries: seq<Entry>, dying: set<Guid>): seq<Entry> {
    Keep(entries, (e: Entry) => e.subscription in dying)
  }

  function Enqueued(entries: seq<Entry>, push: nat): (r: seq<Event>)
    ensures |r| == |entries|
    ensures forall i :: 0 <= i < |r| ==> r[i] == Event(entries[i].subscriber, push)
  {
    seq(|entries|, i requires 0 <= i < |entries| => Event(entries[i].subscriber, push))
  }

  function Perform(s: State, step: Step): State {
    match step
    case Create(c) =>
      if c in s.handles then s else s.(handles := s.handles[c := Handle(s.next, {})], next := s.next + 1)
    case Subscribe(c, ch) =>
      if c !in s.handles then s
      else
        var h := s.handles[c];
        s.(channels := s.channels[ch := Entries(s, ch) + [Entry(s.next, h.guid)]],
           handles := s.handles[c := h.(subscriptions := h.subscriptions + {s.next})],
           next := s.next + 1)
    case Duplicate(c, d) =>
      if c !in s.handles || d in s.handles then s else s.(handles := s.handles[d := s.handles[c]])
    case Push(ch) => s.(queue := s.queue + Enqueued(Entries(s, ch), s.pushes), pushes := s.pushes + 1)
    case Execute => if s.queue == [] then s else s.(queue := s.queue[1..], executed := s.executed + [s.queue[0]])
    case Destroy(c) =>
      if c !in s.handles then s
      else
        var dying := Dying(s, c);
        var g := s.handles[c].guid;
        s.(channels := map ch | ch in s.channels :: Unlisted(s.channels[ch], dying),
           handles := s.handles - {c},
           queue := Keep(s.queue, (e: Event) => e.subscriber == g))
  }

  function After(steps: seq<Step>): State {
    if steps == [] then START else Perform(After(steps[..|steps| - 1]), steps[|steps| - 1])
  }

  // ----- the invariant -----

  ghost predicate Alive(s: State, g: Guid) {
    exists c :: c in s.handles && s.handles[c].guid == g
  }

  /** A copy of the entry's subscriber holds the subscription. */
  ghost predicate Held(s: State, e: Entry) {
    exists c :: c in s.handles && s.handles[c].guid == e.subscriber && e.subscription in s.handles[c].subscriptions
  }

  ghost predicate Ok(s: State) {
    && (forall ch, e :: ch in s.channels && e in s.channels[ch] ==> Held(s, e))
    && (forall e :: e in s.queue ==> Alive(s, e.subscriber))
    && (forall c, d, x ::
          (c in s.handles && x in s.handles[c].subscriptions && d in s.handles && x in s.handles[d].subscriptions) ==>
            s.handles[c].guid == s.handles[d].guid)
    && (forall c, x :: c in s.handles && x in s.handles[c].subscriptions ==> x < s.next)
    && (forall c :: c in s.handles ==> s.handles[c].guid < s.next)
  }

  lemma GrowingKeepsHeld(s: State, s': State)
    requires forall c :: c in s.handles ==>
      && c in s'.handles && s'.handles[c].guid == s.handles[c].guid
      && s.handles[c].subscriptions <= s'.handles[c].subscriptions
    ensures forall e :: Held(s, e) ==> Held(s', e)
    ensures forall g :: Alive(s, g) ==> Alive(s', g)
  {
    forall e | Held(s, e) ensures Held(s', e) {
      var c :| c in s.handles && s.handles[c].guid == e.subscriber && e.subscription in s.handles[c].subscriptions;
      assert c in s'.handles;
    }
    forall g | Alive(s, g) ensures Alive(s', g) {
      var c :| c in s.handles && s.handles[c].guid == g;
      assert c in s'.handles;
    }
  }

  lemma SubscribeKeeps(s: State, c: Copy, ch: Guid)
    requires Ok(s) && c in s.handles
    ensures Ok(Perform(s, Subscribe(c, ch)))
  {
    var s' := Perform(s, Subscribe(c, ch));
    GrowingKeepsHeld(s, s');
    assert s'.handles[c].guid == s.handles[c].guid;
    forall k, e | k in s'.channels && e in s'.channels[k] ensures Held(s', e) {
      if !(k in s.channels && e in s.channels[k]) {
        assert e == Entry(s.next, s.handles[c].guid);
      }
    }
  }

  lemma PushKeeps(s: State, ch: Guid)
    requires Ok(s)
    ensures Ok(Perform(s, Push(ch)))
  {
    var s' := Perform(s, Push(ch));
    GrowingKeepsHeld(s, s');
    forall e | e in s'.queue ensures Alive(s', e.subscriber) {
      if e !in s.queue {
        var i :| 0 <= i < |Entries(s, ch)| && Enqueued(Entries(s, ch), s.pushes)[i] == e;
        assert Entries(s, ch)[i] in s.channels[ch];
        assert Held(s, Entries(s, ch)[i]);
      }
    }
  }

  /** An entry that survives the destruction of a copy is held by another copy. */
  lemma SurvivorIsHeld(s: State, c: Copy, e: Entry)
    requires Ok(s) && c in s.handles && Held(s, e) && e.subscription !in Dying(s, c)
    ensures Held(Perform(s, Destroy(c)), e)
  {
    var d :| d in s.handles && s.handles[d].guid == e.subscriber && e.subscription in s.handles[d].subscriptions;
    if d == c {
      assert HeldElsewhere(s, c, e.subscription);
      var f :| f in s.handles && f != c && e.subscription in s.handles[f].subscriptions;
      assert f in Perform(s, Destroy(c)).handles && s.handles[f].guid == s.handles[c].guid;
    } else {
      assert d in Perform(s, Destroy(c)).handles;
    }
  }

  lemma DestroyKeeps(s: State, c: Copy)
    requires Ok(s) && c in s.handles
    ensures Ok(Perform(s, Destroy(c)))
  {
    var s' := Perform(s, Destroy(c));
    forall ch, e | ch in s'.channels && e in s'.channels[ch] ensures Held(s', e) {
      SurvivorIsHeld(s, c, e);
    }
    forall e | e in s'.queue ensures Alive(s', e.subscriber) {
      var d :| d in s.handles && s.handles[d].guid == e.subscriber;
      assert d in s'.handles;
    }
  }

  lemma StepKeeps(s: State, step: Step)
    requires Ok(s)
    ensures Ok(Perform(s, step))
  {
    match step
    case Create(c) => GrowingKeepsHeld(s, Perform(s, step));
    case Subscribe(c, ch) =>
      if c in s.handles {
        SubscribeKeeps(s, c, ch);
      }
    case Duplicate(c, d) => GrowingKeepsHeld(s, Perform(s, step));
    case Push(ch) => PushKeeps(s, ch);
    case Execute => GrowingKeepsHeld(s, Perform(s, step));
    case Destroy(c) =>
      if c in s.handles {
        DestroyKeeps(s, c);
      }
  }

  lemma {:induction false} AlwaysOk(steps: seq<Step>)
    ensures Ok(After(steps))
  {
    if steps != [] {
      AlwaysOk(steps[..|steps| - 1]);
      StepKeeps(After(steps[..|steps| - 1]), steps[|steps| - 1]);
    }
  }

  // ----- the guarantee -----

  /** Guids are never drawn twice, so a subscriber without a copy never comes back. */
  lemma DeadStaysDead(s: State, step: Step, g: Guid)
    requires !Alive(s, g) && g < s.next
    ensures !Alive(Perform(s, step), g) && g < Perform(s, step).next
  {
    var s' := Perform(s, step);
    forall c | c in s'.handles ensures s'.handles[c].guid != g {
    }
  }

  /** A dead subscriber has nothing queued, nothing listed, and nothing executed from now on. */
  lemma DeadIsSilent(s: State, step: Step, g: Guid)
    requires Ok(s) && !Alive(s, g) && g < s.next
    ensures forall e :: e in s.queue ==> e.subscriber != g
    ensures forall ch, e :: ch in s.channels && e in s.channels[ch] ==> e.subscriber != g
    ensures var s' := Perform(s, step);
      && s.executed <= s'.executed
      && forall i :: |s.executed| <= i < |s'.executed| ==> s'.executed[i].subscriber != g
  {
    forall ch, e | ch in s.channels && e in s.channels[ch] ensures e.subscriber != g {
      assert Held(s, e);
    }
  }

  /**
   * After the destruction of the last copy of a subscriber, whatever happens later, no channel lists a
   * subscription of it, none of its events is queued, and none is ever executed.
   */
  lemma {:induction false} NothingAfterLastDestruction(before: seq<Step>, later: seq<Step>, g: Guid)
    requires !Alive(After(before), g) && g < After(before).next
    ensures var s, t := After(before), After(before + later);
      && !Alive(t, g) && g < t.next
      && (forall e :: e in t.queue ==> e.subscriber != g)
      && (forall ch, e :: ch in t.channels && e in t.channels[ch] ==> e.subscriber != g)
      && s.executed <= t.executed
      && (forall i :: |s.executed| <= i < |t.executed| ==> t.executed[i].subscriber != g)
  {
    AlwaysOk(before + later);
    if later == [] {
      assert before + later == before;
      DeadIsSilent(After(before), Execute, g);
    } else {
      var n := |later| - 1;
      var all := before + later;
      assert all[..|all| - 1] == before + later[..n] && all[|all| - 1] == later[n];
      NothingAfterLastDestruction(before, later[..n], g);
      AlwaysOk(before + later[..n]);
      var m := After(before + later[..n]);
      DeadStaysDead(m, later[n], g);
      DeadIsSilent(m, later[n], g);
      DeadIsSilent(After(all), Execute, g);
    }
  }

  /** A subscriber dies with its last copy; destroying it removes its events and keeps the others in order. */
  lemma DestructionOfLastCopy(s: State, c: Copy)
    requires Ok(s) && c in s.handles && forall d :: d in s.handles && d != c ==> s.handles[d].guid != s.handles[c].guid
    ensures var g := s.handles[c].guid;
      var s' := Perform(s, Destroy(c));
      && !Alive(s', g)
      && s'.queue == Keep(s.queue, (e: Event) => e.subscriber == g)
      && (forall h :: h != g ==> Of(s'.queue, h) == Of(s.queue, h))
  {
    var g := s.handles[c].guid;
    forall h | h != g ensures Of(Perform(s, Destroy(c)).queue, h) == Of(s.queue, h) {
      OthersKeepOrder(s.queue, g, h);
    }
  }

  /** The events of one subscriber, in order. */
  function Of(q: seq<Event>, g: Guid): seq<Event> {
    if q == [] then [] else (if q[0].subscriber == g then [q[0]] else []) + Of(q[1..], g)
  }

  lemma {:induction false} OthersKeepOrder(q: seq<Event>, g: Guid, h: Guid)
    requires h != g
    ensures Of(Keep(q, (e: Event) => e.subscriber == g), h) == Of(q, h)
  {
    if q != [] {
      OthersKeepOrder(q[1..], g, h);
      var rest := Keep(q[1..], (e: Event) => e.subscriber == g);
      assert ([q[0]] + rest)[1..] == rest;
    }
  }

  // ----- the other half: a live subscriber -----

  /** Nothing of subscriber `g` is executed by `later`. */
  ghost predicate Silent(before: seq<Step>, later: seq<Step>, g: Guid) {
    var s, t := After(before), After(before + later);
    s.executed <= t.executed && forall i :: |s.executed| <= i < |t.executed| ==> t.executed[i].subscriber != g
  }

  lemma AfterOneMore(before: seq<Step>, step: Step)
    ensures After(before + [step]) == Perform(After(before), step)
  {
    assert (before + [step])[..|before|] == before;
  }

  function Executes(n: nat): seq<Step> {
    seq(n, i => Execute)
  }

  /** The loop executes the oldest events. */
  lemma {:induction false} ExecutesInOrder(before: seq<Step>, n: nat)
    requires n <= |After(before).queue|
    ensures var s, t := After(before), After(before + Executes(n));
      t.executed == s.executed + s.queue[..n] && t.queue == s.queue[n..]
  {
    if n == 0 {
      assert before + Executes(0) == before;
    } else {
      ExecutesInOrder(before, n - 1);
      var s, all := After(before).executed, After(before).queue;
      assert before + Executes(n) == before + Executes(n - 1) + [Execute];
      AfterOneMore(before + Executes(n - 1), Execute);
      assert all[n - 1..][1..] == all[n..] && all[..n] == all[..n - 1] + [all[n - 1]];
      assert s + all[..n - 1] + [all[n - 1]] == s + all[..n];
    }
  }

  /** A subscriber with a copy can still be reached: a subscription, a push, and the turns that the queue takes. */
  lemma LiveIsReached(before: seq<Step>, g: Guid, ch: Guid) returns (later: seq<Step>)
    requires Alive(After(before), g)
    ensures !Silent(before, later, g)
  {
    var s := After(before);
    var c :| c in s.handles && s.handles[c].guid == g;
    var pushed := before + [Subscribe(c, ch)] + [Push(ch)];
    AfterOneMore(before, Subscribe(c, ch));
    AfterOneMore(before + [Subscribe(c, ch)], Push(ch));
    var t := After(pushed);
    var n := |t.queue|;
    assert t.executed == s.executed && n > 0 && t.queue[n - 1].subscriber == g;
    ExecutesInOrder(pushed, n);
    later := [Subscribe(c, ch)] + [Push(ch)] + Executes(n);
    assert before + later == pushed + Executes(n);
    assert After(before + later).executed[|s.executed| + n - 1] == t.queue[n - 1];
  }

  /**
   * The documented guarantee, exactly: nothing of a subscriber is ever executed again if and only if no copy
   * of it is left. The destructor of a copy that is not the last one does not give it.
   */
  lemma SilentExactlyWithoutCopies(before: seq<Step>, g: Guid)
    requires g < After(before).next
    ensures (forall later :: Silent(before, later, g)) <==> !Alive(After(before), g)
  {
    if Alive(After(before), g) {
      var later := LiveIsReached(before, g, 0);
    } else {
      forall later ensures Silent(before, later, g) {
        NothingAfterLastDestruction(before, later, g);
      }
    }
  }

  /** A run in which an event of a subscriber is executed after the destructor of one of its two copies. */
  lemma ExecutedAfterDestructor()
    ensures var before := [Create(0), Duplicate(0, 1), Destroy(0)];
      var t := After(before + [Subscribe(1, 0), Push(0), Execute]);
      && After(before).executed == []
      && t.executed == [Event(0, 0)]
  {
    var a := [Create(0), Duplicate(0, 1)];
    AfterOneMore([], Create(0));
    AfterOneMore([Create(0)], Duplicate(0, 1));
    AfterOneMore(a, Destroy(0));
    var before := [Create(0), Duplicate(0, 1), Destroy(0)];
    assert [] + [Create(0)] == [Create(0)] && [Create(0)] + [Duplicate(0, 1)] == a && a + [Destroy(0)] == before;
    AfterOneMore(before, Subscribe(1, 0));
    AfterOneMore(before + [Subscribe(1, 0)], Push(0));
    AfterOneMore(before + [Subscribe(1, 0)] + [Push(0)], Execute);
    assert before + [Subscribe(1, 0)] + [Push(0)] + [Execute] == before + [Subscribe(1, 0), Push(0), Execute];
  }

  /** Destroying a copy discards what is queued for all copies; another copy keeps its subscriptions all the same. */
  lemma AnyCopyDiscards(s: State, c: Copy, d: Copy)
    requires c in s.handles && d in s.handles && d != c
    ensures var s' := Perform(s, Destroy(c));
      && (forall e :: e in s'.queue <==> e in s.queue && e.subscriber != s.handles[c].guid)
      && d in s'.handles && s'.handles[d] == s.handles[d]
      && (forall ch, e :: ch in s.channels && e in s.channels[ch] && e.subscription in s.handles[d].subscriptions ==>
            ch in s'.channels && e in s'.channels[ch])
  {
  }

  /**
   * A copy takes over the subscriptions made before it: after the destruction of the original every one of them
   * is still listed, and a push reaches the subscriber once for each.
   */
  lemma CopyKeepsSubscriptions(s: State, c: Copy, d: Copy, ch: Guid)
    requires c in s.handles && d !in s.handles
    ensures var t := Perform(Perform(s, Duplicate(c, d)), Destroy(c));
      && Alive(t, s.handles[c].guid)
      && Mine(Entries(t, ch), s.handles[c].subscriptions) == Mine(Entries(s, ch), s.handles[c].subscriptions)
      && forall i :: 0 <= i < |Entries(t, ch)| && Entries(t, ch)[i].subscription in s.handles[c].subscriptions ==>
           Perform(t, Push(ch)).queue[|t.queue| + i] == Event(Entries(t, ch)[i].subscriber, t.pushes)
  {
    var u := Perform(s, Duplicate(c, d));
    var t := Perform(u, Destroy(c));
    assert d in t.handles;
    forall x | x in s.handles[c].subscriptions ensures x !in Dying(u, c) {
      assert d in u.handles && d != c && x in u.handles[d].subscriptions;
    }
    if ch in s.channels {
      MineStay(s.channels[ch], Dying(u, c), s.handles[c].subscriptions);
    }
  }

  /** The entries of these subscriptions, in order. */
  function Mine(entries: seq<Entry>, subscriptions: set<Guid>): seq<Entry> {
    if entries == [] then []
    else (if entries[0].subscription in subscriptions then [entries[0]] else []) + Mine(entries[1..], subscriptions)
  }

  lemma {:induction false} MineStay(entries: seq<Entry>, dying: set<Guid>, subscriptions: set<Guid>)
    requires dying !! subscriptions
    ensures Mine(Unlisted(entries, dying), subscriptions) == Mine(entries, subscriptions)
  {
    if entries != [] {
      MineStay(entries[1..], dying, subscriptions);
      var rest := Unlisted(entries[1..], dying);
      assert ([entries[0]] + rest)[1..] == rest;
    }
  }

  lemma CopyIsListed()
    ensures var s := After([Create(0), Subscribe(0, 7), Duplicate(0, 1), Destroy(0)]);
      Entries(s, 7) == [Entry(1, 0)] && s.queue == [] && s.executed == [] && s.pushes == 0
  {
    var a, b, c := [Create(0)], [Create(0), Subscribe(0, 7)], [Create(0), Subscribe(0, 7), Duplicate(0, 1)];
    AfterOneMore([], Create(0));
    assert [] + [Create(0)] == a && a + [Subscribe(0, 7)] == b && b + [Duplicate(0, 1)] == c;
    AfterOneMore(a, Subscribe(0, 7));
    AfterOneMore(b, Duplicate(0, 1));
    AfterOneMore(c, Destroy(0));
    assert c + [Destroy(0)] == [Create(0), Subscribe(0, 7), Duplicate(0, 1), Destroy(0)];
    var s, t := After(b), After(c + [Destroy(0)]);
    assert Entries(s, 7) == [Entry(1, 0)];
    CopyKeepsSubscriptions(s, 0, 1, 7);
    assert 1 !in Dying(After(c), 0) by {
      assert 1 in After(c).handles[1].subscriptions;
    }
    assert Entries(t, 7) == Unlisted([Entry(1, 0)], Dying(After(c), 0));
  }

  /** A run of that kind: the channel calls the copy back although the original that subscribed is gone. */
  lemma CopyIsCalledBack()
    ensures var steps := [Create(0), Subscribe(0, 7), Duplicate(0, 1), Destroy(0)] + [Push(7)] + [Execute];
      After(steps).executed == [Event(0, 0)]
  {
    var d := [Create(0), Subscribe(0, 7), Duplicate(0, 1), Destroy(0)];
    CopyIsListed();
    AfterOneMore(d, Push(7));
    AfterOneMore(d + [Push(7)], Execute);
  }

  // ----- the object channel -----

  /** `LambdaEvent`, with the value that the callback receives. */
  datatype LambdaEvent<V> = LambdaEvent(subscriber: Guid, value: V)

  function Notifications<V>(subs: seq<Entry>, value: V): (r: seq<LambdaEvent<V>>)
    ensures |r| == |subs|
    ensures forall i :: 0 <= i < |r| ==> r[i] == LambdaEvent(subs[i].subscriber, value)
  {
    seq(|subs|, i requires 0 <= i < |subs| => LambdaEvent(subs[i].subscriber, value))
  }

  /** The list without the first entry of this subscription. */
  function Unsubscribed(subs: seq<Entry>, subscription: Guid): seq<Entry> {
    if subs == [] then []
    else if subs[0].subscription == subscription then subs[1..]
    else [subs[0]] + Unsubscribed(subs[1..], subscription)
  }

  // ----- the class against the transitions -----

  ghost predicate DistinctEntries(entries: seq<Entry>) {
    forall i, j :: 0 <= i < j < |entries| ==> entries[i].subscription != entries[j].subscription
  }

  /** Each channel lists a subscription once, and none that has not been drawn yet. */
  ghost predicate Listed(s: State) {
    forall ch :: ch in s.channels ==>
      DistinctEntries(s.channels[ch]) && forall e :: e in s.channels[ch] ==> e.subscription < s.next
  }

  lemma {:induction false} UnlistedIsDistinct(entries: seq<Entry>, dying: set<Guid>)
    requires DistinctEntries(entries)
    ensures DistinctEntries(Unlisted(entries, dying))
  {
    if entries != [] {
      UnlistedIsDistinct(entries[1..], dying);
      var rest := Unlisted(entries[1..], dying);
      forall e | e in rest ensures e.subscription != entries[0].subscription {
        assert e in entries[1..];
      }
    }
  }

  lemma {:induction false} AlwaysListed(steps: seq<Step>)
    ensures Listed(After(steps))
  {
    if steps != [] {
      var s := After(steps[..|steps| - 1]);
      AlwaysListed(steps[..|steps| - 1]);
      match steps[|steps| - 1]
      case Destroy(c) =>
        if c in s.handles {
          forall ch | ch in s.channels ensures DistinctEntries(Unlisted(s.channels[ch], Dying(s, c))) {
            UnlistedIsDistinct(s.channels[ch], Dying(s, c));
          }
        }
      case _ =>
    }
  }

  /** Subscriptions stand in the order in which they were made, which is that of their guids. */
  ghost predicate Ascending(entries: seq<Entry>) {
    forall i, j :: 0 <= i < j < |entries| ==> entries[i].subscription < entries[j].subscription
  }

  lemma {:induction false} UnlistedAscends(entries: seq<Entry>, dying: set<Guid>)
    requires Ascending(entries)
    ensures Ascending(Unlisted(entries, dying))
  {
    if entries != [] {
      UnlistedAscends(entries[1..], dying);
      forall e | e in Unlisted(entries[1..], dying) ensures entries[0].subscription < e.subscription {
        assert e in entries[1..];
      }
    }
  }

  ghost predicate AllAscend(s: State) {
    forall ch :: ch in s.channels ==> Ascending(s.channels[ch])
  }

  lemma StepKeepsOrder(s: State, step: Step)
    requires AllAscend(s) && Listed(s)
    ensures AllAscend(Perform(s, step))
  {
    match step
    case Destroy(c) =>
      if c in s.handles {
        forall ch | ch in s.channels ensures Ascending(Unlisted(s.channels[ch], Dying(s, c))) {
          UnlistedAscends(s.channels[ch], Dying(s, c));
        }
      }
    case _ =>
  }

  /** In every reachable state each channel calls its subscribers in the order in which they have subscribed. */
  lemma {:induction false} SubscribersKeepOrder(steps: seq<Step>)
    ensures AllAscend(After(steps))
  {
    if steps != [] {
      SubscribersKeepOrder(steps[..|steps| - 1]);
      AlwaysListed(steps[..|steps| - 1]);
      StepKeepsOrder(After(steps[..|steps| - 1]), steps[|steps| - 1]);
    }
  }

  lemma {:induction false} NothingToUnlist(entries: seq<Entry>, subscription: Guid)
    requires forall e :: e in entries ==> e.subscription != subscription
    ensures Unlisted(entries, {subscription}) == entries
  {
    if entries != [] {
      NothingToUnlist(entries[1..], subscription);
      assert entries == [entries[0]] + entries[1..];
    }
  }

  /** In every reachable state the class takes off a channel what the destruction of a single subscription does. */
  lemma {:induction false} UnsubscribedIsUnlisted(entries: seq<Entry>, subscription: Guid)
    requires DistinctEntries(entries)
    ensures Unsubscribed(entries, subscription) == Unlisted(entries, {subscription})
  {
    if entries != [] {
      if entries[0].subscription == subscription {
        NothingToUnlist(entries[1..], subscription);
      } else {
        UnsubscribedIsUnlisted(entries[1..], subscription);
      }
    }
  }

  /** The class sends its notifications to the subscribers that a push of the transition system queues events for. */
  lemma NotificationsAreEnqueued<V>(s: State, channel: Guid, value: V)
    ensures var sent := Notifications(Entries(s, channel), value);
      var s' := Perform(s, Push(channel));
      && |s'.queue| == |s.queue| + |sent|
      && forall i :: 0 <= i < |sent| ==> s'.queue[|s.queue| + i].subscriber == sent[i].subscriber
  {
    var entries := Entries(s, channel);
    assert Perform(s, Push(channel)).queue == s.queue + Enqueued(entries, s.pushes);
    forall i | 0 <= i < |entries|
      ensures (s.queue + Enqueued(entries, s.pushes))[|s.queue| + i].subscriber == entries[i].subscriber
    {
      assert (s.queue + Enqueued(entries, s.pushes))[|s.queue| + i] == Enqueued(entries, s.pushes)[i];
    }
  }

  /** One turn of the erasing loop. */
  lemma UnsubscribedUnfolds(subs: seq<Entry>, i: nat, x: Guid)
    requires i < |subs|
    ensures subs[i].subscription == x ==> subs[..i] + Unsubscribed(subs[i..], x) == EraseAt(subs, i)
    ensures subs[i].subscription != x ==>
        subs[..i] + Unsubscribed(subs[i..], x) == subs[..i + 1] + Unsubscribed(subs[i + 1..], x)
  {
    assert subs[i..][1..] == subs[i + 1..] && subs[..i + 1] == subs[..i] + [subs[i]];
    var rest := Unsubscribed(subs[i + 1..], x);
    assert subs[..i] + ([subs[i]] + rest) == subs[..i] + [subs[i]] + rest;
  }

  class EventObjectChannel<V(==,!new)> {
    var data: V
    var subscriptions: seq<Entry>

    constructor (initial: V)
      ensures data == initial && subscriptions == []
    {
      data, subscriptions := initial, [];
    }

    /** `update` and `push`: the object changes and every subscriber is sent its new value. */
    method Update(value: V, loop: ThreadSafePriorityQueue<LambdaEvent<V>>)
      requires loop.queues.running && forall e :: loop.priority(e) == Normal
      modifies this, loop
      ensures data == value && subscriptions == old(subscriptions)
      ensures loop.queues == old(loop.queues).(normal := old(loop.queues).normal + Notifications(subscriptions, value))
    {
      data := value;
      var i := 0;
      while i < |subscriptions|
        invariant 0 <= i <= |subscriptions| && data == value && subscriptions == old(subscriptions)
        invariant loop.queues.running
        invariant loop.queues
               == old(loop.queues).(normal := old(loop.queues).normal + Notifications(subscriptions, value)[..i])
      {
        ghost var sent := Notifications(subscriptions, value);
        assert sent[..i + 1] == sent[..i] + [sent[i]];
        var _ := loop.PushValue(LambdaEvent(subscriptions[i].subscriber, value));
        i := i + 1;
      }
      assert Notifications(subscriptions, value)[..i] == Notifications(subscriptions, value);
    }

    /** Returns the count that the sub-count callback is given. */
    method Subscribe(entry: Entry) returns (count: nat)
      modifies this
      ensures data == old(data) && subscriptions == old(subscriptions) + [entry] && count == |subscriptions|
    {
      subscriptions := subscriptions + [entry];
      return |subscriptions|;
    }

    method Unsubscribe(subscription: Guid) returns (count: nat)
      modifies this
      ensures data == old(data) && subscriptions == Unsubscribed(old(subscriptions), subscription)
      ensures count == |subscriptions|
    {
      var i := 0;
      while i < |subscriptions|
        invariant 0 <= i <= |subscriptions| && subscriptions == old(subscriptions) && data == old(data)
        invariant Unsubscribed(subscriptions, subscription)
               == subscriptions[..i] + Unsubscribed(subscriptions[i..], subscription)
      {
        UnsubscribedUnfolds(subscriptions, i, subscription);
        if subscriptions[i].subscription == subscription {
          subscriptions := EraseAt(subscriptions, i);
          return |subscriptions|;
        }
        i := i + 1;
      }
      assert subscriptions[..i] + Unsubscribed(subscriptions[i..], subscription) == subscriptions;
      return |subscriptions|;
    }
  }
}
