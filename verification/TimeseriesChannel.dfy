/**
 * The timeseries channel (frontend/crypto/util/EventTimeseriesChannel.h): pushes and subscriptions of
 * several threads, interleaved wherever the two locks allow it.
 */
module TimeseriesChannel {
  import opened Common

  type Thread = nat
  type Subscriber = nat

  /** What a subscriber's event loop receives. The index of a value in the channel's data is a history. */
  datatype Message<V> = Snapshot(values: seq<V>) | Increment(index: nat, value: V)

  /** Who holds the lock of the subscription list, and what is left to do under it. */
  datatype Holder = Free | Dispatching(thread: Thread, index: nat, rest: seq<Subscriber>) | Subscribing(who: Subscriber)

  /**
   * `pending` maps a thread between the two scopes of `push` to the index of the value it has appended.
   * `queues` holds what each subscriber has been sent; `inFlight` is a history: the values that were
   * between the two scopes when a subscriber's snapshot was taken.
   */
  datatype Channel<V> = Channel(
    data: seq<V>,
    pending: map<Thread, nat>,
    holder: Holder,
    subs: seq<Subscriber>,
    queues: map<Subscriber, seq<Message<V>>>,
    inFlight: map<Subscriber, set<nat>>)

  /** The lock-scoped steps. */
  datatype Step<V> =
    | Append(thread: Thread, value: V)
    | BeginDispatch(thread: Thread)
    | Deliver
    | EndDispatch
    | BeginSubscribe(sub: Subscriber)
    | TakeSnapshot
    | Unsubscribe(sub: Subscriber)

  function Empty<V>(): Channel<V> {
    Channel([], map[], Free, [], map[], map[])
  }

  predicate Enabled<V>(c: Channel<V>, s: Step<V>) {
    match s
    case Append(t, _) => t !in c.pending && !(c.holder.Dispatching? && c.holder.thread == t)
    case BeginDispatch(t) => t in c.pending && c.holder.Free?
    case Deliver => c.holder.Dispatching? && c.holder.rest != []
    case EndDispatch => c.holder.Dispatching? && c.holder.rest == []
    case BeginSubscribe(sub) => c.holder.Free? && sub !in c.queues
    case TakeSnapshot => c.holder.Subscribing?
    case Unsubscribe(_) => c.holder.Free?
  }

  function Without(subs: seq<Subscriber>, sub: Subscriber): (r: seq<Subscriber>)
    ensures forall x :: x in r ==> x in subs
    ensures forall x :: x in subs && x != sub ==> x in r
  {
    if subs == [] then []
    else if subs[0] == sub then subs[1..]
    else [subs[0]] + Without(subs[1..], sub)
  }

  function Effect<V>(c: Channel<V>, s: Step<V>): Channel<V>
    requires Enabled(c, s)
  {
    match s
    case Append(t, v) => c.(data := c.data + [v], pending := c.pending[t := |c.data|])
    case BeginDispatch(t) => c.(pending := c.pending - {t}, holder := Dispatching(t, c.pending[t], c.subs))
    case Deliver =>
      var sub, i := c.holder.rest[0], c.holder.index;
      var rest := c.holder.(rest := c.holder.rest[1..]);
      if sub in c.queues && i < |c.data| then
        c.(holder := rest, queues := c.queues[sub := c.queues[sub] + [Increment(i, c.data[i])]])
      else c.(holder := rest)
    case EndDispatch => c.(holder := Free)
    case BeginSubscribe(sub) => c.(holder := Subscribing(sub), subs := c.subs + [sub], queues := c.queues[sub := []])
    case TakeSnapshot =>
      var sub := c.holder.who;
      c.(holder := Free,
         queues := c.queues[sub := (if sub in c.queues then c.queues[sub] else []) + [Snapshot(c.data)]],
         inFlight := c.inFlight[sub := c.pending.Values])
    case Unsubscribe(sub) => c.(subs := Without(c.subs, sub))
  }

  /** Any thread may try any step at any time; one that the locks do not allow has to wait. */
  function Perform<V>(c: Channel<V>, s: Step<V>): Channel<V> {
    if Enabled(c, s) then Effect(c, s) else c
  }

  function After<V>(steps: seq<Step<V>>): Channel<V> {
    if steps == [] then Empty() else Perform(After(steps[..|steps| - 1]), steps[|steps| - 1])
  }

  // ----- the invariant -----

  /** Value `i` is still on its way to subscriber `sub`. */
  ghost predicate OnItsWay<V>(c: Channel<V>, sub: Subscriber, i: nat) {
    || i in c.pending.Values
    || (c.holder.Dispatching? && c.holder.index == i && sub in c.holder.rest)
  }

  ghost predicate Received<V>(q: seq<Message<V>>, i: nat) {
    exists j :: 1 <= j < |q| && q[j].Increment? && q[j].index == i
  }

  /** The queue of a subscriber: first a snapshot, then increments, each at most once. */
  ghost predicate QueueOk<V>(c: Channel<V>, sub: Subscriber)
    requires sub in c.queues
  {
    var q := c.queues[sub];
    && (forall j :: 1 <= j < |q| ==> q[j].Increment? && q[j].index < |c.data| && q[j].value == c.data[q[j].index])
    && (forall j, k :: 1 <= j < k < |q| ==> q[j].index != q[k].index)
    && (q != [] ==>
          && q[0].Snapshot? && q[0].values <= c.data
          && sub in c.inFlight
          && (forall j :: 1 <= j < |q| && q[j].index < |q[0].values| ==> q[j].index in c.inFlight[sub])
          && (forall i: nat :: OnItsWay(c, sub, i) && i < |q[0].values| ==> i in c.inFlight[sub]))
    && (forall i: nat :: OnItsWay(c, sub, i) ==> !Received(q, i))
  }

  /** No update is lost: each value was in the snapshot, has been received, or is on its way. */
  ghost predicate NothingLost<V>(c: Channel<V>, sub: Subscriber)
    requires sub in c.queues && c.queues[sub] != [] && c.queues[sub][0].Snapshot?
  {
    forall i: nat :: i < |c.data| ==> i < |c.queues[sub][0].values| || Received(c.queues[sub], i) || OnItsWay(c, sub, i)
  }

  ghost predicate PendingOk<V>(c: Channel<V>) {
    && (forall t :: t in c.pending ==> c.pending[t] < |c.data|)
    && (forall t, u :: t in c.pending && u in c.pending && t != u ==> c.pending[t] != c.pending[u])
    && (c.holder.Dispatching? ==> c.holder.index < |c.data| && c.holder.index !in c.pending.Values)
  }

  ghost predicate SubsOk<V>(c: Channel<V>) {
    && Distinct(c.subs)
    && (forall sub :: sub in c.subs ==> sub in c.queues)
    && (c.holder.Dispatching? ==>
          && Distinct(c.holder.rest)
          && (forall sub :: sub in c.holder.rest ==> sub in c.subs))
    && (c.holder.Subscribing? ==> c.holder.who in c.subs && c.queues[c.holder.who] == [])
    && (forall sub :: sub in c.queues && c.queues[sub] == [] ==> c.holder == Subscribing(sub))
  }

  ghost predicate Ok<V>(c: Channel<V>) {
    && PendingOk(c)
    && SubsOk(c)
    && (forall sub :: sub in c.queues ==> QueueOk(c, sub))
    && (forall sub :: sub in c.subs && c.queues[sub] != [] ==> NothingLost(c, sub))
  }

  // ----- the steps keep it -----

  /** A queue stays in order when nothing old is put on its way. */
  lemma QueueStays<V>(c: Channel<V>, c': Channel<V>, sub: Subscriber)
    requires sub in c.queues && QueueOk(c, sub) && c.data <= c'.data
    requires sub in c'.queues && c'.queues[sub] == c.queues[sub]
    requires sub in c.inFlight ==> sub in c'.inFlight && c'.inFlight[sub] == c.inFlight[sub]
    requires forall i: nat :: OnItsWay(c', sub, i) ==> OnItsWay(c, sub, i) || i >= |c.data|
    ensures QueueOk(c', sub)
  {
    var q := c.queues[sub];
    forall i: nat | OnItsWay(c', sub, i) ensures !Received(q, i) {
      if i >= |c.data| {
        assert forall j :: 1 <= j < |q| ==> q[j].index < |c.data|;
      }
    }
  }

  /** Nothing is lost when what was on its way stays so and what is new is put on its way. */
  lemma NothingLostStays<V>(c: Channel<V>, c': Channel<V>, sub: Subscriber)
    requires sub in c.queues && c.queues[sub] != [] && c.queues[sub][0].Snapshot? && NothingLost(c, sub)
    requires sub in c'.queues && c'.queues[sub] == c.queues[sub]
    requires forall i: nat :: i < |c.data| && OnItsWay(c, sub, i) ==> OnItsWay(c', sub, i)
    requires forall i: nat :: |c.data| <= i < |c'.data| ==> OnItsWay(c', sub, i)
    ensures NothingLost(c', sub)
  {
  }

  lemma AppendKeeps<V>(c: Channel<V>, t: Thread, v: V)
    requires Ok(c) && Enabled(c, Append(t, v))
    ensures Ok(Effect(c, Append(t, v)))
  {
    var c' := Effect(c, Append(t, v));
    PendingGrows(c.pending, t, |c.data|);
    assert c.data <= c'.data && |c'.data| == |c.data| + 1;
    forall sub | sub in c'.queues ensures QueueOk(c', sub) {
      QueueStays(c, c', sub);
    }
    forall sub | sub in c'.subs && c'.queues[sub] != [] ensures NothingLost(c', sub) {
      assert QueueOk(c, sub);
      NothingLostStays(c, c', sub);
    }
  }

  lemma PendingGrows(pending: map<Thread, nat>, t: Thread, i: nat)
    requires t !in pending
    ensures pending[t := i].Values == pending.Values + {i}
  {
    var m := pending[t := i];
    assert m[t] == i;
    forall x | x in pending.Values ensures x in m.Values {
      var u :| u in pending && pending[u] == x;
      assert m[u] == x;
    }
  }

  lemma PendingShrinks(pending: map<Thread, nat>, t: Thread)
    requires t in pending
    requires forall u :: u in pending && u != t ==> pending[u] != pending[t]
    ensures (pending - {t}).Values == pending.Values - {pending[t]}
  {
    var m := pending - {t};
    forall x | x in pending.Values && x != pending[t] ensures x in m.Values {
      var u :| u in pending && pending[u] == x;
      assert m[u] == x;
    }
  }

  lemma BeginDispatchKeeps<V>(c: Channel<V>, t: Thread)
    requires Ok(c) && Enabled(c, BeginDispatch(t))
    ensures Ok(Effect(c, BeginDispatch(t)))
  {
    var c' := Effect(c, BeginDispatch(t));
    PendingShrinks(c.pending, t);
    forall sub | sub in c'.queues ensures QueueOk(c', sub) {
      QueueStays(c, c', sub);
    }
    forall sub | sub in c'.subs && c'.queues[sub] != [] ensures NothingLost(c', sub) {
      assert QueueOk(c, sub);
      NothingLostStays(c, c', sub);
    }
  }

  lemma DeliverKeepsOther<V>(c: Channel<V>, sub: Subscriber)
    requires Ok(c) && Enabled(c, Deliver) && sub in c.queues && sub != c.holder.rest[0]
    ensures QueueOk(Effect(c, Deliver), sub)
    ensures sub in c.subs && c.queues[sub] != [] ==> NothingLost(Effect(c, Deliver), sub)
  {
    var c' := Effect(c, Deliver);
    QueueStays(c, c', sub);
    if sub in c.subs && c.queues[sub] != [] {
      assert QueueOk(c, sub);
      NothingLostStays(c, c', sub);
    }
  }

  lemma ReceivedMore<V>(q: seq<Message<V>>, m: Message<V>, i: nat)
    requires q != [] && m.Increment?
    ensures Received(q + [m], i) <==> Received(q, i) || m.index == i
  {
    var r := q + [m];
    assert r[|q|] == m;
    if Received(q, i) {
      var j :| 1 <= j < |q| && q[j].Increment? && q[j].index == i;
      assert r[j] == q[j];
    }
  }

  lemma DeliverKeepsThis<V>(c: Channel<V>)
    requires Ok(c) && Enabled(c, Deliver)
    ensures var sub := c.holder.rest[0];
      sub in c.queues && QueueOk(Effect(c, Deliver), sub) && NothingLost(Effect(c, Deliver), sub)
  {
    var sub, i := c.holder.rest[0], c.holder.index;
    var c' := Effect(c, Deliver);
    var q, m := c.queues[sub], Increment(i, c.data[i]);
    assert QueueOk(c, sub) && NothingLost(c, sub);
    assert OnItsWay(c, sub, i);
    forall k ensures Received(q + [m], k) <==> Received(q, k) || k == i {
      ReceivedMore(q, m, k);
    }
    assert sub !in c'.holder.rest;
    assert forall k :: OnItsWay(c', sub, k) <==> OnItsWay(c, sub, k) && k != i;
    forall j | 1 <= j < |q| ensures q[j].index != i {
      assert q[j].index == i ==> Received(q, i);
    }
  }

  lemma DeliverKeeps<V>(c: Channel<V>)
    requires Ok(c) && Enabled(c, Deliver)
    ensures Ok(Effect(c, Deliver))
  {
    var c' := Effect(c, Deliver);
    DeliverKeepsThis(c);
    forall sub | sub in c'.queues ensures QueueOk(c', sub) {
      if sub != c.holder.rest[0] {
        DeliverKeepsOther(c, sub);
      }
    }
    forall sub | sub in c'.subs && c'.queues[sub] != [] ensures NothingLost(c', sub) {
      if sub != c.holder.rest[0] {
        DeliverKeepsOther(c, sub);
      }
    }
  }

  /** A step that changes neither the queues nor what is on its way. */
  lemma QuietStepKeeps<V>(c: Channel<V>, c': Channel<V>)
    requires Ok(c) && PendingOk(c') && SubsOk(c')
    requires c'.data == c.data && c'.queues == c.queues && c'.inFlight == c.inFlight
    requires forall sub :: sub in c'.subs ==> sub in c.subs
    requires forall sub, i: nat :: OnItsWay(c', sub, i) <==> OnItsWay(c, sub, i)
    ensures Ok(c')
  {
    forall sub | sub in c'.queues ensures QueueOk(c', sub) {
      QueueStays(c, c', sub);
    }
    forall sub | sub in c'.subs && c'.queues[sub] != [] ensures NothingLost(c', sub) {
      assert QueueOk(c, sub);
      NothingLostStays(c, c', sub);
    }
  }

  ghost predicate Distinct(subs: seq<Subscriber>) {
    forall i, j :: 0 <= i < j < |subs| ==> subs[i] != subs[j]
  }

  lemma DistinctTail(subs: seq<Subscriber>)
    requires subs != []
    ensures Distinct(subs) <==> Distinct(subs[1..]) && subs[0] !in subs[1..]
  {
  }

  lemma {:induction false} WithoutIsDistinct(subs: seq<Subscriber>, sub: Subscriber)
    requires Distinct(subs)
    ensures Distinct(Without(subs, sub)) && sub !in Without(subs, sub)
  {
    if subs != [] {
      DistinctTail(subs);
      WithoutIsDistinct(subs[1..], sub);
      if subs[0] != sub {
        assert Without(subs, sub)[1..] == Without(subs[1..], sub);
        DistinctTail(Without(subs, sub));
      }
    }
  }

  lemma BeginSubscribeKeeps<V>(c: Channel<V>, sub: Subscriber)
    requires Ok(c) && Enabled(c, BeginSubscribe(sub))
    ensures Ok(Effect(c, BeginSubscribe(sub)))
  {
    var c' := Effect(c, BeginSubscribe(sub));
    forall s | s in c'.queues ensures QueueOk(c', s) {
      if s != sub {
        QueueStays(c, c', s);
      }
    }
    forall s | s in c'.subs && c'.queues[s] != [] ensures NothingLost(c', s) {
      assert QueueOk(c, s);
      NothingLostStays(c, c', s);
    }
  }

  /** The new subscriber's own snapshot holds everything appended; whatever is on its way will come again. */
  lemma SnapshotIsOk<V>(c: Channel<V>)
    requires PendingOk(c) && Enabled(c, TakeSnapshot) && c.holder.who in c.queues && c.queues[c.holder.who] == []
    ensures var sub := c.holder.who;
      QueueOk(Effect(c, TakeSnapshot), sub) && NothingLost(Effect(c, TakeSnapshot), sub)
  {
  }

  lemma TakeSnapshotKeeps<V>(c: Channel<V>)
    requires Ok(c) && Enabled(c, TakeSnapshot)
    ensures Ok(Effect(c, TakeSnapshot))
  {
    var c' := Effect(c, TakeSnapshot);
    SnapshotIsOk(c);
    forall s | s in c'.queues ensures QueueOk(c', s) {
      if s != c.holder.who {
        QueueStays(c, c', s);
      }
    }
    forall s | s in c'.subs && c'.queues[s] != [] ensures NothingLost(c', s) {
      if s != c.holder.who {
        assert QueueOk(c, s);
        NothingLostStays(c, c', s);
      }
    }
  }

  lemma StepKeepsOk<V>(c: Channel<V>, s: Step<V>)
    requires Ok(c)
    ensures Ok(Perform(c, s))
  {
    if Enabled(c, s) {
      match s
      case Append(t, v) => AppendKeeps(c, t, v);
      case BeginDispatch(t) => BeginDispatchKeeps(c, t);
      case Deliver => DeliverKeeps(c);
      case EndDispatch => QuietStepKeeps(c, Effect(c, s));
      case BeginSubscribe(sub) => BeginSubscribeKeeps(c, sub);
      case TakeSnapshot => TakeSnapshotKeeps(c);
      case Unsubscribe(sub) =>
        WithoutIsDistinct(c.subs, sub);
        QuietStepKeeps(c, Effect(c, s));
    }
  }

  lemma {:induction false} AlwaysOk<V>(steps: seq<Step<V>>)
    ensures Ok(After(steps))
  {
    if steps != [] {
      AlwaysOk(steps[..|steps| - 1]);
      StepKeepsOk(After(steps[..|steps| - 1]), steps[|steps| - 1]);
    }
  }

  // ----- what a subscriber can rely on -----

  /**
   * After every interleaving: a subscriber receives its snapshot first; once no push is between its
   * two scopes, each value ever appended was in a live subscriber's snapshot or has been received.
   */
  lemma NoLostUpdate<V>(steps: seq<Step<V>>, sub: Subscriber, i: nat)
    requires var c := After(steps); sub in c.subs && sub in c.queues && c.queues[sub] != [] && i < |c.data|
    ensures var c := After(steps);
      && c.queues[sub][0].Snapshot? && c.queues[sub][0].values <= c.data
      && (c.holder.Free? && c.pending == map[] ==> i < |c.queues[sub][0].values| || Received(c.queues[sub], i))
  {
    AlwaysOk(steps);
    var c := After(steps);
    assert QueueOk(c, sub) && NothingLost(c, sub);
    if c.holder.Free? && c.pending == map[] {
      assert c.pending.Values == {};
    }
  }

  /** A value comes twice only in the snapshot and as one increment, and only if it was in flight at subscription. */
  lemma DuplicatesWereInFlight<V>(steps: seq<Step<V>>, sub: Subscriber, j: nat)
    requires var c := After(steps); sub in c.queues && 1 <= j < |c.queues[sub]|
    ensures var c := After(steps);
      var q := c.queues[sub];
      && q[0].Snapshot? && q[j].Increment? && q[j].index < |c.data| && q[j].value == c.data[q[j].index]
      && (forall k :: 1 <= k < |q| && k != j ==> q[k].Increment? && q[k].index != q[j].index)
      && (q[j].index < |q[0].values| ==> sub in c.inFlight && q[j].index in c.inFlight[sub])
  {
    AlwaysOk(steps);
    assert QueueOk(After(steps), sub);
  }

  /** What was in flight at subscription was in the snapshot, and has come once more or is on its way. */
  ghost predicate ComesAgain<V>(c: Channel<V>, sub: Subscriber)
    requires sub in c.queues && c.queues[sub] != [] && c.queues[sub][0].Snapshot?
  {
    sub in c.inFlight
    && forall i: nat :: i in c.inFlight[sub] ==>
         i < |c.queues[sub][0].values| && (Received(c.queues[sub], i) || OnItsWay(c, sub, i))
  }

  ghost predicate AllComeAgain<V>(c: Channel<V>) {
    forall sub :: sub in c.subs && sub in c.queues && c.queues[sub] != [] && c.queues[sub][0].Snapshot? ==>
      ComesAgain(c, sub)
  }

  lemma ComesAgainStays<V>(c: Channel<V>, c': Channel<V>, sub: Subscriber)
    requires sub in c.queues && c.queues[sub] != [] && c.queues[sub][0].Snapshot? && ComesAgain(c, sub)
    requires sub in c'.queues && c'.queues[sub] == c.queues[sub]
    requires sub in c'.inFlight && c'.inFlight[sub] == c.inFlight[sub]
    requires forall i: nat :: OnItsWay(c, sub, i) ==> OnItsWay(c', sub, i)
    ensures ComesAgain(c', sub)
  {
  }

  lemma DeliveryComesAgain<V>(c: Channel<V>, sub: Subscriber)
    requires Ok(c) && Enabled(c, Deliver) && sub in c.queues && c.queues[sub] != [] && c.queues[sub][0].Snapshot?
    requires ComesAgain(c, sub)
    ensures ComesAgain(Effect(c, Deliver), sub)
  {
    var c' := Effect(c, Deliver);
    if sub == c.holder.rest[0] {
      assert c'.queues[sub] == c.queues[sub] + [Increment(c.holder.index, c.data[c.holder.index])];
      forall i: nat | i in c.inFlight[sub] ensures Received(c'.queues[sub], i) || OnItsWay(c', sub, i) {
        ReceivedMore(c.queues[sub], Increment(c.holder.index, c.data[c.holder.index]), i);
      }
    } else {
      ComesAgainStays(c, c', sub);
    }
  }

  lemma StepComesAgain<V>(c: Channel<V>, s: Step<V>, sub: Subscriber)
    requires Ok(c) && AllComeAgain(c) && Enabled(c, s)
    requires var c' := Effect(c, s);
      sub in c'.subs && sub in c'.queues && c'.queues[sub] != [] && c'.queues[sub][0].Snapshot?
    ensures ComesAgain(Effect(c, s), sub)
  {
    var c' := Effect(c, s);
    match s
    case Append(t, v) =>
      PendingGrows(c.pending, t, |c.data|);
      ComesAgainStays(c, c', sub);
    case BeginDispatch(t) =>
      assert QueueOk(c, sub);
      PendingShrinks(c.pending, t);
      ComesAgainStays(c, c', sub);
    case Deliver => DeliveryComesAgain(c, sub);
    case EndDispatch => ComesAgainStays(c, c', sub);
    case BeginSubscribe(who) => ComesAgainStays(c, c', sub);
    case TakeSnapshot =>
      if sub != c.holder.who {
        ComesAgainStays(c, c', sub);
      }
    case Unsubscribe(who) => ComesAgainStays(c, c', sub);
  }

  lemma {:induction false} InFlightComesAgain<V>(steps: seq<Step<V>>)
    ensures AllComeAgain(After(steps))
  {
    if steps != [] {
      var before := steps[..|steps| - 1];
      var s := steps[|steps| - 1];
      InFlightComesAgain(before);
      AlwaysOk(before);
      if Enabled(After(before), s) {
        forall sub | var c' := Effect(After(before), s);
          sub in c'.subs && sub in c'.queues && c'.queues[sub] != [] && c'.queues[sub][0].Snapshot?
          ensures ComesAgain(Effect(After(before), s), sub)
        {
          StepComesAgain(After(before), s, sub);
        }
      }
    }
  }

  /**
   * Exactly which values come twice, once no push is between its two scopes: those whose push was between
   * its scopes when the snapshot was taken.
   */
  lemma DuplicatesExactly<V>(steps: seq<Step<V>>, sub: Subscriber, i: nat)
    requires var c := After(steps);
      sub in c.subs && sub in c.queues && c.queues[sub] != [] && c.holder.Free? && c.pending == map[]
    ensures var c := After(steps);
      && c.queues[sub][0].Snapshot? && sub in c.inFlight
      && (i < |c.queues[sub][0].values| && Received(c.queues[sub], i) <==> i in c.inFlight[sub])
  {
    AlwaysOk(steps);
    InFlightComesAgain(steps);
    var c := After(steps);
    assert QueueOk(c, sub) && ComesAgain(c, sub);
    assert c.pending.Values == {};
  }

  /** A value that is in flight when a subscriber comes does come twice. */
  lemma DuplicateHappens<V>(c: Channel<V>, t: Thread, v: V, sub: Subscriber)
    requires Ok(c) && c.holder.Free? && c.subs == [] && t !in c.pending && sub !in c.queues
    ensures var c1 := Perform(Perform(Perform(c, Append(t, v)), BeginSubscribe(sub)), TakeSnapshot);
      var c2 := Perform(Perform(c1, BeginDispatch(t)), Deliver);
      sub in c2.queues && c2.queues[sub] == [Snapshot(c.data + [v]), Increment(|c.data|, v)]
  {
    var a := Perform(c, Append(t, v));
    var b := Perform(a, BeginSubscribe(sub));
    var c1 := Perform(b, TakeSnapshot);
    assert b.subs == [sub] && c1.subs == [sub] && c1.queues[sub] == [] + [Snapshot(c.data + [v])];
    var d := Perform(c1, BeginDispatch(t));
    assert d.holder == Dispatching(t, |c.data|, [sub]);
    assert Perform(d, Deliver).queues[sub] == [Snapshot(c.data + [v])] + [Increment(|c.data|, v)];
  }

  // ----- the class, for one thread -----

  datatype Stamped<V> = Stamped(ts: int, value: V)

  datatype Sent<V> = Sent(to: Subscriber, item: Stamped<V>)

  /** What the capacity leaves of the data when something is pushed at `ts`. */
  function Capped<V>(data: seq<Stamped<V>>, capacity: Option<int>, ts: int): seq<Stamped<V>> {
    if capacity.Some? && data != [] && data[0].ts < ts - capacity.value then Capped(data[1..], capacity, ts) else data
  }

  /** Without a capacity nothing is dropped; with one, only a prefix that is older than the capacity. */
  lemma {:induction false} CappedDropsOldPrefix<V>(data: seq<Stamped<V>>, capacity: Option<int>, ts: int)
    ensures var c := Capped(data, capacity, ts);
      && |c| <= |data| && c == data[|data| - |c|..]
      && (forall i :: 0 <= i < |data| - |c| ==> capacity.Some? && data[i].ts < ts - capacity.value)
      && (c != [] && capacity.Some? ==> c[0].ts >= ts - capacity.value)
  {
    if capacity.Some? && data != [] && data[0].ts < ts - capacity.value {
      CappedDropsOldPrefix(data[1..], capacity, ts);
      var c := Capped(data, capacity, ts);
      forall i | 0 <= i < |data| - |c| ensures data[i].ts < ts - capacity.value {
        if i > 0 {
          assert data[1..][i - 1] == data[i];
        }
      }
    }
  }

  function Increments<V>(subs: seq<Subscriber>, item: Stamped<V>): (r: seq<Sent<V>>)
    ensures |r| == |subs|
    ensures forall i :: 0 <= i < |r| ==> r[i] == Sent(subs[i], item)
  {
    seq(|subs|, i requires 0 <= i < |subs| => Sent(subs[i], item))
  }

  // ----- the class against the interleaving -----

  function Delivers<V>(n: nat): seq<Step<V>> {
    seq(n, i => Deliver)
  }

  function PerformAll<V>(c: Channel<V>, steps: seq<Step<V>>): Channel<V> {
    if steps == [] then c else Perform(PerformAll(c, steps[..|steps| - 1]), steps[|steps| - 1])
  }

  /** Under the lock the first `n` subscribers have been sent the value. */
  ghost predicate SentTo<V>(c: Channel<V>, c': Channel<V>, n: nat)
    requires c.holder.Dispatching? && c.holder.index < |c.data| && n <= |c.holder.rest|
  {
    var i, v := c.holder.index, c.data[c.holder.index];
    && c' == c.(holder := c.holder.(rest := c.holder.rest[n..]), queues := c'.queues)
    && c'.queues.Keys == c.queues.Keys
    && forall sub :: sub in c.queues ==>
         c'.queues[sub] == c.queues[sub] + if sub in c.holder.rest[..n] then [Increment(i, v)] else []
  }

  lemma {:induction false} DeliversInOrder<V>(c: Channel<V>, n: nat)
    requires c.holder.Dispatching? && c.holder.index < |c.data| && n <= |c.holder.rest|
    requires Distinct(c.holder.rest) && forall sub :: sub in c.holder.rest ==> sub in c.queues
    ensures SentTo(c, PerformAll(c, Delivers(n)), n)
  {
    if n > 0 {
      DeliversInOrder(c, n - 1);
      assert Delivers<V>(n)[..n - 1] == Delivers<V>(n - 1);
      OneMoreSent(c, PerformAll(c, Delivers(n - 1)), n - 1);
    }
  }

  lemma OneMoreSent<V>(c: Channel<V>, b: Channel<V>, n: nat)
    requires c.holder.Dispatching? && c.holder.index < |c.data| && n < |c.holder.rest|
    requires Distinct(c.holder.rest) && forall sub :: sub in c.holder.rest ==> sub in c.queues
    requires SentTo(c, b, n)
    ensures SentTo(c, Perform(b, Deliver), n + 1)
  {
    var rest := c.holder.rest;
    assert rest[n..][1..] == rest[n + 1..] && rest[..n + 1] == rest[..n] + [rest[n]];
    assert rest[n] !in rest[..n];
  }

  /**
   * A push whose scopes no other step interrupts does what the class's push does without a capacity: the
   * data grow by the value, and each subscriber is sent it once.
   */
  lemma UninterruptedPush<V>(steps: seq<Step<V>>, t: Thread, v: V)
    requires var c := After(steps); c.holder.Free? && t !in c.pending
    ensures var c := After(steps);
      var begun := Perform(Perform(c, Append(t, v)), BeginDispatch(t));
      var c' := Perform(PerformAll(begun, Delivers(|c.subs|)), EndDispatch);
      && c'.data == c.data + [v] && c'.subs == c.subs && c'.holder.Free? && c'.pending == c.pending
      && c'.queues.Keys == c.queues.Keys
      && forall sub :: sub in c.queues ==>
           c'.queues[sub] == c.queues[sub] + if sub in c.subs then [Increment(|c.data|, v)] else []
  {
    AlwaysOk(steps);
    var c := After(steps);
    var begun := Perform(Perform(c, Append(t, v)), BeginDispatch(t));
    assert begun.pending == c.pending;
    DeliversInOrder(begun, |c.subs|);
    var sent := PerformAll(begun, Delivers(|c.subs|));
    assert c.subs[..|c.subs|] == c.subs && c.subs[|c.subs|..] == [];
    assert sent.holder == Dispatching(t, |c.data|, []);
    assert begun.data[|c.data|] == v;
    forall sub | sub in c.queues
      ensures sent.queues[sub] == c.queues[sub] + if sub in c.subs then [Increment(|c.data|, v)] else []
    {
      assert sub in begun.queues;
    }
  }

  /** A subscription whose scope is not interrupted sends the whole of the data, as the class does. */
  lemma UninterruptedSubscribe<V>(steps: seq<Step<V>>, sub: Subscriber)
    requires var c := After(steps); c.holder.Free? && sub !in c.queues
    ensures var c := After(steps);
      var c' := Perform(Perform(c, BeginSubscribe(sub)), TakeSnapshot);
      && c'.data == c.data && c'.subs == c.subs + [sub] && c'.holder.Free?
      && c'.queues == c.queues[sub := [Snapshot(c.data)]]
  {
    var c := After(steps);
    var begun := Perform(c, BeginSubscribe(sub));
    assert begun.holder == Subscribing(sub) && begun.queues[sub] == [] && begun.data == c.data;
    assert Perform(begun, TakeSnapshot).queues[sub] == [] + [Snapshot(c.data)] == [Snapshot(c.data)];
    assert Perform(begun, TakeSnapshot).queues == c.queues[sub := [Snapshot(c.data)]];
  }

  /** One turn of the erasing loop. */
  lemma WithoutUnfolds(subs: seq<Subscriber>, i: nat, sub: Subscriber)
    requires i < |subs|
    ensures subs[i] == sub ==> subs[..i] + Without(subs[i..], sub) == EraseAt(subs, i)
    ensures subs[i] != sub ==> subs[..i] + Without(subs[i..], sub) == subs[..i + 1] + Without(subs[i + 1..], sub)
  {
    assert subs[i..][1..] == subs[i + 1..] && subs[..i + 1] == subs[..i] + [subs[i]];
    var rest := Without(subs[i + 1..], sub);
    assert subs[..i] + ([subs[i]] + rest) == subs[..i] + [subs[i]] + rest;
  }

  class EventTimeseriesChannel<V(==)> {
    var data: seq<Stamped<V>>
    var subscriptions: seq<Subscriber>
    var capacity: Option<int>

    constructor ()
      ensures data == [] && subscriptions == [] && capacity == None
    {
      data, subscriptions, capacity := [], [], None;
    }

    /** Returns the increments in the order in which the subscribers' loops receive them. */
    method Push(ts: int, value: V) returns (sent: seq<Sent<V>>)
      modifies this`data
      ensures data == Capped(old(data), capacity, ts) + [Stamped(ts, value)]
      ensures sent == Increments(subscriptions, Stamped(ts, value))
    {
      while capacity.Some? && data != [] && data[0].ts < ts - capacity.value
        invariant Capped(data, capacity, ts) == Capped(old(data), capacity, ts)
        decreases |data|
      {
        data := data[1..];
      }
      data := data + [Stamped(ts, value)];
      sent := [];
      for i := 0 to |subscriptions|
        invariant sent == Increments(subscriptions, Stamped(ts, value))[..i]
      {
        sent := sent + [Sent(subscriptions[i], Stamped(ts, value))];
      }
    }

    /** Returns the snapshot that the subscriber's loop receives first. */
    method Subscribe(sub: Subscriber) returns (snapshot: seq<Stamped<V>>)
      modifies this`subscriptions
      ensures subscriptions == old(subscriptions) + [sub] && snapshot == data
    {
      subscriptions := subscriptions + [sub];
      return data;
    }

    method UnsubscribeOne(sub: Subscriber)
      modifies this`subscriptions
      ensures subscriptions == Without(old(subscriptions), sub)
    {
      var i := 0;
      while i < |subscriptions|
        invariant 0 <= i <= |subscriptions| && subscriptions == old(subscriptions)
        invariant Without(subscriptions, sub) == subscriptions[..i] + Without(subscriptions[i..], sub)
      {
        WithoutUnfolds(subscriptions, i, sub);
        if subscriptions[i] == sub {
          subscriptions := EraseAt(subscriptions, i);
          return;
        }
        i := i + 1;
      }
      assert subscriptions[..i] + Without(subscriptions[i..], sub) == subscriptions;
    }
  }
}
