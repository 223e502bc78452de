/** The event loop's queue (frontend/crypto/util/ThreadSafePriorityQueue.h and Priority.h). */
module PriorityQueue {
  import opened Common

  datatype Priority = High | Normal | Low | Barrier {
    /** The order in which the queue's map visits the priorities. */
    function Rank(): nat {
      match this
      case High => 0
      case Normal => 1
      case Low => 2
      case Barrier => 3
    }
  }

  /** One list for each priority, and whether the queue still accepts and delivers values. */
  datatype Queues<T> = Queues(high: seq<T>, normal: seq<T>, low: seq<T>, barrier: seq<T>, running: bool) {
    function Get(p: Priority): seq<T> {
      match p
      case High => high
      case Normal => normal
      case Low => low
      case Barrier => barrier
    }

    function Set(p: Priority, q: seq<T>): (r: Queues<T>)
      ensures r.running == running
      ensures forall o: Priority :: r.Get(o) == if o == p then q else Get(o)
    {
      match p
      case High => this.(high := q)
      case Normal => this.(normal := q)
      case Low => this.(low := q)
      case Barrier => this.(barrier := q)
    }
  }

  function Empty<T>(): Queues<T> {
    Queues([], [], [], [], true)
  }

  /** `push`: a stopped queue refuses the value. */
  function Push<T>(s: Queues<T>, p: Priority, x: T): Queues<T> {
    if s.running then s.Set(p, s.Get(p) + [x]) else s
  }

  /** What `wait_and_pop` does: a running queue with nothing to deliver blocks its caller. */
  datatype Delivery<T> = Stopped | Blocked | Delivered(priority: Priority, value: T)

  /** The highest priority that has something queued. */
  function First<T>(s: Queues<T>): Option<Priority> {
    if s.high != [] then Some(High)
    else if s.normal != [] then Some(Normal)
    else if s.low != [] then Some(Low)
    else if s.barrier != [] then Some(Barrier)
    else None
  }

  function Pop<T>(s: Queues<T>): (Queues<T>, Delivery<T>) {
    if !s.running then (s, Stopped)
    else
      match First(s)
      case None => (s, Blocked)
      case Some(p) => (s.Set(p, s.Get(p)[1..]), Delivered(p, s.Get(p)[0]))
  }

  /** The values that do not satisfy `discard`, in their order. */
  function Keep<T(!new)>(q: seq<T>, discard: T -> bool): (r: seq<T>)
    ensures forall x :: x in r <==> x in q && !discard(x)
  {
    if q == [] then []
    else
      assert q == [q[0]] + q[1..];
      if discard(q[0]) then Keep(q[1..], discard) else [q[0]] + Keep(q[1..], discard)
  }

  /** `discard_events`: exactly the values that satisfy `discard` go, at every priority. */
  function Discard<T(!new)>(s: Queues<T>, discard: T -> bool): (r: Queues<T>)
    ensures forall p: Priority, x :: x in r.Get(p) <==> x in s.Get(p) && !discard(x)
  {
    Queues(Keep(s.high, discard), Keep(s.normal, discard), Keep(s.low, discard), Keep(s.barrier, discard), s.running)
  }

  // ----- sequences of calls -----

  datatype Call<!T> = PushCall(priority: Priority, value: T) | PopCall | DiscardCall(discard: T -> bool) | StopCall

  /** The state after some calls, with what was delivered and, of what was pushed, what was not discarded. */
  datatype History<T> = History(queues: Queues<T>, delivered: Queues<T>, kept: Queues<T>)

  function Apply<T(!new)>(h: History<T>, c: Call<T>): History<T> {
    match c
    case PushCall(p, x) =>
      if h.queues.running then h.(queues := Push(h.queues, p, x), kept := h.kept.Set(p, h.kept.Get(p) + [x])) else h
    case PopCall =>
      var (queues, d) := Pop(h.queues);
      match d {
        case Delivered(p, x) => h.(queues := queues, delivered := h.delivered.Set(p, h.delivered.Get(p) + [x]))
        case _ => h
      }
    case DiscardCall(discard) =>
      var n := h.delivered;
      h.(queues := Discard(h.queues, discard),
         kept := Queues(KeepAfter(h.kept.high, |n.high|, discard), KeepAfter(h.kept.normal, |n.normal|, discard),
                        KeepAfter(h.kept.low, |n.low|, discard), KeepAfter(h.kept.barrier, |n.barrier|, discard), true))
    case StopCall => h.(queues := h.queues.(running := false))
  }

  /**
   * Of the pushes, a discard leaves the first `n`, which have been delivered, and those of the others that it does
   * not discard.
   */
  function KeepAfter<T(!new)>(kept: seq<T>, n: nat, discard: T -> bool): seq<T> {
    if n <= |kept| then kept[..n] + Keep(kept[n..], discard) else kept
  }

  function ApplyAll<T(!new)>(calls: seq<Call<T>>): History<T> {
    if calls == [] then History(Empty(), Empty(), Empty())
    else Apply(ApplyAll(calls[..|calls| - 1]), calls[|calls| - 1])
  }

  /**
   * For every sequence of calls and every priority, what was delivered followed by what is queued is
   * exactly what was pushed and not discarded, in the order of the pushes: first in, first out, and
   * nothing is lost or delivered twice.
   */
  lemma {:induction false} FifoWithoutLoss<T(!new)>(calls: seq<Call<T>>, p: Priority)
    ensures var h := ApplyAll(calls); h.delivered.Get(p) + h.queues.Get(p) == h.kept.Get(p)
  {
    if calls != [] {
      var before := calls[..|calls| - 1];
      FifoWithoutLoss(before, p);
      FifoStep(ApplyAll(before), calls[|calls| - 1], p);
    }
  }

  lemma FifoStep<T(!new)>(h: History<T>, c: Call<T>, p: Priority)
    requires h.delivered.Get(p) + h.queues.Get(p) == h.kept.Get(p)
    ensures var h' := Apply(h, c); h'.delivered.Get(p) + h'.queues.Get(p) == h'.kept.Get(p)
  {
  }

  /** A delivery takes the oldest value of its priority, and no value of a higher priority is waiting. */
  lemma DeliveryIsFirst<T>(s: Queues<T>)
    ensures var (s', d) := Pop(s);
      && (d.Stopped? <==> !s.running)
      && (d.Blocked? <==> s.running && forall p: Priority :: s.Get(p) == [])
      && (!d.Delivered? ==> s' == s)
      && (d.Delivered? ==>
            && s.Get(d.priority) == [d.value] + s'.Get(d.priority)
            && (forall p: Priority :: p.Rank() < d.priority.Rank() ==> s.Get(p) == [])
            && (forall p: Priority :: p != d.priority ==> s'.Get(p) == s.Get(p)))
  {
  }

  /** One turn of the erasing loop. */
  lemma KeepUnfolds<T(!new)>(q: seq<T>, i: nat, discard: T -> bool)
    requires i < |q|
    ensures discard(q[i]) ==>
      q[..i] + Keep(q[i..], discard) == EraseAt(q, i)[..i] + Keep(EraseAt(q, i)[i..], discard)
    ensures !discard(q[i]) ==> q[..i] + Keep(q[i..], discard) == q[..i + 1] + Keep(q[i + 1..], discard)
  {
  }

  // ----- the class -----

  class ThreadSafePriorityQueue<T(==,!new)> {
    const priority: T -> Priority
    var queues: Queues<T>

    constructor (priority: T -> Priority)
      ensures queues == Empty() && this.priority == priority
    {
      this.priority := priority;
      queues := Empty();
    }

    method Stop()
      modifies this
      ensures queues == old(queues).(running := false)
    {
      queues := queues.(running := false);
    }

    method PushValue(x: T) returns (accepted: bool)
      modifies this
      ensures accepted == old(queues).running
      ensures queues == Push(old(queues), priority(x), x)
    {
      if !queues.running {
        return false;
      }
      var p := priority(x);
      queues := queues.Set(p, queues.Get(p) + [x]);
      return true;
    }

    method WaitAndPop() returns (d: Delivery<T>)
      modifies this
      ensures (queues, d) == Pop(old(queues))
    {
      if !queues.running {
        return Stopped;
      }
      var order := [High, Normal, Low, Barrier];
      assert order[0] == High && order[1] == Normal && order[2] == Low && order[3] == Barrier;
      var i := 0;
      while i < 4
        invariant 0 <= i <= 4
        invariant forall j :: 0 <= j < i ==> queues.Get(order[j]) == []
        invariant queues == old(queues)
      {
        var q := queues.Get(order[i]);
        if q != [] {
          assert i >= 1 ==> queues.Get(order[0]) == [];
          assert i >= 2 ==> queues.Get(order[1]) == [];
          assert i >= 3 ==> queues.Get(order[2]) == [];
          queues := queues.Set(order[i], q[1..]);
          return Delivered(order[i], q[0]);
        }
        i := i + 1;
      }
      assert queues.Get(order[0]) == [] && queues.Get(order[1]) == [] && queues.Get(order[2]) == [];
      assert queues.Get(order[3]) == [];
      return Blocked;
    }

    /** The loop over one list, which erases while it iterates. */
    method DiscardFrom(q: seq<T>, discard: T -> bool) returns (r: seq<T>)
      ensures r == Keep(q, discard)
    {
      r := q;
      var i := 0;
      while i < |r|
        invariant 0 <= i <= |r|
        invariant r[..i] + Keep(r[i..], discard) == Keep(q, discard)
        decreases |r| - i
      {
        KeepUnfolds(r, i, discard);
        if discard(r[i]) {
          r := EraseAt(r, i);
        } else {
          i := i + 1;
        }
      }
      assert r[..i] + Keep(r[i..], discard) == r;
    }

    method DiscardEvents(discard: T -> bool)
      modifies this
      ensures queues == Discard(old(queues), discard)
    {
      var high := DiscardFrom(queues.high, discard);
      var normal := DiscardFrom(queues.normal, discard);
      var low := DiscardFrom(queues.low, discard);
      var barrier := DiscardFrom(queues.barrier, discard);
      queues := Queues(high, normal, low, barrier, queues.running);
    }
  }
}
