/** The disconnect queue: a bounded channel with two consumers, the throttled loop and the
    draining of the first Shutdown call, and a flag that stops producers. The lock regions,
    channel operations and controller calls are the steps; every interleaving is a run.
  */
module DisconnectQueueModel {
  const CAPACITY := 4096

  /** A session, by the identity of its object. */
  type Item = nat

  datatype Runner = Idle | Throttled(item: Item) | Returned

  datatype Drainer =
    | NotCalled
    | Counting
    | Draining(left: nat)
    | Calling(item: Item, left: nat)
    | ReturnedNil
    | ReturnedErr

  /** The channel, the flag, the pending shutdown signals, where the two consumers are, and four
      histories: what was accepted, what was taken out, whose controller call was made, and how
      many items the loop took since the drainer counted. */
  datatype Queue = Queue(
    disconnect: seq<Item>,
    isStopped: bool,
    signals: nat,
    runner: Runner,
    drainer: Drainer,
    accepted: seq<Item>,
    taken: seq<Item>,
    called: seq<Item>,
    runnerTook: nat)

  const NEW := Queue([], false, 0, Idle, NotCalled, [], [], [], 0)

  datatype Event =
    | Enqueue(item: Item)
    | RunTake
    | RunCall
    | RunStop
    | Stop
    | Count
    | DrainTake
    | DrainCall(failed: bool)
    | DrainTimeout

  predicate Enabled(q: Queue, e: Event) {
    match e
    case Enqueue(_) => q.isStopped || |q.disconnect| < CAPACITY
    case RunTake => q.runner.Idle? && q.disconnect != []
    case RunCall => q.runner.Throttled?
    case RunStop => q.runner.Idle? && q.signals > 0
    case Stop => !q.isStopped && q.signals < 1
    case Count => q.drainer.Counting?
    case DrainTake => q.drainer.Draining? && q.disconnect != []
    case DrainCall(_) => q.drainer.Calling?
    case DrainTimeout => q.drainer.Draining?
  }

  function Take(q: Queue): Queue
    requires q.disconnect != []
  {
    q.(disconnect := q.disconnect[1..], taken := q.taken + [q.disconnect[0]])
  }

  function Next(q: Queue, e: Event): Queue
    requires Enabled(q, e)
  {
    match e
    case Enqueue(s) =>
      if q.isStopped then q else q.(disconnect := q.disconnect + [s], accepted := q.accepted + [s])
    case RunTake =>
      Take(q).(runner := Throttled(q.disconnect[0]),
               runnerTook := if q.drainer.NotCalled? || q.drainer.Counting? then 0 else q.runnerTook + 1)
    case RunCall => q.(runner := Idle, called := q.called + [q.runner.item])
    case RunStop => q.(runner := Returned, signals := q.signals - 1)
    case Stop => q.(isStopped := true, signals := q.signals + 1, drainer := Counting)
    case Count => q.(drainer := if q.disconnect == [] then ReturnedNil else Draining(|q.disconnect|))
    case DrainTake => Take(q).(drainer := Calling(q.disconnect[0], q.drainer.left))
    case DrainCall(failed) =>
      var left := if q.drainer.left == 0 then 0 else q.drainer.left - 1;
      q.(called := q.called + [q.drainer.item],
         drainer := if failed then ReturnedErr else if left == 0 then ReturnedNil else Draining(left))
    case DrainTimeout => q.(drainer := ReturnedErr)
  }

  predicate Legal(q: Queue, es: seq<Event>)
    decreases |es|
  {
    es != [] ==> Enabled(q, es[0]) && Legal(Next(q, es[0]), es[1..])
  }

  function Exec(q: Queue, es: seq<Event>): Queue
    requires Legal(q, es)
    decreases |es|
  {
    if es == [] then q else Exec(Next(q, es[0]), es[1..])
  }

  lemma {:induction false} ExecAppend(q: Queue, a: seq<Event>, b: seq<Event>)
    requires Legal(q, a) && Legal(Exec(q, a), b)
    ensures Legal(q, a + b) && Exec(q, a + b) == Exec(Exec(q, a), b)
    decreases |a|
  {
    if a == [] {
      assert a + b == b;
    } else {
      assert (a + b)[1..] == a[1..] + b;
      ExecAppend(Next(q, a[0]), a[1..], b);
    }
  }

  lemma ExecOne(q: Queue, e: Event)
    requires Enabled(q, e)
    ensures Legal(q, [e]) && Exec(q, [e]) == Next(q, e)
  {
    assert [e][1..] == [];
  }

  lemma ExecTwo(q: Queue, e: Event, f: Event)
    requires Enabled(q, e) && Enabled(Next(q, e), f)
    ensures Legal(q, [e, f]) && Exec(q, [e, f]) == Next(Next(q, e), f)
  {
    ExecOne(q, e);
    ExecOne(Next(q, e), f);
    ExecAppend(q, [e], [f]);
    assert [e] + [f] == [e, f];
  }

  // ----- What every step keeps -----

  function RunnerHolds(r: Runner): multiset<Item> {
    if r.Throttled? then multiset{r.item} else multiset{}
  }

  function DrainerHolds(d: Drainer): multiset<Item> {
    if d.Calling? then multiset{d.item} else multiset{}
  }

  function InFlight(q: Queue): multiset<Item> {
    RunnerHolds(q.runner) + DrainerHolds(q.drainer)
  }

  /** What is still to be taken when the drainer counts down to `left`. */
  predicate CountsDown(q: Queue) {
    match q.drainer
    case NotCalled => q.runnerTook == 0
    case Counting => q.runnerTook == 0
    case Draining(left) => left > 0 && left == |q.disconnect| + q.runnerTook
    case Calling(_, left) => left == |q.disconnect| + 1 + q.runnerTook
    case ReturnedNil => q.disconnect == [] && q.runnerTook == 0
    case ReturnedErr => true
  }

  /** Items leave in the order they came, and what left was called or is about to be. */
  ghost predicate Conserved(q: Queue) {
    && q.taken + q.disconnect == q.accepted
    && multiset(q.taken) == multiset(q.called) + InFlight(q)
  }

  predicate Orderly(q: Queue) {
    && |q.disconnect| <= CAPACITY
    && (q.isStopped <==> !q.drainer.NotCalled?)
    && (q.runner.Returned? ==> q.isStopped)
    && q.signals == (if q.isStopped && !q.runner.Returned? then 1 else 0)
    && CountsDown(q)
  }

  ghost predicate Inv(q: Queue) {
    Conserved(q) && Orderly(q)
  }

  lemma NextKeepsOrderly(q: Queue, e: Event)
    requires Orderly(q) && Enabled(q, e)
    ensures Orderly(Next(q, e))
  {
    match e
    case RunTake =>
    case DrainTake =>
    case DrainCall(_) =>
    case _ =>
  }

  lemma EnqueueKeepsConserved(q: Queue, s: Item)
    requires Conserved(q) && Enabled(q, Enqueue(s))
    ensures Conserved(Next(q, Enqueue(s)))
  {
    assert q.taken + (q.disconnect + [s]) == q.taken + q.disconnect + [s];
  }

  lemma RunTakeKeepsConserved(q: Queue)
    requires Conserved(q) && Enabled(q, RunTake)
    ensures Conserved(Next(q, RunTake))
  {
    TakeKeepsOrder(q);
    assert RunnerHolds(q.runner) == multiset{};
  }

  lemma DrainTakeKeepsConserved(q: Queue)
    requires Conserved(q) && Enabled(q, DrainTake)
    ensures Conserved(Next(q, DrainTake))
  {
    TakeKeepsOrder(q);
    assert DrainerHolds(q.drainer) == multiset{};
  }

  lemma CallKeepsConserved(q: Queue, e: Event)
    requires Conserved(q) && Enabled(q, e)
    requires e.RunCall? || e.DrainCall?
    ensures Conserved(Next(q, e))
  {
    var item := if e.RunCall? then q.runner.item else q.drainer.item;
    assert multiset(q.called + [item]) == multiset(q.called) + multiset{item};
  }

  lemma NextKeepsConserved(q: Queue, e: Event)
    requires Inv(q) && Enabled(q, e)
    ensures Conserved(Next(q, e))
  {
    match e
    case Enqueue(s) => EnqueueKeepsConserved(q, s);
    case RunTake => RunTakeKeepsConserved(q);
    case DrainTake => DrainTakeKeepsConserved(q);
    case RunCall => CallKeepsConserved(q, e);
    case DrainCall(_) => CallKeepsConserved(q, e);
    case _ => assert InFlight(Next(q, e)) == InFlight(q);
  }

  /** Only Enqueue before the stop adds to what was accepted. */
  lemma AcceptedAfter(q: Queue, e: Event)
    requires Enabled(q, e)
    ensures Next(q, e).accepted == if e.Enqueue? && !q.isStopped then q.accepted + [e.item] else q.accepted
  {
    match e
    case Enqueue(_) =>
    case _ =>
  }

  lemma NextKeepsInv(q: Queue, e: Event)
    requires Inv(q) && Enabled(q, e)
    ensures Inv(Next(q, e))
  {
    NextKeepsOrderly(q, e);
    NextKeepsConserved(q, e);
  }

  lemma TakeKeepsOrder(q: Queue)
    requires q.disconnect != [] && q.taken + q.disconnect == q.accepted
    ensures Take(q).taken + Take(q).disconnect == q.accepted
    ensures multiset(Take(q).taken) == multiset(q.taken) + multiset{q.disconnect[0]}
  {
    assert q.disconnect == [q.disconnect[0]] + q.disconnect[1..];
  }

  lemma {:induction false} ExecKeepsInv(q: Queue, es: seq<Event>)
    requires Inv(q) && Legal(q, es)
    ensures Inv(Exec(q, es))
    decreases |es|
  {
    if es != [] {
      NextKeepsInv(q, es[0]);
      ExecKeepsInv(Next(q, es[0]), es[1..]);
    }
  }

  /** In every interleaving the accepted sessions are the called, in-flight and queued ones, each
      as often as accepted; they leave the queue in the order they came; a first Shutdown call that
      returned nil left the queue empty; and the loop can return once stopped, and only then. */
  lemma Conservation(es: seq<Event>)
    requires Legal(NEW, es)
    ensures var q := Exec(NEW, es);
            && multiset(q.accepted) == multiset(q.called) + InFlight(q) + multiset(q.disconnect)
            && q.taken <= q.accepted
            && (q.drainer.ReturnedNil? ==> q.disconnect == [] && q.runnerTook == 0)
            && (q.isStopped && q.runner.Idle? ==> Enabled(q, RunStop))
            && (q.runner.Returned? ==> q.isStopped)
  {
    ExecKeepsInv(NEW, es);
    var q := Exec(NEW, es);
    assert multiset(q.taken + q.disconnect) == multiset(q.taken) + multiset(q.disconnect);
  }

  /** Nothing is accepted once the flag is up. */
  lemma {:induction false} NoneAcceptedAfterStop(q: Queue, es: seq<Event>)
    requires q.isStopped && Legal(q, es)
    ensures Exec(q, es).isStopped && Exec(q, es).accepted == q.accepted
    decreases |es|
  {
    if es != [] {
      NoneAcceptedAfterStop(Next(q, es[0]), es[1..]);
    }
  }

  /** A queue the loop has dipped into while the drainer was counting down: the drainer cannot
      return nil any more, it waits for the timeout even when everything is dispatched. */
  lemma {:induction false} DipMeansNoNil(q: Queue, es: seq<Event>)
    requires Inv(q) && Legal(q, es)
    requires q.drainer.Draining? || q.drainer.Calling? || q.drainer.ReturnedErr?
    requires q.runnerTook > 0 || q.drainer.ReturnedErr?
    ensures !Exec(q, es).drainer.ReturnedNil?
    decreases |es|
  {
    if es != [] {
      NextKeepsInv(q, es[0]);
      DipMeansNoNil(Next(q, es[0]), es[1..]);
    }
  }

  // ----- When Shutdown returns nil -----

  /** How often the loop takes a session in a run, and how often after the drainer has counted. */
  function Takes(es: seq<Event>): nat {
    if es == [] then 0 else (if es[0].RunTake? then 1 else 0) + Takes(es[1..])
  }

  function TakesAfterCount(es: seq<Event>): nat {
    if es == [] then 0 else if es[0].Count? then Takes(es[1..]) else TakesAfterCount(es[1..])
  }

  predicate HasCounted(q: Queue) {
    !q.drainer.NotCalled? && !q.drainer.Counting?
  }

  /** How one step moves the two of them. */
  lemma TookAfter(q: Queue, e: Event)
    requires Orderly(q) && Enabled(q, e)
    ensures HasCounted(Next(q, e)) <==> HasCounted(q) || e.Count?
    ensures HasCounted(q) ==> !e.Count?
    ensures Next(q, e).runnerTook == q.runnerTook + (if HasCounted(q) && e.RunTake? then 1 else 0)
  {}

  lemma {:induction false} TakesAreCounted(q: Queue, es: seq<Event>)
    requires Orderly(q) && Legal(q, es)
    ensures Exec(q, es).runnerTook == q.runnerTook + (if HasCounted(q) then Takes(es) else TakesAfterCount(es))
    decreases |es|
  {
    if es != [] {
      NextKeepsOrderly(q, es[0]);
      TookAfter(q, es[0]);
      TakesAreCounted(Next(q, es[0]), es[1..]);
    }
  }

  /** The drainer meets neither a failing call nor the timer. */
  predicate Undisturbed(es: seq<Event>) {
    forall e :: e in es ==> !e.DrainTimeout? && e != DrainCall(true)
  }

  lemma {:induction false} UndisturbedNoError(q: Queue, es: seq<Event>)
    requires !q.drainer.ReturnedErr? && Legal(q, es) && Undisturbed(es)
    ensures !Exec(q, es).drainer.ReturnedErr?
    decreases |es|
  {
    if es != [] {
      assert es[0] in es;
      UndisturbedNoError(Next(q, es[0]), es[1..]);
    }
  }

  /** Shutdown has counted, is not in a call, and finds the queue empty. */
  predicate AtRest(q: Queue) {
    q.isStopped && q.disconnect == [] && !q.drainer.Counting? && !q.drainer.Calling?
  }

  /** In every run without a failing call or a timeout: once the queue is empty Shutdown has returned
      nil if and only if the loop took no session after Shutdown counted them. */
  lemma ShutdownReturnsNilIff(es: seq<Event>)
    requires Legal(NEW, es) && Undisturbed(es) && AtRest(Exec(NEW, es))
    ensures Exec(NEW, es).drainer.ReturnedNil? <==> TakesAfterCount(es) == 0
  {
    ExecKeepsInv(NEW, es);
    UndisturbedNoError(NEW, es);
    TakesAreCounted(NEW, es);
  }

  const DIP: seq<Event> := [Enqueue(0), Stop] + ([Count, RunTake] + [RunCall, RunStop])

  lemma DipRuns()
    ensures Legal(NEW, DIP)
    ensures var q := Exec(NEW, DIP);
            && q.called == q.accepted == [0] && q.disconnect == []
            && q.drainer == Draining(1) && q.runnerTook == 1
  {
    var q2 := Next(Next(NEW, Enqueue(0)), Stop);
    ExecTwo(NEW, Enqueue(0), Stop);
    assert q2.disconnect == [0] && q2.accepted == [0] && q2.called == [];
    var q3 := Next(q2, Count);
    var q4 := Next(q3, RunTake);
    ExecTwo(q2, Count, RunTake);
    assert q4.disconnect == [] && q4.runner == Throttled(0) && q4.drainer == Draining(1);
    ExecTwo(q4, RunCall, RunStop);
    ExecAppend(q2, [Count, RunTake], [RunCall, RunStop]);
    ExecAppend(NEW, [Enqueue(0), Stop], [Count, RunTake] + [RunCall, RunStop]);
  }

  /** One session, taken by the loop after the count: its call is made, nothing is left to take, and
      Shutdown still waits. No continuation makes it return nil. */
  lemma NeedlessTimeout()
    ensures Legal(NEW, DIP)
    ensures var q := Exec(NEW, DIP);
            && q.called == q.accepted == [0] && q.disconnect == [] && q.drainer.Draining?
            && !Enabled(q, DrainTake)
            && forall after :: Legal(q, after) ==> !Exec(q, after).drainer.ReturnedNil?
  {
    DipRuns();
    ExecKeepsInv(NEW, DIP);
    var q := Exec(NEW, DIP);
    forall after | Legal(q, after) ensures !Exec(q, after).drainer.ReturnedNil? {
      DipMeansNoNil(q, after);
    }
  }
}

/** The queue object. Each method is a run of the model's steps, given as its ghost result. */
module DisconnectQueue {
  import opened DisconnectQueueModel

  /** The first `n` rounds come before the timer, and their calls succeed. */
  predicate Untroubled(n: nat, failed: nat -> bool, late: nat -> bool) {
    n == 0 || (Untroubled(n - 1, failed, late) && !late(n - 1) && !failed(n - 1))
  }

  /** After `n` calls: no error if there was no trouble; an error if the timer came first in the next
      round, or the last call was the first to fail. */
  predicate EndedAt(n: nat, err: bool, failed: nat -> bool, late: nat -> bool) {
    if !err then Untroubled(n, failed, late)
    else
      || (Untroubled(n, failed, late) && late(n))
      || (n > 0 && Untroubled(n - 1, failed, late) && !late(n - 1) && failed(n - 1))
  }

  class DisconnectQueue {
    var disconnect: seq<Item>
    var isStopped: bool
    var shutdown: nat
    ghost var runner: Runner
    ghost var drainer: Drainer
    ghost var accepted: seq<Item>
    ghost var taken: seq<Item>
    ghost var called: seq<Item>
    ghost var runnerTook: nat

    ghost function View(): Queue
      reads this
    {
      Queue(disconnect, isStopped, shutdown, runner, drainer, accepted, taken, called, runnerTook)
    }

    constructor ()
      ensures View() == NEW
    {
      disconnect, isStopped, shutdown := [], false, 0;
      runner, drainer, accepted, taken, called, runnerTook := Idle, NotCalled, [], [], [], 0;
    }

    /** A full queue makes the caller wait: nothing happens yet. */
    method Enqueue(s: Item) returns (waits: bool)
      modifies this
      ensures waits <==> !Enabled(old(View()), DisconnectQueueModel.Enqueue(s))
      ensures View() == if waits then old(View()) else Next(old(View()), DisconnectQueueModel.Enqueue(s))
      ensures waits <==> !old(isStopped) && |old(disconnect)| >= 4096
      ensures disconnect == if waits || old(isStopped) then old(disconnect) else old(disconnect) + [s]
    {
      if isStopped {
        return false;
      }
      if |disconnect| >= CAPACITY {
        return true;
      }
      disconnect := disconnect + [s];
      accepted := accepted + [s];
      return false;
    }

    /** One round of the draining loop: take the next session and call the controller for it. */
    method DrainOne(left: nat, e: bool) returns (session: Item, ghost trace: seq<Event>)
      requires drainer == Draining(left) && left > 0 && disconnect != []
      modifies this
      ensures Legal(old(View()), trace) && View() == Exec(old(View()), trace)
      ensures old(disconnect) == [session] + disconnect
      ensures isStopped == old(isStopped) && called == old(called) + [session]
      ensures drainer == if e then ReturnedErr else if left == 1 then ReturnedNil else Draining(left - 1)
    {
      session := disconnect[0];
      ghost var start := View();
      disconnect, taken, drainer := disconnect[1..], taken + [session], Calling(session, left);
      ghost var mid := View();
      called := called + [session];
      drainer := if e then ReturnedErr else if left == 1 then ReturnedNil else Draining(left - 1);
      assert mid == Next(start, DrainTake) && View() == Next(mid, DrainCall(e));
      ExecTwo(start, DrainTake, DrainCall(e));
      trace := [DrainTake, DrainCall(e)];
    }

    /** One round: the timer, or the next session. */
    method DrainRound(left: nat, fails: bool, timedOut: bool)
      returns (next: seq<Item>, err: bool, ghost trace: seq<Event>)
      requires drainer == Draining(left) && left > 0 && disconnect != []
      modifies this
      ensures Legal(old(View()), trace) && View() == Exec(old(View()), trace)
      ensures old(disconnect) == next + disconnect && called == old(called) + next && isStopped == old(isStopped)
      ensures |next| == (if timedOut then 0 else 1) && err == (timedOut || fails)
      ensures drainer == if err then ReturnedErr else if left == 1 then ReturnedNil else Draining(left - 1)
    {
      if timedOut {
        ghost var from := View();
        drainer := ReturnedErr;
        ExecOne(from, DrainTimeout);
        return [], true, [DrainTimeout];
      }
      var session;
      session, trace := DrainOne(left, fails);
      next, err := [session], fails;
    }

    /** The loop that counts `left` down. */
    method Drain(failed: nat -> bool, late: nat -> bool)
      returns (done: seq<Item>, err: bool, ghost trace: seq<Event>)
      requires drainer == if disconnect == [] then ReturnedNil else Draining(|disconnect|)
      modifies this
      ensures Legal(old(View()), trace) && View() == Exec(old(View()), trace)
      ensures done + disconnect == old(disconnect) && called == old(called) + done && isStopped == old(isStopped)
      ensures if err then drainer.ReturnedErr? else drainer.ReturnedNil? && disconnect == []
      ensures EndedAt(|done|, err, failed, late)
    {
      done, err, trace := [], false, [];
      var left := |disconnect|;
      while left > 0 && !err
        invariant Legal(old(View()), trace) && View() == Exec(old(View()), trace)
        invariant isStopped == old(isStopped) && done + disconnect == old(disconnect) && called == old(called) + done
        invariant !err ==> left == |disconnect| && drainer == if left == 0 then ReturnedNil else Draining(left)
        invariant err ==> drainer.ReturnedErr?
        invariant EndedAt(|done|, err, failed, late)
        decreases left, !err
      {
        var next;
        ghost var t;
        next, err, t := DrainRound(left, failed(|done|), late(|done|));
        left, done := left - |next|, done + next;
        ExecAppend(old(View()), trace, t);
        trace := trace + t;
      }
    }

    /** Shutdown with no other consumer in between: the sessions it calls the controller for, in
        order, and whether it returns an error. `failed` and `late` say which controller calls
        fail and when the timer fires first. */
    method Shutdown(failed: nat -> bool, late: nat -> bool)
      returns (done: seq<Item>, err: bool, ghost trace: seq<Event>)
      requires Inv(View())
      modifies this
      ensures Legal(old(View()), trace) && View() == Exec(old(View()), trace)
      ensures done + disconnect == old(disconnect) && called == old(called) + done
      ensures old(isStopped) ==> !err && trace == []
      ensures !old(isStopped) ==>
                isStopped && (if err then drainer.ReturnedErr? else drainer.ReturnedNil? && disconnect == [])
      ensures !old(isStopped) ==> EndedAt(|done|, err, failed, late)
    {
      if isStopped {
        return [], false, [];
      }
      ghost var start := View();
      isStopped, shutdown, drainer := true, shutdown + 1, Counting;
      ghost var mid := View();
      drainer := if disconnect == [] then ReturnedNil else Draining(|disconnect|);
      assert mid == Next(start, Stop) && View() == Next(mid, Count);
      ExecTwo(start, Stop, Count);
      ghost var t;
      done, err, t := Drain(failed, late);
      ExecAppend(start, [Stop, Count], t);
      trace := [Stop, Count] + t;
    }
  }
}
