/** The goroutine pool: tokens for workers, a bounded queue of tasks, and workers that stop after
    a fixed number of tasks. Taking a token and starting the worker is one step; scheduling,
    workers and the end of tasks interleave freely.
  */
module GoPoolModel {

  const RESPAWN_THRESHOLD := 65536

  /** Tasks by the order in which they were scheduled. */
  type Task = nat

  /** First runs the task the worker was started with, a no-op for the initial workers; Waiting is
      at the range over the queue; Leaving is about to give the token back. `ran` is how many tasks
      the worker has begun, its first included. */
  datatype Phase = First(initial: Initial) | Waiting | Running(task: Task) | Leaving
  datatype Initial = Noop | Given(task: Task)
  datatype Worker = Worker(phase: Phase, counter: nat, ran: nat)

  datatype Pool = Pool(
    size: nat,
    queueSize: nat,
    sem: nat,
    work: seq<Task>,
    workers: seq<Worker>,
    scheduled: nat,
    done: seq<Task>)

  datatype Event =
    | Spawn                  // the constructor starts a worker on a no-op
    | ScheduleQueued
    | ScheduleSpawned
    | Finish(w: nat)
    | Take(w: nat)
    | Leave(w: nat)

  predicate Enabled(p: Pool, e: Event) {
    match e
    case Spawn => p.sem < p.size
    case ScheduleQueued => |p.work| < p.queueSize
    case ScheduleSpawned => p.sem < p.size
    case Finish(w) => w < |p.workers| && (p.workers[w].phase.First? || p.workers[w].phase.Running?)
    case Take(w) => w < |p.workers| && p.workers[w].phase.Waiting? && p.work != []
    case Leave(w) => w < |p.workers| && p.workers[w].phase.Leaving? && p.sem > 0
  }

  function Begin(initial: Initial): Worker {
    Worker(First(initial), 1, 1)
  }

  /** The counter goes up only after tasks taken from the queue. */
  function AfterTask(w: Worker): Worker {
    if w.phase.First? then w.(phase := Waiting)
    else
      var counter := w.counter + 1;
      w.(counter := counter, phase := if counter >= RESPAWN_THRESHOLD then Leaving else Waiting)
  }

  /** The task a worker is at. */
  function Current(w: Worker): seq<Task> {
    match w.phase
    case First(Given(t)) => [t]
    case Running(t) => [t]
    case _ => []
  }

  function Next(p: Pool, e: Event): Pool
    requires Enabled(p, e)
  {
    match e
    case Spawn => p.(sem := p.sem + 1, workers := p.workers + [Begin(Noop)])
    case ScheduleQueued => p.(work := p.work + [p.scheduled], scheduled := p.scheduled + 1)
    case ScheduleSpawned =>
      p.(sem := p.sem + 1, workers := p.workers + [Begin(Given(p.scheduled))], scheduled := p.scheduled + 1)
    case Finish(w) => p.(done := p.done + Current(p.workers[w]), workers := p.workers[w := AfterTask(p.workers[w])])
    case Take(w) =>
      p.(work := p.work[1..],
         workers := p.workers[w := p.workers[w].(phase := Running(p.work[0]), ran := p.workers[w].ran + 1)])
    case Leave(w) => p.(sem := p.sem - 1, workers := p.workers[..w] + p.workers[w + 1..])
  }

  predicate Legal(p: Pool, es: seq<Event>)
    decreases |es|
  {
    es != [] ==> Enabled(p, es[0]) && Legal(Next(p, es[0]), es[1..])
  }

  function Exec(p: Pool, es: seq<Event>): Pool
    requires Legal(p, es)
    decreases |es|
  {
    if es == [] then p else Exec(Next(p, es[0]), es[1..])
  }

  lemma {:induction false} ExecThen(p: Pool, a: seq<Event>, e: Event)
    requires Legal(p, a) && Enabled(Exec(p, a), e)
    ensures Legal(p, a + [e]) && Exec(p, a + [e]) == Next(Exec(p, a), e)
    decreases |a|
  {
    if a == [] {
      assert (a + [e])[1..] == [];
    } else {
      assert (a + [e])[1..] == a[1..] + [e];
      ExecThen(Next(p, a[0]), a[1..], e);
    }
  }

  // ----- Where the tasks are -----

  function Held(w: Worker, t: Task): nat {
    if t in Current(w) then 1 else 0
  }

  /** How many workers are at task `t`. */
  function Holders(workers: seq<Worker>, t: Task): nat {
    if workers == [] then 0 else Held(workers[0], t) + Holders(workers[1..], t)
  }

  function Places(p: Pool, t: Task): nat {
    multiset(p.work)[t] + Holders(p.workers, t) + multiset(p.done)[t]
  }

  /** A scheduled task is queued, running or done, in one of these and once; any other nowhere. */
  predicate Whole(p: Pool, t: Task) {
    Places(p, t) == if t < p.scheduled then 1 else 0
  }

  /** The counter against the tasks begun. */
  predicate Counted(w: Worker) {
    && 1 <= w.counter && (w.phase.First? ==> w.counter == 1)
    && (w.counter >= RESPAWN_THRESHOLD <==> w.phase.Leaving?)
    && w.ran == w.counter + (if w.phase.Running? then 1 else 0)
    && w.ran <= RESPAWN_THRESHOLD
  }

  ghost predicate Sound(p: Pool) {
    && p.sem == |p.workers| <= p.size
    && |p.work| <= p.queueSize
    && forall i :: 0 <= i < |p.workers| ==> Counted(p.workers[i])
  }

  ghost predicate Inv(p: Pool) {
    Sound(p) && forall t: Task :: Whole(p, t)
  }

  lemma {:induction false} HoldersAppend(a: seq<Worker>, b: seq<Worker>, t: Task)
    ensures Holders(a + b, t) == Holders(a, t) + Holders(b, t)
    decreases |a|
  {
    if a == [] {
      assert a + b == b;
    } else {
      assert (a + b)[1..] == a[1..] + b;
      HoldersAppend(a[1..], b, t);
    }
  }

  lemma HoldersSplit(ws: seq<Worker>, i: nat, t: Task)
    requires i < |ws|
    ensures Holders(ws, t) == Holders(ws[..i], t) + Held(ws[i], t) + Holders(ws[i + 1..], t)
  {
    assert ws == ws[..i] + ([ws[i]] + ws[i + 1..]);
    HoldersAppend(ws[..i], [ws[i]] + ws[i + 1..], t);
    assert ([ws[i]] + ws[i + 1..])[1..] == ws[i + 1..];
  }

  lemma HoldersUpdate(ws: seq<Worker>, i: nat, w: Worker, t: Task)
    requires i < |ws|
    ensures Holders(ws[i := w], t) == Holders(ws, t) - Held(ws[i], t) + Held(w, t)
  {
    HoldersSplit(ws, i, t);
    HoldersSplit(ws[i := w], i, t);
    assert ws[i := w][..i] == ws[..i] && ws[i := w][i + 1..] == ws[i + 1..];
  }

  lemma HoldersNew(ws: seq<Worker>, w: Worker, t: Task)
    ensures Holders(ws + [w], t) == Holders(ws, t) + Held(w, t)
  {
    HoldersAppend(ws, [w], t);
    assert [w][1..] == [];
  }

  lemma FinishWhole(p: Pool, w: nat, t: Task)
    requires Whole(p, t) && Enabled(p, Finish(w))
    ensures Whole(Next(p, Finish(w)), t)
  {
    HoldersUpdate(p.workers, w, AfterTask(p.workers[w]), t);
    assert multiset(p.done + Current(p.workers[w])) == multiset(p.done) + multiset(Current(p.workers[w]));
    assert multiset(Current(p.workers[w]))[t] == Held(p.workers[w], t);
    assert Current(AfterTask(p.workers[w])) == [];
  }

  lemma TakeWhole(p: Pool, w: nat, t: Task)
    requires Whole(p, t) && Enabled(p, Take(w))
    ensures Whole(Next(p, Take(w)), t)
  {
    HoldersUpdate(p.workers, w, p.workers[w].(phase := Running(p.work[0]), ran := p.workers[w].ran + 1), t);
    assert p.work == [p.work[0]] + p.work[1..];
    assert multiset(p.work) == multiset{p.work[0]} + multiset(p.work[1..]);
  }

  lemma LeaveWhole(p: Pool, w: nat, t: Task)
    requires Whole(p, t) && Enabled(p, Leave(w))
    ensures Whole(Next(p, Leave(w)), t)
  {
    HoldersSplit(p.workers, w, t);
    HoldersAppend(p.workers[..w], p.workers[w + 1..], t);
  }

  lemma NextWhole(p: Pool, e: Event, t: Task)
    requires Whole(p, t) && Enabled(p, e)
    ensures Whole(Next(p, e), t)
  {
    match e
    case Spawn => HoldersNew(p.workers, Begin(Noop), t);
    case ScheduleQueued =>
      assert multiset(p.work + [p.scheduled]) == multiset(p.work) + multiset{p.scheduled};
    case ScheduleSpawned => HoldersNew(p.workers, Begin(Given(p.scheduled)), t);
    case Finish(w) => FinishWhole(p, w, t);
    case Take(w) => TakeWhole(p, w, t);
    case Leave(w) => LeaveWhole(p, w, t);
  }

  lemma NextKeepsSound(p: Pool, e: Event)
    requires Sound(p) && Enabled(p, e)
    ensures Sound(Next(p, e))
  {
    var q := Next(p, e);
    forall i | 0 <= i < |q.workers| ensures Counted(q.workers[i]) {
      match e
      case Leave(w) =>
        assert q.workers[i] == if i < w then p.workers[i] else p.workers[i + 1];
      case Finish(w) => assert Counted(p.workers[i]);
      case Take(w) => assert Counted(p.workers[i]);
      case _ =>
        if i < |p.workers| { assert q.workers[i] == p.workers[i]; }
    }
  }

  lemma NextKeepsInv(p: Pool, e: Event)
    requires Inv(p) && Enabled(p, e)
    ensures Inv(Next(p, e))
  {
    NextKeepsSound(p, e);
    forall t: Task ensures Whole(Next(p, e), t) {
      assert Whole(p, t);
      NextWhole(p, e, t);
    }
  }

  lemma {:induction false} ExecKeepsInv(p: Pool, es: seq<Event>)
    requires Inv(p) && Legal(p, es)
    ensures Inv(Exec(p, es)) && Exec(p, es).size == p.size && Exec(p, es).queueSize == p.queueSize
    decreases |es|
  {
    if es != [] {
      NextKeepsInv(p, es[0]);
      ExecKeepsInv(Next(p, es[0]), es[1..]);
    }
  }

  // ----- A new pool -----

  function Spawned(size: nat): nat {
    if size / 5 <= 0 then 1 else if size / 5 > 1024 then 1024 else size / 5
  }

  function Queued(size: nat): nat {
    if size / 2 <= 0 then 1 else size / 2
  }

  function Unstarted(size: nat): Pool {
    Pool(size, Queued(size), 0, [], [], 0, [])
  }

  /** Making a channel of negative size panics; a pool without tokens waits for one forever. */
  datatype Construction = Panics | Waits | Started(pool: Pool)

  /** The constructor starts all its workers exactly when the size is at least one: a fifth of the
      size, at least one, at most 1024; the queue takes half the size, at least one. */
  method NewGoPool(size: int) returns (made: Construction)
    ensures made.Panics? <==> size < 0
    ensures made.Waits? <==> size == 0
    ensures made.Started? ==>
              && Inv(made.pool) && made.pool.size == size && made.pool.queueSize == Queued(size)
              && made.pool.sem == |made.pool.workers| == Spawned(size)
              && made.pool.work == [] && made.pool.scheduled == 0 && made.pool.done == []
    ensures made.Started? ==>
              var n, q := |made.pool.workers|, made.pool.queueSize;
              && (if size < 5 then n == 1 else if size >= 5120 then n == 1024 else 5 * n <= size < 5 * n + 5)
              && (if size == 1 then q == 1 else 2 * q <= size < 2 * q + 2)
  {
    if size < 0 {
      return Panics;
    }
    var pool := Unstarted(size);
    for i := 0 to Spawned(size)
      invariant Inv(pool) && pool.size == size && pool.queueSize == Queued(size)
      invariant pool.sem == i <= size && pool.work == [] && pool.scheduled == 0 && pool.done == []
    {
      if pool.sem == size {
        return Waits;
      }
      NextKeepsInv(pool, Spawn);
      pool := Next(pool, Spawn);
    }
    made := Started(pool);
  }

  /** Scheduling without a timeout waits. */
  predicate Blocked(p: Pool) {
    !Enabled(p, ScheduleQueued) && !Enabled(p, ScheduleSpawned)
  }

  /** From any pool the constructor starts, in every run: the tokens held are the live workers and
      at most the size; each scheduled task is queued, running or done, in one of these and once,
      so it runs at most once; no worker begins more than 65536 tasks; and scheduling waits exactly
      when all tokens are held and the queue is full. */
  lemma WorkersConserve(p: Pool, es: seq<Event>)
    requires Inv(p) && Legal(p, es)
    ensures var q := Exec(p, es);
            && q.sem == |q.workers| <= p.size
            && (forall t: Task :: Whole(q, t))
            && (forall i :: 0 <= i < |q.workers| ==> q.workers[i].ran <= RESPAWN_THRESHOLD)
            && (Blocked(q) <==> |q.workers| == p.size && |q.work| == p.queueSize)
            && (Enabled(q, ScheduleQueued) <==> |q.work| < p.queueSize)
            && (Enabled(q, ScheduleSpawned) <==> |q.workers| < p.size)
  {
    ExecKeepsInv(p, es);
    var q := Exec(p, es);
    forall i | 0 <= i < |q.workers| ensures q.workers[i].ran <= RESPAWN_THRESHOLD {
      assert Counted(q.workers[i]);
    }
  }

  /** A worker leaves only after exactly 65536 tasks. */
  lemma LeavesAtThreshold(p: Pool, w: nat)
    requires Inv(p) && Enabled(p, Leave(w))
    ensures p.workers[w].ran == 65536
  {
    assert Counted(p.workers[w]);
  }

  /** One round of the worker's loop. */
  lemma Round(p: Pool, w: nat)
    requires Enabled(p, Take(w))
    ensures Enabled(Next(p, Take(w)), Finish(w))
    ensures var q := Next(Next(p, Take(w)), Finish(w));
            && q.work == p.work[1..] && q.done == p.done + [p.work[0]]
            && |q.workers| == |p.workers|
            && q.workers[w].counter == p.workers[w].counter + 1
            && q.workers[w].phase == if q.workers[w].counter < RESPAWN_THRESHOLD then Waiting else Leaving
  {}

  /** The worker function with nobody else active: its first task, then tasks off the queue until
      the queue is empty, where it waits, or its count is full, where it leaves. */
  method RunWorker(start: Pool, w: nat) returns (p: Pool, ghost trace: seq<Event>)
    requires Sound(start) && w < |start.workers| && start.workers[w].phase.First?
    ensures Legal(start, trace) && p == Exec(start, trace)
    ensures var k := if |start.work| < RESPAWN_THRESHOLD - 1 then |start.work| else RESPAWN_THRESHOLD - 1;
            && p.done == start.done + Current(start.workers[w]) + start.work[..k]
            && p.work == start.work[k..]
            && |p.workers| == |start.workers|
            && (p.workers[w].phase.Leaving? <==> k == RESPAWN_THRESHOLD - 1)
            && (p.workers[w].phase.Waiting? <==> k < RESPAWN_THRESHOLD - 1)
  {
    assert Counted(start.workers[w]);
    p, trace := start, [];
    ExecThen(start, trace, Finish(w));
    p, trace := Next(p, Finish(w)), trace + [Finish(w)];
    ghost var begun := p;
    var k := 0;
    var counter := 1;
    while p.work != [] && counter < RESPAWN_THRESHOLD
      invariant Legal(start, trace) && p == Exec(start, trace)
      invariant 0 <= k <= |start.work| && k <= RESPAWN_THRESHOLD - 1 && counter == k + 1
      invariant w < |p.workers| == |start.workers| && p.workers[w].counter == counter
      invariant p.workers[w].phase == if counter < RESPAWN_THRESHOLD then Waiting else Leaving
      invariant p.work == start.work[k..] && p.done == begun.done + start.work[..k]
      decreases |p.work|
    {
      Round(p, w);
      ExecThen(start, trace, Take(w));
      ExecThen(start, trace + [Take(w)], Finish(w));
      p, trace := Next(Next(p, Take(w)), Finish(w)), trace + [Take(w)] + [Finish(w)];
      assert start.work[..k] + [start.work[k]] == start.work[..k + 1];
      k, counter := k + 1, counter + 1;
    }
  }
}
