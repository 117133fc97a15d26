/** The remote-disconnect task against the hub loop. The task holds the read lock on the sessions while
    each disconnect pushes a removal to the register channel; the loop, the channel's only reader, needs
    the write lock to carry a removal out. Removals of unregistered sessions need no write lock.
  */
module DisconnectDeadlock {
  import L = HubLoop

  /** A loop that waits holds a command and wants the lock. */
  datatype Loop = Idle | Waiting

  /** How many connected sessions the task still has to disconnect. */
  datatype Task = Running(left: nat) | Ended

  /** The commands in the channel, each true if its session is registered, and the number of other
      goroutines waiting for the write lock, which keep new readers out. */
  datatype State = State(register: seq<bool>, loop: Loop, task: Task, writers: nat)

  datatype Event =
    | LoopTake
    | LoopLock
    | TaskPush
    | TaskEnd
    | OtherPush(registered: bool)
    | OtherAsks
    | OtherLocks
    | Overtake          // somebody else disconnects one of the task's sessions

  predicate Own(e: Event) {
    e.LoopTake? || e.LoopLock? || e.TaskPush? || e.TaskEnd?
  }

  predicate Enabled(s: State, e: Event) {
    match e
    case LoopTake => s.loop.Idle? && s.register != []
    case LoopLock => s.loop.Waiting? && s.task.Ended?
    case TaskPush => s.task.Running? && s.task.left > 0 && |s.register| < L.REGISTER_CAPACITY
    case TaskEnd => s.task == Running(0)
    case OtherPush(_) => |s.register| < L.REGISTER_CAPACITY
    case OtherAsks => true
    case OtherLocks => s.writers > 0 && s.task.Ended?
    case Overtake => s.task.Running? && s.task.left > 0
  }

  function Next(s: State, e: Event): State
    requires Enabled(s, e)
  {
    match e
    case LoopTake =>
      s.(register := s.register[1..],
         loop := if s.register[0] || (s.writers > 0 && s.task.Running?) then Waiting else Idle)
    case LoopLock => s.(loop := Idle)
    case TaskPush => s.(register := s.register + [true], task := Running(s.task.left - 1))
    case TaskEnd => s.(task := Ended)
    case OtherPush(registered) => s.(register := s.register + [registered])
    case OtherAsks => s.(writers := s.writers + 1)
    case OtherLocks => s.(writers := s.writers - 1)
    case Overtake => s.(task := Running(s.task.left - 1))
  }

  predicate Legal(s: State, es: seq<Event>)
    decreases |es|
  {
    es != [] ==> Enabled(s, es[0]) && Legal(Next(s, es[0]), es[1..])
  }

  function Exec(s: State, es: seq<Event>): State
    requires Legal(s, es)
    decreases |es|
  {
    if es == [] then s else Exec(Next(s, es[0]), es[1..])
  }

  // ----- Room while the task runs -----

  /** The commands before the first that needs the write lock. */
  function Passing(register: seq<bool>): nat {
    if register == [] || register[0] then 0 else Passing(register[1..]) + 1
  }

  lemma {:induction false} PassingMore(register: seq<bool>, b: bool)
    ensures Passing(register) <= Passing(register + [b]) <= Passing(register) + (if b then 0 else 1)
    decreases |register|
  {
    if register == [] {
      assert (register + [b])[1..] == [];
    } else if !register[0] {
      assert (register + [b])[1..] == register[1..] + [b];
      PassingMore(register[1..], b);
    }
  }

  /** How many commands the loop can take off the channel before it waits for the task. */
  function Takeable(s: State): nat {
    if s.loop.Waiting? then 0 else if s.writers > 0 then 1 else Passing(s.register) + 1
  }

  /** The commands there are and will be, less those the loop can take. */
  function Surplus(s: State): int
    requires s.task.Running?
  {
    |s.register| + s.task.left - Takeable(s)
  }

  /** Only somebody else's disconnect of one of the task's sessions lowers the surplus; the task and
      the loop leave it as it is. */
  lemma SurplusAfter(s: State, e: Event)
    requires s.task.Running? && Enabled(s, e) && !e.TaskEnd?
    ensures var r := Next(s, e);
            && r.task.Running?
            && Surplus(r) >= Surplus(s) - (if e.Overtake? then 1 else 0)
            && (Own(e) ==> Surplus(r) == Surplus(s))
  {
    match e
    case LoopTake =>
    case TaskPush => PassingMore(s.register, true);
    case OtherPush(b) => PassingMore(s.register, b);
    case OtherAsks =>
    case Overtake =>
  }

  function Overtakes(es: seq<Event>): nat {
    if es == [] then 0 else (if es[0].Overtake? then 1 else 0) + Overtakes(es[1..])
  }

  ghost predicate AllOwn(es: seq<Event>) {
    forall e :: e in es ==> Own(e)
  }

  lemma {:induction false} SurplusAlong(s: State, es: seq<Event>)
    requires s.task.Running? && |s.register| <= L.REGISTER_CAPACITY && Legal(s, es)
    ensures var r := Exec(s, es);
            if r.task.Running? then Surplus(r) >= Surplus(s) - Overtakes(es)
            else Surplus(s) - Overtakes(es) <= L.REGISTER_CAPACITY
    decreases |es|
  {
    if es != [] && !es[0].TaskEnd? {
      SurplusAfter(s, es[0]);
      SurplusAlong(Next(s, es[0]), es[1..]);
    } else if es != [] {
      NeverRunsAgain(Next(s, es[0]), es[1..]);
    }
  }

  lemma {:induction false} NeverRunsAgain(s: State, es: seq<Event>)
    requires s.task.Ended? && Legal(s, es)
    ensures Exec(s, es).task.Ended?
    decreases |es|
  {
    if es != [] {
      NeverRunsAgain(Next(s, es[0]), es[1..]);
    }
  }

  /** Whatever happens around them: the task ends only if others disconnect as many of its sessions as
      the surplus exceeds the channel by. */
  lemma EndsOnlyWhenOvertaken(s: State, es: seq<Event>)
    requires s.task.Running? && |s.register| <= L.REGISTER_CAPACITY && Legal(s, es)
    requires Exec(s, es).task.Ended?
    ensures Overtakes(es) >= Surplus(s) - L.REGISTER_CAPACITY
  {
    SurplusAlong(s, es);
  }

  // ----- The task and the loop alone -----

  /** Neither of them can go on. */
  predicate Halted(s: State) {
    !Enabled(s, LoopTake) && !Enabled(s, LoopLock) && !Enabled(s, TaskPush) && !Enabled(s, TaskEnd)
  }

  /** The channel is full, the loop waits for the task and the task for the loop. */
  predicate Deadlocked(s: State) {
    |s.register| == L.REGISTER_CAPACITY && s.loop.Waiting? && s.task.Running? && s.task.left > 0
  }

  lemma {:induction false} OwnRun(s: State, es: seq<Event>)
    requires s.task.Running? && |s.register| <= L.REGISTER_CAPACITY && Legal(s, es) && AllOwn(es)
    ensures var r := Exec(s, es);
            && |r.register| <= L.REGISTER_CAPACITY
            && if r.task.Running? then Surplus(r) == Surplus(s) else Surplus(s) <= L.REGISTER_CAPACITY
    decreases |es|
  {
    if es != [] {
      assert es[0] in es;
      if es[0].TaskEnd? {
        NeverRunsAgain(Next(s, es[0]), es[1..]);
        NeverFuller(Next(s, es[0]), es[1..]);
      } else {
        SurplusAfter(s, es[0]);
        OwnRun(Next(s, es[0]), es[1..]);
      }
    }
  }

  lemma {:induction false} NeverFuller(s: State, es: seq<Event>)
    requires |s.register| <= L.REGISTER_CAPACITY && Legal(s, es)
    ensures |Exec(s, es).register| <= L.REGISTER_CAPACITY
    decreases |es|
  {
    if es != [] {
      NeverFuller(Next(s, es[0]), es[1..]);
    }
  }

  /** Left to themselves until neither can go on, they come through with the channel empty if and only
      if the surplus fits it, and deadlock otherwise. */
  lemma ComesThroughIff(s: State, es: seq<Event>)
    requires s.task.Running? && |s.register| <= L.REGISTER_CAPACITY && Legal(s, es) && AllOwn(es)
    requires Halted(Exec(s, es))
    ensures var r := Exec(s, es);
            && (r.task.Ended? <==> Surplus(s) <= L.REGISTER_CAPACITY)
            && (r.task.Ended? ==> r.register == [] && r.loop.Idle?)
            && (r.task.Running? ==> Deadlocked(r))
  {
    OwnRun(s, es);
  }

  /** They always get that far: a bound on the steps they have left. */
  function Measure(s: State): nat {
    2 * |s.register| + (if s.loop.Waiting? then 1 else 0) + (if s.task.Running? then 3 * s.task.left + 1 else 0)
  }

  lemma OwnStepDecreases(s: State, e: Event)
    requires Own(e) && Enabled(s, e)
    ensures Measure(Next(s, e)) < Measure(s)
  {}

  lemma {:induction false} RunsToHalt(s: State) returns (es: seq<Event>)
    ensures Legal(s, es) && AllOwn(es) && Halted(Exec(s, es)) && |es| <= Measure(s)
    decreases Measure(s)
  {
    if Halted(s) {
      es := [];
    } else {
      var e := if Enabled(s, LoopTake) then LoopTake
               else if Enabled(s, LoopLock) then LoopLock
               else if Enabled(s, TaskPush) then TaskPush
               else TaskEnd;
      OwnStepDecreases(s, e);
      var rest := RunsToHalt(Next(s, e));
      es := [e] + rest;
      assert es[1..] == rest;
    }
  }

  function Repeated(r: nat): seq<bool> {
    if r == 0 then [] else [true] + Repeated(r - 1)
  }

  lemma {:induction false} RepeatedLength(r: nat)
    ensures |Repeated(r)| == r
    decreases r
  {
    if r > 0 { RepeatedLength(r - 1); }
  }

  /** With `r` removals of registered sessions in the channel, `n` connected sessions under the
      identifier and the loop's hands empty, they come through if and only if r + n is at most the
      capacity and one more, for the command in the loop's hands. */
  lemma CapacityAndOne(r: nat, n: nat, writers: nat) returns (es: seq<Event>)
    requires r <= L.REGISTER_CAPACITY
    ensures var s := State(Repeated(r), Idle, Running(n), writers);
            && Legal(s, es) && AllOwn(es) && Halted(Exec(s, es))
            && (Exec(s, es).task.Ended? <==> r + n <= 2049)
            && (r + n > 2049 ==> Deadlocked(Exec(s, es)))
  {
    var s := State(Repeated(r), Idle, Running(n), writers);
    RepeatedLength(r);
    es := RunsToHalt(s);
    ComesThroughIff(s, es);
  }
}
