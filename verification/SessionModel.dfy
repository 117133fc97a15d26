/** One session under concurrency. The reader, the writer, the ping timer, pool workers and
    shutdown all run the session's operations; the regions they execute under the session's
    mutex are the atomic actions here, an operation is a sequence of actions, and a thread is
    what is left of one. Any interleaving of threads is a run.

    Authenticate sets `Connected`; the registration with the hub that follows it is in `Registration`.
  */
module SessionModel {
  import opened Basics

  const SEND_CAPACITY := 256
  const CLOSE_ABNORMAL := 1006

  /** The session's fields, the channel behind `sendCh`, and histories: the frames the channel
      accepted, how often the hub removal and the disconnect queue were called, and whether any
      disconnect has tested the connection. */
  datatype Core = Core(
    authenticated: bool,
    connected: bool,
    closed: bool,
    sendChSet: bool,
    chanClosed: bool,
    buffer: seq<Frame>,
    accepted: seq<Frame>,
    removals: nat,
    enqueues: nat,
    tested: bool,
    panicked: bool)

  const FRESH := Core(false, false, false, true, false, [], [], 0, 0, false, false)

  datatype Action =
    | TestConnected
    | HubRemove
    | Enqueue
    | SendFrame(frame: Frame)
    | WriteClose
    | CloseChannel
    | MarkClosed
    | PingCheck(taken: bool)
    | PingWrite(taken: bool)

  function Disconnect(reason: string, code: int): seq<Action> {
    [TestConnected, SendFrame(Close(code, reason)), MarkClosed]
  }

  function DisconnectNow(): seq<Action> {
    [TestConnected, WriteClose, CloseChannel, MarkClosed]
  }

  /** One action: the new fields and the actions that must run before the thread goes on.
      A ping's `taken` says whether its connection will take it. Sending on or closing a closed
      channel panics. */
  function Act(c: Core, a: Action): (Core, seq<Action>) {
    match a
    case TestConnected => (c.(connected := false, tested := true), if c.connected then [HubRemove, Enqueue] else [])
    case HubRemove => (c.(removals := c.removals + 1), [])
    case Enqueue => (c.(enqueues := c.enqueues + 1), [])
    case SendFrame(f) =>
      if !c.sendChSet then (c, [])
      else if c.chanClosed then (c.(panicked := true), [])
      else if |c.buffer| < SEND_CAPACITY then (c.(buffer := c.buffer + [f], accepted := c.accepted + [f]), [])
      else (c.(sendChSet := false, chanClosed := true), Disconnect("Write failed", CLOSE_ABNORMAL))
    case WriteClose => (c, [])
    case CloseChannel =>
      if !c.sendChSet then (c, [])
      else if c.chanClosed then (c.(panicked := true), [])
      else (c.(sendChSet := false, chanClosed := true), [])
    case MarkClosed => (c.(closed := true), [])
    case PingCheck(taken) => (c, if c.closed then [] else [PingWrite(taken)])
    case PingWrite(taken) => (c, if taken then [] else Disconnect("Ping failed", CLOSE_ABNORMAL))
  }

  // ----- Threads -----

  datatype Tid = Worker(n: nat) | WriterExit

  datatype Writer =
    | NotStarted
    | Stuck              // ranges over a nil channel
    | Ready
    | Holding(frame: Frame)
    | Done(drained: bool)

  datatype Session = Session(core: Core, threads: map<Tid, seq<Action>>, writer: Writer, written: seq<Frame>)

  const NEW := Session(FRESH, map[], NotStarted, [])

  datatype Event =
    | Authenticate
    | Spawn(n: nat, ops: seq<Action>)
    | Step(tid: Tid)
    | WriterStart
    | WriterTake
    | WriterWrite(taken: bool)
    | WriterEnd

  /** Any sequence of the session's own operations; the two calls into the node happen only
      through TestConnected. */
  predicate Plain(ops: seq<Action>) {
    HubRemove !in ops && Enqueue !in ops
  }

  /** The channel is closed from outside only after a test of the connection. */
  predicate Guarded(ops: seq<Action>) {
    ops == [] || ops[0] == TestConnected || (ops[0] != CloseChannel && Guarded(ops[1..]))
  }

  predicate Enabled(s: Session, e: Event) {
    match e
    case Authenticate => !s.core.authenticated
    case Spawn(n, ops) => Worker(n) !in s.threads && Plain(ops) && Guarded(ops)
    case Step(tid) => tid in s.threads && s.threads[tid] != []
    case WriterStart => s.writer.NotStarted?
    case WriterTake => s.writer.Ready? && s.core.buffer != []
    case WriterWrite(_) => s.writer.Holding?
    case WriterEnd => s.writer.Ready? && s.core.buffer == [] && s.core.chanClosed
  }

  predicate IsData(f: Frame) {
    f.Text? || f.Binary?
  }

  function Next(s: Session, e: Event): Session
    requires Enabled(s, e)
  {
    match e
    case Authenticate => s.(core := s.core.(authenticated := true, connected := true))
    case Spawn(n, ops) => s.(threads := s.threads[Worker(n) := ops])
    case Step(tid) =>
      var (c, before) := Act(s.core, s.threads[tid][0]);
      s.(core := c, threads := s.threads[tid := before + s.threads[tid][1..]])
    case WriterStart => s.(writer := if s.core.sendChSet then Ready else Stuck)
    case WriterTake =>
      s.(writer := Holding(s.core.buffer[0]), core := s.core.(buffer := s.core.buffer[1..]))
    case WriterWrite(taken) =>
      var w := s.(written := s.written + [s.writer.frame]);
      if taken && IsData(s.writer.frame) then w.(writer := Ready) else Leave(w, false)
    case WriterEnd => Leave(s, true)
  }

  /** The writer's deferred disconnect. */
  function Leave(s: Session, drained: bool): Session {
    s.(writer := Done(drained), threads := s.threads[WriterExit := DisconnectNow()])
  }

  predicate Legal(s: Session, es: seq<Event>)
    decreases |es|
  {
    es != [] ==> Enabled(s, es[0]) && Legal(Next(s, es[0]), es[1..])
  }

  function Exec(s: Session, es: seq<Event>): Session
    requires Legal(s, es)
    decreases |es|
  {
    if es == [] then s else Exec(Next(s, es[0]), es[1..])
  }

  // ----- Channel safety -----

  /** The field is nil exactly when the channel is closed. */
  predicate ChannelSafe(c: Core) {
    && !c.panicked
    && c.sendChSet == !c.chanClosed
    && |c.buffer| <= SEND_CAPACITY
  }

  lemma ActKeepsChannelSafe(c: Core, a: Action)
    requires ChannelSafe(c)
    ensures ChannelSafe(Act(c, a).0)
  {}

  // ----- Writer order -----

  function Held(s: Session): seq<Frame> {
    if s.writer.Holding? then [s.writer.frame] else []
  }

  ghost predicate AllData(l: seq<Frame>) {
    forall f :: f in l ==> IsData(f)
  }

  /** Written, held and waiting frames make up the accepted ones, in order; only the last frame
      written can be other than data, and then the writer has left. A writer that left because
      the channel ran dry has written everything. */
  ghost predicate InOrder(s: Session) {
    && s.core.accepted == s.written + Held(s) + s.core.buffer
    && (s.written != [] ==> AllData(s.written[..|s.written| - 1]))
    && (!s.writer.Done? || s.writer.drained ==> AllData(s.written))
    && (s.writer.NotStarted? || s.writer.Stuck? ==> s.written == [])
    && (s.writer.Done? && s.writer.drained ==> s.core.buffer == [] && !s.core.sendChSet)
    && (s.writer.Done? && !s.writer.drained ==> s.written != [])
    && (s.writer.Done? <==> WriterExit in s.threads)
  }

  // ----- One disconnect -----

  predicate Holds(s: Session, t: Tid, a: Action) {
    t in s.threads && s.threads[t] != [] && s.threads[t][0] == a
  }

  function Due(s: Session, a: Action): set<Tid> {
    set t | t in s.threads && Holds(s, t, a)
  }

  /** The two calls into the node come first in a thread, the removal before the queue. */
  predicate WellFormed(ops: seq<Action>) {
    || Plain(ops)
    || (ops != [] && ops[0] == Enqueue && Plain(ops[1..]))
    || (|ops| >= 2 && ops[0] == HubRemove && ops[1] == Enqueue && Plain(ops[2..]))
  }

  function Owed(c: Core): nat {
    if c.authenticated && !c.connected then 1 else 0
  }

  /** What a disconnected session owes the node is either done or in the hands of one thread. */
  ghost predicate Accounted(s: Session) {
    && (forall t :: t in s.threads ==> WellFormed(s.threads[t]))
    && (s.core.connected ==> s.core.authenticated)
    && s.core.removals + |Due(s, HubRemove)| == Owed(s.core)
    && s.core.enqueues + |Due(s, Enqueue)| + |Due(s, HubRemove)| == Owed(s.core)
  }

  ghost predicate Inv(s: Session) {
    ChannelSafe(s.core) && InOrder(s) && Accounted(s)
  }

  // ----- Every step keeps them -----

  /** How the set of threads about to run `a` changes with one thread. */
  lemma DueUpdate(s: Session, r: Session, t: Tid, ops: seq<Action>, a: Action)
    requires r.threads == s.threads[t := ops]
    ensures Due(r, a) == if ops != [] && ops[0] == a then Due(s, a) + {t} else Due(s, a) - {t}
  {
    forall x ensures x in Due(r, a) <==> x in (if ops != [] && ops[0] == a then Due(s, a) + {t} else Due(s, a) - {t}) {
      assert x != t ==> (Holds(r, x, a) <==> Holds(s, x, a));
    }
  }

  lemma PlainTail(a: seq<Action>, b: seq<Action>)
    requires Plain(a) && Plain(b)
    ensures Plain(a + b)
    ensures a != [] ==> Plain(a[1..])
  {}

  predicate Heads(ops: seq<Action>, a: Action) {
    ops != [] && ops[0] == a
  }

  /** What is left of a thread after one action: the removal comes up only when a connected
      session was found, the queue only right after the removal. */
  lemma Remainder(c: Core, ops: seq<Action>)
    requires WellFormed(ops) && ops != []
    ensures var left := Act(c, ops[0]).1 + ops[1..];
            && WellFormed(left)
            && (Heads(left, HubRemove) <==> ops[0] == TestConnected && c.connected)
            && (Heads(left, Enqueue) <==> ops[0] == HubRemove)
  {
    var before := Act(c, ops[0]).1;
    var left := before + ops[1..];
    if ops[0] == HubRemove {
      assert left == ops[1..] && left[1..] == ops[2..];
    } else if ops[0] == Enqueue {
      assert left == ops[1..];
      assert left != [] ==> left[0] in ops[1..];
    } else {
      PlainTail(ops, []);
      if ops[0] == TestConnected && c.connected {
        assert left[2..] == ops[1..];
      } else {
        PlainTail(before, ops[1..]);
        assert left != [] ==> left[0] in left;
      }
    }
  }

  lemma StepKeepsAccounted(s: Session, tid: Tid)
    requires Accounted(s) && Enabled(s, Step(tid))
    ensures Accounted(Next(s, Step(tid)))
  {
    var r := Next(s, Step(tid));
    var ops := s.threads[tid];
    Remainder(s.core, ops);
    var left := Act(s.core, ops[0]).1 + ops[1..];
    DueUpdate(s, r, tid, left, HubRemove);
    DueUpdate(s, r, tid, left, Enqueue);
    assert tid in Due(s, HubRemove) <==> ops[0] == HubRemove;
    assert tid in Due(s, Enqueue) <==> ops[0] == Enqueue;
    StepCounts(s.core, ops[0]);
  }

  lemma StepCounts(c: Core, a: Action)
    ensures var d := Act(c, a).0;
            && d.authenticated == c.authenticated
            && d.connected == (c.connected && !a.TestConnected?)
            && d.removals == c.removals + (if a.HubRemove? then 1 else 0)
            && d.enqueues == c.enqueues + (if a.Enqueue? then 1 else 0)
  {
    match a
    case TestConnected =>
    case HubRemove =>
    case Enqueue =>
    case SendFrame(f) =>
    case _ =>
  }

  /** Enqueue calls of a session come from its threads' enqueue actions alone. */
  lemma EnqueuesAfter(s: Session, e: Event)
    requires Enabled(s, e)
    ensures Next(s, e).core.enqueues == s.core.enqueues + (if e.Step? && Holds(s, e.tid, Enqueue) then 1 else 0)
  {
    if e.Step? {
      StepCounts(s.core, s.threads[e.tid][0]);
    }
  }

  lemma SpawnKeepsAccounted(s: Session, r: Session, t: Tid, ops: seq<Action>)
    requires Accounted(s) && r.threads == s.threads[t := ops] && r.core == s.core
    requires Plain(ops) && t !in s.threads
    ensures Accounted(r)
  {
    DueUpdate(s, r, t, ops, HubRemove);
    DueUpdate(s, r, t, ops, Enqueue);
    assert ops != [] ==> ops[0] in ops;
  }

  lemma SameThreads(s: Session, r: Session)
    requires r.threads == s.threads
    ensures Due(r, HubRemove) == Due(s, HubRemove) && Due(r, Enqueue) == Due(s, Enqueue)
  {
    forall t, a ensures Holds(r, t, a) <==> Holds(s, t, a) {}
  }

  lemma NextKeepsAccounted(s: Session, e: Event)
    requires Inv(s) && Enabled(s, e)
    ensures Accounted(Next(s, e))
  {
    var r := Next(s, e);
    match e
    case Authenticate => SameThreads(s, r);
    case Spawn(n, ops) => SpawnKeepsAccounted(s, r, Worker(n), ops);
    case Step(tid) => StepKeepsAccounted(s, tid);
    case WriterStart => SameThreads(s, r);
    case WriterTake => SameThreads(s, r);
    case WriterWrite(taken) =>
      if r.writer.Done? {
        SpawnKeepsAccounted(s, r, WriterExit, DisconnectNow());
      } else {
        SameThreads(s, r);
      }
    case WriterEnd => SpawnKeepsAccounted(s, r, WriterExit, DisconnectNow());
  }

  lemma ActOnChannel(c: Core, a: Action)
    ensures var d := Act(c, a).0;
            || (d.buffer == c.buffer && d.accepted == c.accepted && (!c.sendChSet ==> !d.sendChSet))
            || (c.sendChSet && d.sendChSet && exists f :: d.buffer == c.buffer + [f] && d.accepted == c.accepted + [f])
  {
    if a.SendFrame? && c.sendChSet && !c.chanClosed && |c.buffer| < SEND_CAPACITY {
      assert Act(c, a).0.buffer == c.buffer + [a.frame];
    }
  }

  lemma StepKeepsInOrder(s: Session, tid: Tid)
    requires InOrder(s) && Enabled(s, Step(tid))
    ensures InOrder(Next(s, Step(tid)))
  {
    var d := Act(s.core, s.threads[tid][0]).0;
    ActOnChannel(s.core, s.threads[tid][0]);
    if d.accepted != s.core.accepted {
      var f :| d.buffer == s.core.buffer + [f] && d.accepted == s.core.accepted + [f];
      assert s.written + Held(s) + s.core.buffer + [f] == s.written + Held(s) + (s.core.buffer + [f]);
    }
  }

  lemma TakeKeepsInOrder(s: Session)
    requires InOrder(s) && Enabled(s, WriterTake)
    ensures InOrder(Next(s, WriterTake))
  {
    var f, rest := s.core.buffer[0], s.core.buffer[1..];
    assert s.core.buffer == [f] + rest;
    assert s.written + [] + ([f] + rest) == s.written + [f] + rest;
  }

  lemma WriteOrder(written: seq<Frame>, f: Frame, buffer: seq<Frame>)
    ensures written + [f] + buffer == (written + [f]) + [] + buffer
    ensures (written + [f])[..|written + [f]| - 1] == written
    ensures AllData(written) && IsData(f) ==> AllData(written + [f])
  {}

  lemma WriteKeepsInOrder(s: Session, taken: bool)
    requires InOrder(s) && Enabled(s, WriterWrite(taken))
    ensures InOrder(Next(s, WriterWrite(taken)))
  {
    var r := Next(s, WriterWrite(taken));
    var f := s.writer.frame;
    WriteOrder(s.written, f, s.core.buffer);
    assert r.written == s.written + [f] && Held(r) == [] && Held(s) == [f];
    assert AllData(s.written);
    if taken && IsData(f) {
      assert r == s.(written := s.written + [f], writer := Ready);
    } else {
      assert r == Leave(s.(written := s.written + [f]), false);
    }
  }

  lemma NextKeepsInOrder(s: Session, e: Event)
    requires Inv(s) && Enabled(s, e)
    ensures InOrder(Next(s, e))
  {
    match e
    case Authenticate =>
    case Spawn(n, ops) =>
    case Step(tid) => StepKeepsInOrder(s, tid);
    case WriterStart =>
    case WriterTake => TakeKeepsInOrder(s);
    case WriterWrite(taken) => WriteKeepsInOrder(s, taken);
    case WriterEnd =>
  }

  lemma NextKeepsInv(s: Session, e: Event)
    requires Inv(s) && Enabled(s, e)
    ensures Inv(Next(s, e))
  {
    NextKeepsAccounted(s, e);
    NextKeepsInOrder(s, e);
    if e.Step? {
      ActKeepsChannelSafe(s.core, s.threads[e.tid][0]);
    }
  }

  lemma {:induction false} ExecKeepsInv(s: Session, es: seq<Event>)
    requires Inv(s) && Legal(s, es)
    ensures Inv(Exec(s, es))
    decreases |es|
  {
    if es != [] {
      NextKeepsInv(s, es[0]);
      ExecKeepsInv(Next(s, es[0]), es[1..]);
    }
  }

  lemma NewInv()
    ensures Inv(NEW)
  {
    assert Due(NEW, HubRemove) == {} && Due(NEW, Enqueue) == {};
  }

  // ----- What that means -----

  /** In every interleaving nothing is sent on or closes a closed channel, and the frames the
      writer hands over are, in order, the first ones accepted, with nothing after a close. */
  lemma ChannelAndOrder(es: seq<Event>)
    requires Legal(NEW, es)
    ensures var s := Exec(NEW, es);
            && ChannelSafe(s.core)
            && s.written <= s.core.accepted
            && (forall i :: 0 <= i < |s.written| - 1 ==> IsData(s.written[i]))
            && (s.writer.Done? && s.writer.drained ==> s.written == s.core.accepted)
            && (s.writer.Done? && !s.writer.drained ==> s.written != [])
  {
    NewInv();
    ExecKeepsInv(NEW, es);
    var s := Exec(NEW, es);
    forall i | 0 <= i < |s.written| - 1 ensures IsData(s.written[i]) {
      assert s.written[i] in s.written[..|s.written| - 1];
    }
  }

  /** In every interleaving nothing is written after a close frame or a frame of unknown type, and
      only a frame of these or a failed write makes the writer leave. */
  lemma NothingAfterClose(es: seq<Event>)
    requires Legal(NEW, es)
    ensures var s := Exec(NEW, es);
            && (forall i :: 0 <= i < |s.written| && (s.written[i].Close? || s.written[i].Unknown?) ==>
                              i == |s.written| - 1 && s.writer.Done?)
            && (forall taken :: Enabled(s, WriterWrite(taken)) ==>
                  (Next(s, WriterWrite(taken)).writer.Ready? <==>
                   taken && (s.writer.frame.Text? || s.writer.frame.Binary?)))
  {
    NewInv();
    ExecKeepsInv(NEW, es);
    ChannelAndOrder(es);
    var s := Exec(NEW, es);
    forall i | 0 <= i < |s.written| && (s.written[i].Close? || s.written[i].Unknown?)
      ensures i == |s.written| - 1 && s.writer.Done?
    {
      assert s.written[i] in s.written && !IsData(s.written[i]);
    }
  }

  predicate AllThreadsDone(s: Session) {
    forall t :: t in s.threads ==> s.threads[t] == []
  }

  /** In every interleaving a session is removed from the hub and enqueued at most once, never
      when it was not authenticated, and exactly once when it is disconnected and its threads are through. */
  lemma DisconnectsAtMostOnce(es: seq<Event>)
    requires Legal(NEW, es)
    ensures var c := Exec(NEW, es).core;
            && c.enqueues <= c.removals <= 1
            && (!c.authenticated || c.connected ==> c.removals == 0)
            && (AllThreadsDone(Exec(NEW, es)) && c.authenticated && !c.connected ==> c.removals == c.enqueues == 1)
  {
    NewInv();
    ExecKeepsInv(NEW, es);
    var s := Exec(NEW, es);
    if AllThreadsDone(s) {
      assert Due(s, HubRemove) == {} && Due(s, Enqueue) == {};
    }
  }

  lemma {:induction false} StaysDisconnected(s: Session, es: seq<Event>)
    requires s.core.authenticated && !s.core.connected && Legal(s, es)
    ensures Exec(s, es).core.authenticated && !Exec(s, es).core.connected
    decreases |es|
  {
    if es != [] {
      if es[0].Step? {
        StepCounts(s.core, s.threads[es[0].tid][0]);
      }
      StaysDisconnected(Next(s, es[0]), es[1..]);
    }
  }

  /** Once any disconnect of an authenticated session has begun, then, whatever the others do,
      as soon as all threads are through there was exactly one removal and one enqueue. */
  lemma AnyDisconnectDisconnectsOnce(before: seq<Event>, tid: Tid, after: seq<Event>)
    requires Legal(NEW, before)
    requires Exec(NEW, before).core.authenticated && Holds(Exec(NEW, before), tid, TestConnected)
    requires Legal(Next(Exec(NEW, before), Step(tid)), after)
    requires AllThreadsDone(Exec(Next(Exec(NEW, before), Step(tid)), after))
    ensures var c := Exec(Next(Exec(NEW, before), Step(tid)), after).core;
            c.removals == 1 && c.enqueues == 1
  {
    NewInv();
    ExecKeepsInv(NEW, before);
    var s := Next(Exec(NEW, before), Step(tid));
    NextKeepsInv(Exec(NEW, before), Step(tid));
    ExecKeepsInv(s, after);
    StaysDisconnected(s, after);
    var r := Exec(s, after);
    assert Due(r, HubRemove) == {} && Due(r, Enqueue) == {};
  }

  predicate TestsNow(s: Session, e: Event) {
    e.Step? && Holds(s, e.tid, TestConnected) && s.core.authenticated
  }

  /** Some step of the run tests the connection of an authenticated session. */
  predicate TestsAuthenticated(s: Session, es: seq<Event>)
    requires Legal(s, es)
    decreases |es|
  {
    es != [] && (TestsNow(s, es[0]) || TestsAuthenticated(Next(s, es[0]), es[1..]))
  }

  lemma OwedAfter(s: Session, e: Event)
    requires Enabled(s, e) && (s.core.connected ==> s.core.authenticated)
    ensures Next(s, e).core.connected ==> Next(s, e).core.authenticated
    ensures Owed(Next(s, e).core) == 1 <==> Owed(s.core) == 1 || TestsNow(s, e)
  {
    if e.Step? {
      StepCounts(s.core, s.threads[e.tid][0]);
    }
  }

  lemma {:induction false} DisconnectedByTest(s: Session, es: seq<Event>)
    requires Legal(s, es) && (s.core.connected ==> s.core.authenticated)
    ensures Owed(Exec(s, es).core) == 1 <==> Owed(s.core) == 1 || TestsAuthenticated(s, es)
    decreases |es|
  {
    if es != [] {
      OwedAfter(s, es[0]);
      DisconnectedByTest(Next(s, es[0]), es[1..]);
    }
  }

  /** In every interleaving, once all threads are through: the node was told to disconnect the session
      exactly once if some thread tested the connection while authenticated, and not at all otherwise. */
  lemma DisconnectsOnceIff(es: seq<Event>)
    requires Legal(NEW, es) && AllThreadsDone(Exec(NEW, es))
    ensures var c := Exec(NEW, es).core;
            && (c.removals == c.enqueues == 1 <==> TestsAuthenticated(NEW, es))
            && (c.removals == c.enqueues == 0 <==> !TestsAuthenticated(NEW, es))
  {
    NewInv();
    ExecKeepsInv(NEW, es);
    DisconnectedByTest(NEW, es);
    var s := Exec(NEW, es);
    assert Due(s, HubRemove) == {} && Due(s, Enqueue) == {};
  }

  // ----- Frames are refused only when a disconnect is on its way -----

  /** A nil channel means that a disconnect has tested the connection, or that some thread will
      do so with its next action. */
  ghost predicate Attentive(s: Session) {
    && (s.core.tested || forall t :: t in s.threads ==> Guarded(s.threads[t]))
    && (s.core.sendChSet || s.core.tested || exists t :: Holds(s, t, TestConnected))
  }

  lemma GuardedTail(ops: seq<Action>, before: seq<Action>)
    requires Guarded(ops) && ops != [] && ops[0] != TestConnected
    requires before == [] || (|before| == 1 && before[0].PingWrite?) || before[0] == TestConnected
    ensures ops[0] != CloseChannel && Guarded(before + ops[1..])
  {
    if before == [] {
      assert before + ops[1..] == ops[1..];
    } else if before[0].PingWrite? {
      assert (before + ops[1..])[1..] == ops[1..];
    }
  }

  /** When an action tests the connection, and how it can leave the channel nil. */
  lemma ActShape(c: Core, a: Action)
    ensures var (d, before) := Act(c, a);
            && d.tested == (c.tested || a.TestConnected?)
            && (!a.TestConnected? ==>
                  before == [] || (|before| == 1 && before[0].PingWrite?) || Heads(before, TestConnected))
            && (c.sendChSet && !d.sendChSet ==> a.CloseChannel? || Heads(before, TestConnected))
            && (d.sendChSet ==> c.sendChSet)
  {
    match a
    case TestConnected =>
    case SendFrame(_) =>
    case CloseChannel =>
    case PingCheck(_) =>
    case PingWrite(_) =>
    case _ =>
  }

  lemma StepKeepsAttentive(s: Session, tid: Tid)
    requires Attentive(s) && Enabled(s, Step(tid))
    ensures Attentive(Next(s, Step(tid)))
  {
    var ops := s.threads[tid];
    var (c, before) := Act(s.core, ops[0]);
    ActShape(s.core, ops[0]);
    if !c.tested {
      GuardedTail(ops, before);
      AttentiveAfter(s, Next(s, Step(tid)), tid, before);
    }
  }

  lemma AttentiveAfter(s: Session, r: Session, tid: Tid, before: seq<Action>)
    requires Attentive(s) && !s.core.tested
    requires tid in s.threads && s.threads[tid] != [] && s.threads[tid][0] != TestConnected
    requires r.threads == s.threads[tid := before + s.threads[tid][1..]]
    requires Guarded(r.threads[tid])
    requires s.core.sendChSet && !r.core.sendChSet ==> Heads(before, TestConnected)
    requires r.core.sendChSet ==> s.core.sendChSet
    ensures Attentive(r)
  {
    if !r.core.sendChSet {
      if s.core.sendChSet {
        assert Holds(r, tid, TestConnected);
      } else {
        var t :| Holds(s, t, TestConnected);
        assert Holds(r, t, TestConnected);
      }
    }
  }

  lemma {:induction false} ExecKeepsAttentive(s: Session, es: seq<Event>)
    requires Attentive(s) && Legal(s, es)
    ensures Attentive(Exec(s, es))
    decreases |es|
  {
    if es != [] {
      var r := Next(s, es[0]);
      if es[0].Step? {
        StepKeepsAttentive(s, es[0].tid);
      } else if !s.core.sendChSet && !s.core.tested {
        var t :| Holds(s, t, TestConnected);
        assert Holds(r, t, TestConnected);
      }
      ExecKeepsAttentive(r, es[1..]);
    }
  }

  /** In every interleaving a frame that sendFrame does not accept meets a session that a
      disconnect has already tested, or whose test is some thread's next action afterwards. */
  lemma RefusedOnlyWhenDisconnecting(es: seq<Event>, tid: Tid)
    requires Legal(NEW, es) && Enabled(Exec(NEW, es), Step(tid))
    requires Exec(NEW, es).threads[tid][0].SendFrame?
    ensures var s := Exec(NEW, es);
            var r := Next(s, Step(tid));
            || r.core.accepted == s.core.accepted + [s.threads[tid][0].frame]
            || r.core.tested
            || exists t :: Holds(r, t, TestConnected)
  {
    var s := Exec(NEW, es);
    ExecKeepsAttentive(NEW, es);
    NewInv();
    ExecKeepsInv(NEW, es);
    StepKeepsAttentive(s, tid);
    AcceptedOrNil(s.core, s.threads[tid][0].frame);
  }

  lemma AcceptedOrNil(c: Core, f: Frame)
    requires ChannelSafe(c)
    ensures var d := Act(c, SendFrame(f)).0;
            d.accepted == c.accepted + [f] || !d.sendChSet
  {}

  // ----- Termination -----

  /** An upper bound on the actions an action can still cause, itself included. */
  function Weight(a: Action, open: bool): nat {
    match a
    case TestConnected => 3
    case SendFrame(_) => if open then 6 else 1
    case PingCheck(_) => if open then 12 else 7
    case PingWrite(_) => if open then 11 else 6
    case _ => 1
  }

  function Cost(ops: seq<Action>, open: bool): nat {
    if ops == [] then 0 else Weight(ops[0], open) + Cost(ops[1..], open)
  }

  lemma {:induction false} CostAppend(a: seq<Action>, b: seq<Action>, open: bool)
    ensures Cost(a + b, open) == Cost(a, open) + Cost(b, open)
    decreases |a|
  {
    if a == [] {
      assert a + b == b;
    } else {
      assert (a + b)[1..] == a[1..] + b;
      CostAppend(a[1..], b, open);
    }
  }

  lemma {:induction false} CostFalls(ops: seq<Action>)
    ensures Cost(ops, false) <= Cost(ops, true)
    decreases |ops|
  {
    if ops != [] {
      CostFalls(ops[1..]);
    }
  }

  lemma CostCons(a: Action, rest: seq<Action>, open: bool)
    ensures Cost([a] + rest, open) == Weight(a, open) + Cost(rest, open)
  {
    assert ([a] + rest)[1..] == rest;
  }

  lemma CostOfDisconnect(reason: string, code: int, open: bool)
    ensures Cost(Disconnect(reason, code), open) == if open then 10 else 5
  {
    var close := SendFrame(Close(code, reason));
    CostCons(MarkClosed, [], open);
    CostCons(close, [MarkClosed], open);
    CostCons(TestConnected, [close, MarkClosed], open);
    assert Disconnect(reason, code) == [TestConnected] + [close, MarkClosed];
  }

  /** What an action puts in front of its thread weighs less than the action. */
  lemma CostOfBefore(c: Core, a: Action)
    ensures var (d, before) := Act(c, a);
            Cost(before, d.sendChSet) < Weight(a, c.sendChSet)
  {
    match a
    case TestConnected =>
      CostCons(Enqueue, [], c.sendChSet);
      CostCons(HubRemove, [Enqueue], c.sendChSet);
      assert [HubRemove] + [Enqueue] == [HubRemove, Enqueue];
    case SendFrame(_) => CostOfDisconnect("Write failed", CLOSE_ABNORMAL, false);
    case PingCheck(taken) => CostCons(PingWrite(taken), [], c.sendChSet);
    case PingWrite(_) => CostOfDisconnect("Ping failed", CLOSE_ABNORMAL, c.sendChSet);
    case _ =>
  }

  /** A thread's own step uses up some of its cost: the recursion from a full channel through
      Disconnect back into sendFrame ends because the channel is nil by then. */
  lemma ActDecreasesCost(c: Core, ops: seq<Action>)
    requires ops != []
    ensures var (d, before) := Act(c, ops[0]);
            Cost(before + ops[1..], d.sendChSet) < Cost(ops, c.sendChSet)
  {
    var (d, before) := Act(c, ops[0]);
    CostAppend(before, ops[1..], d.sendChSet);
    CostFalls(ops[1..]);
    CostOfBefore(c, ops[0]);
    ActOnChannel(c, ops[0]);
  }

  /** How often `tid` acts in a run. */
  function Turns(es: seq<Event>, tid: Tid): nat {
    if es == [] then 0
    else (if es[0].Step? && es[0].tid == tid then 1 else 0) + Turns(es[1..], tid)
  }

  lemma OthersKeepThread(s: Session, tid: Tid, e: Event)
    requires InOrder(s) && tid in s.threads && Enabled(s, e)
    requires !(e.Step? && e.tid == tid)
    ensures var r := Next(s, e);
            && tid in r.threads && r.threads[tid] == s.threads[tid]
            && (r.core.sendChSet ==> s.core.sendChSet)
  {
    if e.Step? {
      ActOnChannel(s.core, s.threads[e.tid][0]);
    }
  }

  /** Whatever the other threads do, a thread is through after at most its cost in turns: every
      sendFrame within 6, every Disconnect within 10, every ping within 12. */
  lemma {:induction false} ThreadTerminates(s: Session, tid: Tid, es: seq<Event>)
    requires tid in s.threads && Legal(s, es) && Inv(s)
    ensures tid in Exec(s, es).threads
    ensures Turns(es, tid) + Cost(Exec(s, es).threads[tid], Exec(s, es).core.sendChSet) <=
            Cost(s.threads[tid], s.core.sendChSet)
    decreases |es|
  {
    if es != [] {
      var r := Next(s, es[0]);
      NextKeepsInv(s, es[0]);
      if es[0].Step? && es[0].tid == tid {
        ActDecreasesCost(s.core, s.threads[tid]);
      } else {
        OthersKeepThread(s, tid, es[0]);
        CostFalls(s.threads[tid]);
      }
      ThreadTerminates(r, tid, es[1..]);
    }
  }

  // ----- One thread by itself -----

  /** A thread's actions run to the end without interference. */
  function RunAlone(c: Core, ops: seq<Action>): Core
    decreases Cost(ops, c.sendChSet)
  {
    if ops == [] then c
    else
      var (d, before) := Act(c, ops[0]);
      ActDecreasesCost(c, ops);
      RunAlone(d, before + ops[1..])
  }

  lemma {:induction false} RunAloneAppend(c: Core, a: seq<Action>, b: seq<Action>)
    ensures RunAlone(c, a + b) == RunAlone(RunAlone(c, a), b)
    decreases Cost(a, c.sendChSet)
  {
    if a == [] {
      assert a + b == b;
    } else {
      var (d, before) := Act(c, a[0]);
      ActDecreasesCost(c, a);
      assert before + (a + b)[1..] == (before + a[1..]) + b;
      RunAloneAppend(d, before + a[1..], b);
    }
  }

  predicate Tests(ops: seq<Action>) {
    TestConnected in ops
  }

  /** Run alone, an operation with a connection test disconnects, and passes on one removal and
      one enqueue exactly when the session was connected, overflow on the way or not. */
  lemma {:induction false} AloneDisconnectsOnce(c: Core, ops: seq<Action>)
    requires WellFormed(ops)
    ensures var d := RunAlone(c, ops);
            && (Tests(ops) || !c.connected ==> !d.connected)
            && d.removals + (if d.connected then 1 else 0) ==
               c.removals + (if c.connected then 1 else 0) + (if Heads(ops, HubRemove) then 1 else 0)
            && d.enqueues + (if d.connected then 1 else 0) ==
               c.enqueues + (if c.connected then 1 else 0) +
               (if Heads(ops, HubRemove) || Heads(ops, Enqueue) then 1 else 0)
    decreases Cost(ops, c.sendChSet)
  {
    if ops != [] {
      var (d, before) := Act(c, ops[0]);
      var left := before + ops[1..];
      ActDecreasesCost(c, ops);
      Remainder(c, ops);
      StepCounts(c, ops[0]);
      if Tests(ops) && ops[0] != TestConnected {
        assert TestConnected in ops[1..];
        assert Tests(left);
      }
      AloneDisconnectsOnce(d, left);
    }
  }

  // ----- The operations by themselves -----

  /** sendFrame: a frame is accepted at the end of the queue, or refused by a closed channel, or it
      finds the channel full, which closes it and disconnects the session. */
  lemma SendFrameAlone(c: Core, f: Frame)
    requires ChannelSafe(c)
    ensures RunAlone(c, [SendFrame(f)]) ==
            if !c.sendChSet then c
            else if |c.buffer| < 256 then c.(buffer := c.buffer + [f], accepted := c.accepted + [f])
            else Tested(c).(sendChSet := false, chanClosed := true, closed := true)
  {
    if c.sendChSet && |c.buffer| >= SEND_CAPACITY {
      var d := c.(sendChSet := false, chanClosed := true);
      var ops := Disconnect("Write failed", CLOSE_ABNORMAL);
      assert ops + [] == ops;
      ThreeAlone(d, ops);
      TestAlone(d);
    }
  }

  /** The session after a test of the connection: disconnected, the node told if it was connected. */
  function Tested(c: Core): Core {
    var n := if c.connected then 1 else 0;
    c.(connected := false, tested := true, removals := c.removals + n, enqueues := c.enqueues + n)
  }

  lemma TestAlone(c: Core)
    ensures RunAlone(c, [TestConnected]) == Tested(c)
  {
    if c.connected {
      var d := c.(connected := false, tested := true);
      assert [HubRemove, Enqueue] + [] == [HubRemove] + [Enqueue];
      RunAloneAppend(d, [HubRemove], [Enqueue]);
    }
  }

  lemma ThreeAlone(c: Core, ops: seq<Action>)
    requires |ops| == 3
    ensures RunAlone(c, ops) == RunAlone(RunAlone(RunAlone(c, [ops[0]]), [ops[1]]), [ops[2]])
  {
    assert ops == [ops[0]] + ([ops[1]] + [ops[2]]);
    RunAloneAppend(c, [ops[0]], [ops[1]] + [ops[2]]);
    RunAloneAppend(RunAlone(c, [ops[0]]), [ops[1]], [ops[2]]);
  }

  /** Disconnect: the node is told once, the close frame is the last one accepted if there is room
      on an open channel, a full channel is closed instead, and the session is marked closed. */
  lemma DisconnectAlone(c: Core, reason: string, code: int)
    requires ChannelSafe(c)
    ensures var d := RunAlone(c, Disconnect(reason, code));
            d == if c.sendChSet && |c.buffer| < 256
                 then Tested(c).(closed := true, buffer := c.buffer + [Close(code, reason)],
                                 accepted := c.accepted + [Close(code, reason)])
                 else Tested(c).(closed := true, sendChSet := false, chanClosed := true)
  {
    ThreeAlone(c, Disconnect(reason, code));
    TestAlone(c);
    SendFrameAlone(Tested(c), Close(code, reason));
    MarkAlone(RunAlone(Tested(c), [SendFrame(Close(code, reason))]));
  }

  lemma MarkAlone(c: Core)
    ensures RunAlone(c, [MarkClosed]) == c.(closed := true)
  {
    assert [] + [MarkClosed][1..] == [];
  }

  /** disconnectNow: the node is told once, the channel is closed with what it holds still in it. */
  lemma DisconnectNowAlone(c: Core)
    requires ChannelSafe(c)
    ensures RunAlone(c, DisconnectNow()) == Tested(c).(closed := true, sendChSet := false, chanClosed := true)
  {
    var t := Tested(c);
    var late := [CloseChannel] + [MarkClosed];
    assert DisconnectNow() == [TestConnected] + ([WriteClose] + late);
    RunAloneAppend(c, [TestConnected], [WriteClose] + late);
    RunAloneAppend(t, [WriteClose], late);
    RunAloneAppend(t, [CloseChannel], [MarkClosed]);
    TestAlone(c);
  }

  /** sendPing: nothing on a closed session or when the connection takes the ping, else Disconnect. */
  lemma PingAlone(c: Core, taken: bool)
    ensures RunAlone(c, [PingCheck(taken)]) ==
            if c.closed || taken then c else RunAlone(c, Disconnect("Ping failed", CLOSE_ABNORMAL))
  {
    if !c.closed {
      var write, d := [PingWrite(taken)], Disconnect("Ping failed", CLOSE_ABNORMAL);
      assert write + [PingCheck(taken)][1..] == write;
      assert RunAlone(c, [PingCheck(taken)]) == RunAlone(c, write);
      assert d + write[1..] == d && [] + write[1..] == [];
      assert RunAlone(c, write) == if taken then c else RunAlone(c, d);
    }
  }

  // ----- A writer that starts late -----

  lemma {:induction false} StuckStays(s: Session, es: seq<Event>)
    requires s.writer.Stuck? && Legal(s, es)
    ensures Exec(s, es).writer.Stuck? && Exec(s, es).written == s.written
    decreases |es|
  {
    if es != [] {
      StuckStays(Next(s, es[0]), es[1..]);
    }
  }

  lemma {:induction false} StartedStays(s: Session, es: seq<Event>)
    requires !s.writer.NotStarted? && !s.writer.Stuck? && Legal(s, es)
    ensures !Exec(s, es).writer.Stuck?
    decreases |es|
  {
    if es != [] {
      StartedStays(Next(s, es[0]), es[1..]);
    }
  }

  /** The writer reads the field once, when it starts: it waits forever if and only if the channel is
      gone by then, and in that case nothing of what was accepted is ever written. */
  lemma LateWriterStuckIff(before: seq<Event>, after: seq<Event>)
    requires Legal(NEW, before) && Enabled(Exec(NEW, before), WriterStart)
    requires Legal(Next(Exec(NEW, before), WriterStart), after)
    ensures var s := Exec(NEW, before);
            var r := Exec(Next(s, WriterStart), after);
            && (r.writer.Stuck? <==> !s.core.sendChSet)
            && (r.writer.Stuck? ==> r.written == [])
  {
    NewInv();
    ExecKeepsInv(NEW, before);
    var s := Exec(NEW, before);
    if s.core.sendChSet {
      StartedStays(Next(s, WriterStart), after);
    } else {
      StuckStays(Next(s, WriterStart), after);
    }
  }

  lemma ExecCons(s: Session, e: Event, es: seq<Event>)
    requires Enabled(s, e) && Legal(Next(s, e), es)
    ensures Legal(s, [e] + es) && Exec(s, [e] + es) == Exec(Next(s, e), es)
  {
    assert ([e] + es)[1..] == es;
  }

  /** A frame is accepted, disconnectNow closes the channel, and only then the writer starts. */
  const LOST_FRAME_CLOSING: seq<Event> :=
    [Spawn(1, DisconnectNow())] + ([Step(Worker(1))] + ([Step(Worker(1))] + ([Step(Worker(1))] + [WriterStart])))

  function LostFrameRun(f: Frame): seq<Event> {
    [Spawn(0, [SendFrame(f)])] + ([Step(Worker(0))] + LOST_FRAME_CLOSING)
  }

  function After(s: Session, n: nat, a: Action, rest: seq<Action>): Session {
    s.(core := Act(s.core, a).0, threads := s.threads[Worker(n) := rest])
  }

  /** A step that puts nothing in front of the rest of its thread, and what follows. */
  lemma StepThen(s: Session, n: nat, a: Action, rest: seq<Action>, es: seq<Event>)
    requires Worker(n) in s.threads && s.threads[Worker(n)] == [a] + rest && Act(s.core, a).1 == []
    requires Legal(After(s, n, a, rest), es)
    ensures Legal(s, [Step(Worker(n))] + es)
    ensures Exec(s, [Step(Worker(n))] + es) == Exec(After(s, n, a, rest), es)
  {
    assert [] + ([a] + rest)[1..] == rest;
    ExecCons(s, Step(Worker(n)), es);
  }

  /** A writer that starts right after the channel was closed. */
  lemma CloseThenStart(s: Session)
    requires s.core.sendChSet && !s.core.chanClosed && s.writer.NotStarted?
    requires Worker(1) in s.threads && s.threads[Worker(1)] == [CloseChannel, MarkClosed]
    ensures Legal(s, [Step(Worker(1))] + [WriterStart])
    ensures var r := Exec(s, [Step(Worker(1))] + [WriterStart]);
            r.core.accepted == s.core.accepted && r.writer.Stuck? && r.written == s.written
  {
    var t := After(s, 1, CloseChannel, [MarkClosed]);
    assert [WriterStart][1..] == [];
    assert Exec(t, [WriterStart]) == Next(t, WriterStart);
    StepThen(s, 1, CloseChannel, [MarkClosed], [WriterStart]);
  }

  /** disconnectNow up to there, in a session nobody authenticated. */
  lemma DisconnectThenStart(s: Session)
    requires !s.core.connected && s.core.sendChSet && !s.core.chanClosed
    requires Worker(1) !in s.threads && s.writer.NotStarted?
    ensures Legal(s, LOST_FRAME_CLOSING)
    ensures var r := Exec(s, LOST_FRAME_CLOSING);
            r.core.accepted == s.core.accepted && r.writer.Stuck? && r.written == s.written
  {
    var end := [Step(Worker(1))] + [WriterStart];
    var s1 := s.(threads := s.threads[Worker(1) := DisconnectNow()]);
    var s2 := After(s1, 1, TestConnected, [WriteClose, CloseChannel, MarkClosed]);
    var s3 := After(s2, 1, WriteClose, [CloseChannel, MarkClosed]);
    CloseThenStart(s3);
    StepThen(s2, 1, WriteClose, [CloseChannel, MarkClosed], end);
    StepThen(s1, 1, TestConnected, [WriteClose, CloseChannel, MarkClosed], [Step(Worker(1))] + end);
    ExecCons(s, Spawn(1, DisconnectNow()), [Step(Worker(1))] + ([Step(Worker(1))] + end));
  }

  /** In that run the frame was accepted, and in no continuation is it ever written. */
  lemma LostFrame(f: Frame)
    ensures Legal(NEW, LostFrameRun(f))
    ensures var r := Exec(NEW, LostFrameRun(f));
            && r.core.accepted == [f]
            && forall after :: Legal(r, after) ==> Exec(r, after).written == []
  {
    var s1 := Next(NEW, Spawn(0, [SendFrame(f)]));
    var s2 := Next(s1, Step(Worker(0)));
    assert s2.core.accepted == [f];
    DisconnectThenStart(s2);
    ExecCons(s1, Step(Worker(0)), LOST_FRAME_CLOSING);
    ExecCons(NEW, Spawn(0, [SendFrame(f)]), [Step(Worker(0))] + LOST_FRAME_CLOSING);
    var r := Exec(NEW, LostFrameRun(f));
    forall after | Legal(r, after) ensures Exec(r, after).written == [] {
      StuckStays(r, after);
    }
  }

  // ----- A channel that is closed with frames in it -----

  /** What a writer left to itself takes: everything up to and including the first frame that is
      not data. */
  function UpToClose(buffer: seq<Frame>): seq<Frame> {
    if buffer == [] then []
    else if IsData(buffer[0]) then [buffer[0]] + UpToClose(buffer[1..])
    else [buffer[0]]
  }

  function WriterRun(buffer: seq<Frame>): seq<Event> {
    if buffer == [] then [WriterEnd]
    else [WriterTake] + ([WriterWrite(true)] + if IsData(buffer[0]) then WriterRun(buffer[1..]) else [])
  }

  lemma {:induction false} ReadyWriterDrains(s: Session)
    requires s.writer.Ready? && s.core.chanClosed
    ensures Legal(s, WriterRun(s.core.buffer))
    ensures var r := Exec(s, WriterRun(s.core.buffer));
            r.writer.Done? && r.written == s.written + UpToClose(s.core.buffer)
    decreases |s.core.buffer|
  {
    var b := s.core.buffer;
    if b == [] {
      ExecCons(s, WriterEnd, []);
      assert [WriterEnd] + [] == [WriterEnd];
    } else {
      var s1 := Next(s, WriterTake);
      var s2 := Next(s1, WriterWrite(true));
      if IsData(b[0]) {
        ReadyWriterDrains(s2);
        ExecCons(s1, WriterWrite(true), WriterRun(b[1..]));
        ExecCons(s, WriterTake, [WriterWrite(true)] + WriterRun(b[1..]));
        assert s.written + UpToClose(b) == s.written + [b[0]] + UpToClose(b[1..]);
      } else {
        ExecCons(s1, WriterWrite(true), []);
        ExecCons(s, WriterTake, [WriterWrite(true)] + []);
      }
    }
  }

  /** The steps left to a writer that has started and not left. */
  function WriterRest(s: Session): seq<Event> {
    if !s.writer.Holding? then WriterRun(s.core.buffer)
    else [WriterWrite(true)] + if IsData(s.writer.frame) then WriterRun(s.core.buffer) else []
  }

  /** Closing the channel loses nothing for a writer that has started, whether it holds a frame or not:
      it can go on to write all that was accepted, up to a close frame, and leave. */
  lemma ClosedChannelIsDrained(s: Session)
    requires (s.writer.Ready? || s.writer.Holding?) && s.core.chanClosed
    ensures Legal(s, WriterRest(s))
    ensures var r := Exec(s, WriterRest(s));
            r.writer.Done? && r.written == s.written + UpToClose(Held(s) + s.core.buffer)
  {
    var b := s.core.buffer;
    if s.writer.Ready? {
      ReadyWriterDrains(s);
      assert Held(s) + b == b;
    } else {
      var f := s.writer.frame;
      var s1 := Next(s, WriterWrite(true));
      assert ([f] + b)[1..] == b;
      if IsData(f) {
        ReadyWriterDrains(s1);
        ExecCons(s, WriterWrite(true), WriterRun(b));
        assert s.written + ([f] + UpToClose(b)) == s.written + [f] + UpToClose(b);
      } else {
        ExecCons(s, WriterWrite(true), []);
      }
    }
  }

  /** No write fails. */
  predicate Untroubled(es: seq<Event>) {
    WriterWrite(false) !in es
  }

  /** A writer that left without draining the channel left after a frame that is not data. */
  predicate LeftForClose(s: Session) {
    s.writer.Done? && !s.writer.drained ==> s.written != [] && !IsData(s.written[|s.written| - 1])
  }

  lemma NextKeepsLeftForClose(s: Session, e: Event)
    requires LeftForClose(s) && Enabled(s, e) && e != WriterWrite(false)
    ensures LeftForClose(Next(s, e))
  {}

  lemma {:induction false} ExecKeepsLeftForClose(s: Session, es: seq<Event>)
    requires LeftForClose(s) && Legal(s, es) && Untroubled(es)
    ensures LeftForClose(Exec(s, es))
    decreases |es|
  {
    if es != [] {
      assert es[0] in es;
      NextKeepsLeftForClose(s, es[0]);
      ExecKeepsLeftForClose(Next(s, es[0]), es[1..]);
    }
  }

  /** Data with at most a close at the end comes before everything else. */
  lemma {:induction false} UpToCloseBegins(l: seq<Frame>, rest: seq<Frame>)
    requires l != [] ==> AllData(l[..|l| - 1])
    ensures l <= UpToClose(l + rest)
    ensures (rest == [] && AllData(l)) || (l != [] && !IsData(l[|l| - 1])) ==> UpToClose(l + rest) == l
    decreases |l|
  {
    if l == [] {
      assert l + rest == rest;
    } else {
      assert (l + rest)[1..] == l[1..] + rest;
      if |l| > 1 {
        assert l[0] in l[..|l| - 1];
        assert l[1..][..|l| - 2] == l[..|l| - 1][1..];
        UpToCloseBegins(l[1..], rest);
        assert l == [l[0]] + l[1..];
      } else {
        UpToCloseBegins([], rest);
        assert l == [l[0]] && l[1..] == [];
      }
    }
  }

  /** In every interleaving: nothing is written beyond the first close frame; and if no write fails, a
      writer that has left has written every accepted frame up to it, whenever the channel was closed. */
  lemma WriterWritesAll(es: seq<Event>)
    requires Legal(NEW, es)
    ensures var s := Exec(NEW, es);
            && s.written <= UpToClose(s.core.accepted)
            && (Untroubled(es) && s.writer.Done? ==>
                  && s.written == UpToClose(s.core.accepted)
                  && (s.written == s.core.accepted ||
                      (s.written != [] &&
                       (s.written[|s.written| - 1].Close? || s.written[|s.written| - 1].Unknown?))))
  {
    NewInv();
    ExecKeepsInv(NEW, es);
    var s := Exec(NEW, es);
    var rest := Held(s) + s.core.buffer;
    assert s.core.accepted == s.written + rest;
    UpToCloseBegins(s.written, rest);
    if Untroubled(es) && s.writer.Done? {
      ExecKeepsLeftForClose(NEW, es);
      if s.writer.drained {
        assert rest == [];
      }
    }
  }

  // ----- A disconnect that comes too early -----

  function EarlyDisconnectRun(reason: string, code: int): seq<Event> {
    [Spawn(0, Disconnect(reason, code))] +
    ([Step(Worker(0))] + ([Step(Worker(0))] + ([Step(Worker(0))] + [Authenticate])))
  }

  /** The last step of a Disconnect, then the authentication. */
  lemma ClosedThenAuthenticated(s: Session)
    requires !s.core.authenticated && s.threads == map[Worker(0) := [MarkClosed]]
    ensures Legal(s, [Step(Worker(0))] + [Authenticate])
    ensures Exec(s, [Step(Worker(0))] + [Authenticate]) ==
            s.(core := s.core.(closed := true, authenticated := true, connected := true),
               threads := map[Worker(0) := []])
  {
    var t := After(s, 0, MarkClosed, []);
    assert [Authenticate][1..] == [];
    assert Exec(t, [Authenticate]) == Next(t, Authenticate);
    StepThen(s, 0, MarkClosed, [], [Authenticate]);
    assert t.threads == map[Worker(0) := []];
  }

  /** A Disconnect that runs before the authentication succeeds: it has gone through, and yet the
      session is connected and the node was told nothing. */
  lemma EarlyDisconnectIsLost(reason: string, code: int)
    ensures Legal(NEW, EarlyDisconnectRun(reason, code))
    ensures var s := Exec(NEW, EarlyDisconnectRun(reason, code));
            && s.core.connected && s.core.closed && s.core.tested
            && s.core.removals == s.core.enqueues == 0
            && s.threads == map[Worker(0) := []]
  {
    var w, close := Step(Worker(0)), SendFrame(Close(code, reason));
    var s1 := NEW.(threads := map[Worker(0) := Disconnect(reason, code)]);
    var s2 := After(s1, 0, TestConnected, [close, MarkClosed]);
    var s3 := After(s2, 0, close, [MarkClosed]);
    assert s3.threads == map[Worker(0) := [MarkClosed]];
    ClosedThenAuthenticated(s3);
    StepThen(s2, 0, close, [MarkClosed], [w] + [Authenticate]);
    StepThen(s1, 0, TestConnected, [close, MarkClosed], [w] + ([w] + [Authenticate]));
    ExecCons(NEW, Spawn(0, Disconnect(reason, code)), [w] + ([w] + ([w] + [Authenticate])));
  }
}
