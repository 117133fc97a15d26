/** All sessions of a node together with the disconnect queue they feed. A session thread that
    reaches its enqueue action performs it on the queue; all threads and both consumers of the
    queue interleave freely.
  */
module Teardown {
  import S = SessionModel
  import Q = DisconnectQueueModel

  /** Sessions by the identity of their objects. */
  datatype World = World(sessions: map<nat, S.Session>, queue: Q.Queue)

  const START := World(map[], Q.NEW)

  datatype Event =
    | Open(id: nat)
    | OnSession(id: nat, se: S.Event)
    | OnQueue(qe: Q.Event)

  predicate Enqueues(s: S.Session, e: S.Event) {
    e.Step? && S.Holds(s, e.tid, S.Enqueue)
  }

  predicate Enabled(w: World, e: Event) {
    match e
    case Open(id) => id !in w.sessions
    case OnSession(id, se) =>
      && id in w.sessions && S.Enabled(w.sessions[id], se)
      && (Enqueues(w.sessions[id], se) ==> Q.Enabled(w.queue, Q.Enqueue(id)))
    case OnQueue(qe) => !qe.Enqueue? && Q.Enabled(w.queue, qe)
  }

  function Next(w: World, e: Event): World
    requires Enabled(w, e)
  {
    match e
    case Open(id) => w.(sessions := w.sessions[id := S.NEW])
    case OnSession(id, se) =>
      World(w.sessions[id := S.Next(w.sessions[id], se)],
            if Enqueues(w.sessions[id], se) then Q.Next(w.queue, Q.Enqueue(id)) else w.queue)
    case OnQueue(qe) => w.(queue := Q.Next(w.queue, qe))
  }

  predicate Legal(w: World, es: seq<Event>)
    decreases |es|
  {
    es != [] ==> Enabled(w, es[0]) && Legal(Next(w, es[0]), es[1..])
  }

  function Exec(w: World, es: seq<Event>): World
    requires Legal(w, es)
    decreases |es|
  {
    if es == [] then w else Exec(Next(w, es[0]), es[1..])
  }

  lemma {:induction false} ExecAppend(w: World, a: seq<Event>, b: seq<Event>)
    requires Legal(w, a) && Legal(Exec(w, a), b)
    ensures Legal(w, a + b) && Exec(w, a + b) == Exec(Exec(w, a), b)
    decreases |a|
  {
    if a == [] {
      assert a + b == b;
    } else {
      assert (a + b)[1..] == a[1..] + b;
      ExecAppend(Next(w, a[0]), a[1..], b);
    }
  }

  /** How often a session called Enqueue. */
  function Enqueued(w: World, id: nat): nat {
    if id in w.sessions then w.sessions[id].core.enqueues else 0
  }

  /** The queue accepted a session no more often than the session asked, and exactly as often as
      long as it is not stopped. */
  ghost predicate Matched(w: World) {
    forall id :: MatchedFor(w, id)
  }

  ghost predicate MatchedFor(w: World, id: nat) {
    && multiset(w.queue.accepted)[id] <= Enqueued(w, id)
    && (!w.queue.isStopped ==> multiset(w.queue.accepted)[id] == Enqueued(w, id))
  }

  ghost predicate Inv(w: World) {
    && (forall id :: id in w.sessions ==> S.Inv(w.sessions[id]))
    && Q.Inv(w.queue)
    && Matched(w)
  }

  lemma SessionStepKeepsMatched(w: World, id: nat, se: S.Event)
    requires Matched(w) && Enabled(w, OnSession(id, se))
    ensures Matched(Next(w, OnSession(id, se)))
  {
    var r := Next(w, OnSession(id, se));
    S.EnqueuesAfter(w.sessions[id], se);
    if Enqueues(w.sessions[id], se) {
      Q.AcceptedAfter(w.queue, Q.Enqueue(id));
      assert multiset(w.queue.accepted + [id]) == multiset(w.queue.accepted) + multiset{id};
    }
    forall x: nat ensures MatchedFor(r, x) {
      assert MatchedFor(w, x);
    }
  }

  lemma SessionStepKeeps(w: World, id: nat, se: S.Event)
    requires Inv(w) && Enabled(w, OnSession(id, se))
    ensures Inv(Next(w, OnSession(id, se)))
  {
    SessionStepKeepsMatched(w, id, se);
    S.NextKeepsInv(w.sessions[id], se);
    if Enqueues(w.sessions[id], se) {
      Q.NextKeepsInv(w.queue, Q.Enqueue(id));
    }
  }

  lemma QueueStepKeeps(w: World, qe: Q.Event)
    requires Inv(w) && Enabled(w, OnQueue(qe))
    ensures Inv(Next(w, OnQueue(qe)))
  {
    Q.NextKeepsInv(w.queue, qe);
    Q.AcceptedAfter(w.queue, qe);
    forall x: nat ensures MatchedFor(Next(w, OnQueue(qe)), x) {
      assert MatchedFor(w, x);
    }
  }

  lemma OpenKeeps(w: World, id: nat)
    requires Inv(w) && Enabled(w, Open(id))
    ensures Inv(Next(w, Open(id)))
  {
    S.NewInv();
    forall x: nat ensures MatchedFor(Next(w, Open(id)), x) {
      assert MatchedFor(w, x);
    }
  }

  lemma NextKeepsInv(w: World, e: Event)
    requires Inv(w) && Enabled(w, e)
    ensures Inv(Next(w, e))
  {
    match e
    case Open(id) => OpenKeeps(w, id);
    case OnSession(id, se) => SessionStepKeeps(w, id, se);
    case OnQueue(qe) => QueueStepKeeps(w, qe);
  }

  lemma {:induction false} ExecKeepsInv(w: World, es: seq<Event>)
    requires Inv(w) && Legal(w, es)
    ensures Inv(Exec(w, es))
    decreases |es|
  {
    if es != [] {
      NextKeepsInv(w, es[0]);
      ExecKeepsInv(Next(w, es[0]), es[1..]);
    }
  }

  /** Over every interleaving of all sessions' threads, the throttled loop and Shutdown, the
      controller's Disconnect is called at most once per session, and never for a session that is
      not authenticated or is still connected. Until the queue is stopped no session that asked is
      lost: its call is made, in flight or queued. */
  lemma ControllerDisconnectsAtMostOnce(es: seq<Event>, id: nat)
    requires Legal(START, es)
    ensures var w := Exec(START, es);
            && multiset(w.queue.called)[id] <= 1
            && (multiset(w.queue.called)[id] == 1 ==>
                  && id in w.sessions && w.sessions[id].core.authenticated && !w.sessions[id].core.connected
                  && w.sessions[id].core.removals == w.sessions[id].core.enqueues == 1)
            && (!w.queue.isStopped ==>
                  multiset(w.queue.called)[id] + Q.InFlight(w.queue)[id] + multiset(w.queue.disconnect)[id] ==
                  Enqueued(w, id))
  {
    ExecKeepsInv(START, es);
    var w := Exec(START, es);
    var q := w.queue;
    assert multiset(q.accepted) == multiset(q.taken) + multiset(q.disconnect) by {
      assert multiset(q.taken + q.disconnect) == multiset(q.taken) + multiset(q.disconnect);
    }
    assert MatchedFor(w, id);
    assert multiset(q.called)[id] <= multiset(q.accepted)[id] <= Enqueued(w, id);
    if id in w.sessions {
      assert S.Inv(w.sessions[id]);
    }
  }
}

/** Closing all registered sessions on shutdown, after the hub loop has stopped. */
module Shutdown {
  import opened Basics
  import S = SessionModel
  import Q = DisconnectQueueModel
  import L = HubLoop

  const CLOSE_GOING_AWAY := 1001

  datatype Outcome = Completed | BlockedOnRegister(at: nat) | BlockedOnQueue(at: nat)

  function Connected(sessions: seq<S.Core>): nat {
    if sessions == [] then 0
    else Connected(sessions[..|sessions| - 1]) + (if sessions[|sessions| - 1].connected then 1 else 0)
  }

  /** What the sweep runs on one session. */
  function Sweep(message: Frame): seq<S.Action> {
    [S.SendFrame(message)] + S.Disconnect("Shutdown", CLOSE_GOING_AWAY)
  }

  lemma SweepDisconnects(c: S.Core, message: Frame)
    ensures var d := S.RunAlone(c, Sweep(message));
            && !d.connected
            && d.removals == c.removals + (if c.connected then 1 else 0)
            && d.enqueues == c.enqueues + (if c.connected then 1 else 0)
  {
    var ops := Sweep(message);
    var close := S.SendFrame(Close(CLOSE_GOING_AWAY, "Shutdown"));
    assert ops == [S.SendFrame(message), S.TestConnected, close, S.MarkClosed];
    assert ops[1] == S.TestConnected;
    S.AloneDisconnectsOnce(c, ops);
  }

  /** An open channel with room for two ends with the message and the close frame. */
  lemma SweepSends(c: S.Core, message: Frame)
    requires S.ChannelSafe(c) && c.sendChSet && |c.buffer| + 2 <= S.SEND_CAPACITY
    ensures var d := S.RunAlone(c, Sweep(message));
            && d.buffer == c.buffer + [message, Close(1001, "Shutdown")]
            && d.accepted == c.accepted + [message, Close(1001, "Shutdown")]
            && d.closed
  {
    S.RunAloneAppend(c, [S.SendFrame(message)], S.Disconnect("Shutdown", CLOSE_GOING_AWAY));
    S.SendFrameAlone(c, message);
    S.DisconnectAlone(S.RunAlone(c, [S.SendFrame(message)]), "Shutdown", CLOSE_GOING_AWAY);
    var close := Close(CLOSE_GOING_AWAY, "Shutdown");
    assert c.buffer + [message] + [close] == c.buffer + [message, close];
    assert c.accepted + [message] + [close] == c.accepted + [message, close];
  }

  predicate Informed(before: S.Core, after: S.Core, message: Frame) {
    S.ChannelSafe(before) && before.sendChSet && |before.buffer| + 2 <= S.SEND_CAPACITY ==>
      after.buffer == before.buffer + [message, Close(1001, "Shutdown")]
  }

  lemma SweepInforms(c: S.Core, message: Frame)
    ensures Informed(c, S.RunAlone(c, Sweep(message)), message)
  {
    if S.ChannelSafe(c) && c.sendChSet && |c.buffer| + 2 <= S.SEND_CAPACITY {
      SweepSends(c, message);
    }
  }

  /** Sends each session the message and disconnects it. `register` and `queue` are the lengths of
      the hub's register channel, which nothing drains any more, and of the disconnect queue, from
      which its loop takes up to `drained(i)` items before the i-th push. */
  method CloseAll(sessions: seq<S.Core>, message: Frame, register: nat, queue: nat, drained: nat -> nat)
    returns (outcome: Outcome, closed: seq<S.Core>, removals: nat, tasks: nat)
    requires register <= L.REGISTER_CAPACITY && queue <= Q.CAPACITY
    ensures queue + Connected(sessions) <= Q.CAPACITY ==>
              (outcome.Completed? <==> register + Connected(sessions) <= L.REGISTER_CAPACITY)
    ensures outcome.Completed? ==>
              && removals == tasks == Connected(sessions)
              && |closed| == |sessions| && forall i :: 0 <= i < |closed| ==> !closed[i].connected
    ensures outcome.Completed? ==> forall i :: 0 <= i < |closed| ==> Informed(sessions[i], closed[i], message)
    ensures register + Connected(sessions) > L.REGISTER_CAPACITY ==> !outcome.Completed?
    ensures outcome.BlockedOnRegister? ==>
              && outcome.at < |sessions| && sessions[outcome.at].connected
              && register + Connected(sessions[..outcome.at]) == L.REGISTER_CAPACITY
  {
    closed, removals, tasks := [], 0, 0;
    var waiting := queue;
    for i := 0 to |sessions|
      invariant |closed| == i && forall k :: 0 <= k < i ==> !closed[k].connected
      invariant forall k :: 0 <= k < i ==> Informed(sessions[k], closed[k], message)
      invariant removals == tasks == Connected(sessions[..i])
      invariant register + removals <= L.REGISTER_CAPACITY
      invariant waiting <= queue + tasks && waiting <= Q.CAPACITY
    {
      assert sessions[..i + 1][..i] == sessions[..i];
      var after := S.RunAlone(sessions[i], Sweep(message));
      SweepDisconnects(sessions[i], message);
      SweepInforms(sessions[i], message);
      ConnectedPrefix(sessions, i + 1);
      if after.removals > sessions[i].removals {
        if register + removals == L.REGISTER_CAPACITY {
          return BlockedOnRegister(i), closed, removals, tasks;
        }
        removals := removals + 1;
      }
      if after.enqueues > sessions[i].enqueues {
        waiting := if drained(i) <= waiting then waiting - drained(i) else 0;
        if waiting == Q.CAPACITY {
          return BlockedOnQueue(i), closed, removals, tasks;
        }
        waiting, tasks := waiting + 1, tasks + 1;
      }
      closed := closed + [after];
    }
    assert sessions[..|sessions|] == sessions;
    outcome := Completed;
  }

  lemma {:induction false} ConnectedPrefix(sessions: seq<S.Core>, i: nat)
    requires i <= |sessions|
    ensures Connected(sessions[..i]) <= Connected(sessions)
    decreases |sessions|
  {
    if i < |sessions| {
      assert sessions[..|sessions| - 1][..i] == sessions[..i];
      ConnectedPrefix(sessions[..|sessions| - 1], i);
    } else {
      assert sessions[..i] == sessions;
    }
  }
}

/** The same with everything that runs at the time: sweep, readers, writers and pings of all sessions
    and both consumers of the queue interleave, and removals go to a register channel nobody reads.
  */
module Closing {
  import S = SessionModel
  import Q = DisconnectQueueModel
  import L = HubLoop
  import T = Teardown

  /** The world with the number of commands in the register channel. */
  datatype Node = Node(world: T.World, register: nat)

  predicate Removes(w: T.World, e: T.Event) {
    e.OnSession? && e.id in w.sessions && e.se.Step? && S.Holds(w.sessions[e.id], e.se.tid, S.HubRemove)
  }

  predicate Enqueues(w: T.World, e: T.Event) {
    e.OnSession? && e.id in w.sessions && T.Enqueues(w.sessions[e.id], e.se)
  }

  predicate Enabled(n: Node, e: T.Event) {
    T.Enabled(n.world, e) && (Removes(n.world, e) ==> n.register < L.REGISTER_CAPACITY)
  }

  function Next(n: Node, e: T.Event): Node
    requires Enabled(n, e)
  {
    Node(T.Next(n.world, e), n.register + (if Removes(n.world, e) then 1 else 0))
  }

  predicate Legal(n: Node, es: seq<T.Event>)
    decreases |es|
  {
    es != [] ==> Enabled(n, es[0]) && Legal(Next(n, es[0]), es[1..])
  }

  function Exec(n: Node, es: seq<T.Event>): Node
    requires Legal(n, es)
    decreases |es|
  {
    if es == [] then n else Exec(Next(n, es[0]), es[1..])
  }

  function Authenticated(w: T.World): set<nat> {
    set id | id in w.sessions && w.sessions[id].core.authenticated
  }

  /** Sessions whose removal was pushed, and sessions that were handed to the queue. */
  function Removed(w: T.World): set<nat> {
    set id | id in w.sessions && w.sessions[id].core.removals > 0
  }

  function Enqueued(w: T.World): set<nat> {
    set id | id in w.sessions && w.sessions[id].core.enqueues > 0
  }

  lemma RemovalsAfter(s: S.Session, e: S.Event)
    requires S.Enabled(s, e)
    ensures S.Next(s, e).core.removals ==
            s.core.removals + (if e.Step? && S.Holds(s, e.tid, S.HubRemove) then 1 else 0)
  {
    if e.Step? {
      S.StepCounts(s.core, s.threads[e.tid][0]);
    }
  }

  /** A session about to be removed or enqueued is authenticated and has not been yet. */
  lemma DueOnce(s: S.Session, t: S.Tid, a: S.Action)
    requires S.Inv(s) && S.Holds(s, t, a) && (a.HubRemove? || a.Enqueue?)
    ensures s.core.authenticated
    ensures if a.HubRemove? then s.core.removals == 0 else s.core.enqueues == 0
  {
    assert t in S.Due(s, a);
    assert |S.Due(s, a)| >= 1;
  }

  lemma StepRemoved(w: T.World, e: T.Event)
    requires T.Inv(w) && T.Enabled(w, e)
    ensures Removed(T.Next(w, e)) == if Removes(w, e) then Removed(w) + {e.id} else Removed(w)
    ensures Removes(w, e) ==> e.id !in Removed(w)
  {
    if e.OnSession? {
      RemovalsAfter(w.sessions[e.id], e.se);
      if Removes(w, e) {
        DueOnce(w.sessions[e.id], e.se.tid, S.HubRemove);
      }
    }
    var r := T.Next(w, e);
    forall id ensures id in Removed(r) <==> id in (if Removes(w, e) then Removed(w) + {e.id} else Removed(w)) {}
  }

  lemma StepEnqueued(w: T.World, e: T.Event)
    requires T.Inv(w) && T.Enabled(w, e)
    ensures Enqueued(T.Next(w, e)) == if Enqueues(w, e) then Enqueued(w) + {e.id} else Enqueued(w)
    ensures Enqueues(w, e) ==> e.id !in Enqueued(w)
  {
    if e.OnSession? {
      S.EnqueuesAfter(w.sessions[e.id], e.se);
      if Enqueues(w, e) {
        DueOnce(w.sessions[e.id], e.se.tid, S.Enqueue);
      }
    }
    var r := T.Next(w, e);
    forall id ensures id in Enqueued(r) <==> id in (if Enqueues(w, e) then Enqueued(w) + {e.id} else Enqueued(w)) {}
  }

  lemma StepQueue(w: T.World, e: T.Event)
    requires T.Enabled(w, e)
    ensures |T.Next(w, e).queue.disconnect| <= |w.queue.disconnect| + (if Enqueues(w, e) then 1 else 0)
  {}

  /** Each push to the register channel is a session removed for the first time, and the queue grows
      by no more than the sessions handed over. */
  ghost predicate Grown(n: Node, r: Node) {
    && Removed(n.world) <= Removed(r.world) && Enqueued(n.world) <= Enqueued(r.world)
    && r.register == n.register + |Removed(r.world)| - |Removed(n.world)|
    && |r.world.queue.disconnect| <= |n.world.queue.disconnect| + |Enqueued(r.world)| - |Enqueued(n.world)|
  }

  lemma OneMore(before: set<nat>, after: set<nat>, grows: bool, id: nat)
    requires after == if grows then before + {id} else before
    requires grows ==> id !in before
    ensures before <= after && |after| == |before| + (if grows then 1 else 0)
  {}

  lemma StepGrown(n: Node, e: T.Event)
    requires T.Inv(n.world) && Enabled(n, e)
    ensures Grown(n, Next(n, e))
  {
    StepRemoved(n.world, e);
    StepEnqueued(n.world, e);
    StepQueue(n.world, e);
    var id := if e.OnSession? then e.id else 0;
    var w := T.Next(n.world, e);
    OneMore(Removed(n.world), Removed(w), Removes(n.world, e), id);
    OneMore(Enqueued(n.world), Enqueued(w), Enqueues(n.world, e), id);
  }

  lemma GrownTwice(n: Node, m: Node, r: Node)
    requires Grown(n, m) && Grown(m, r)
    ensures Grown(n, r)
  {}

  lemma {:induction false} ExecGrown(n: Node, es: seq<T.Event>)
    requires T.Inv(n.world) && Legal(n, es)
    ensures T.Inv(Exec(n, es).world) && Grown(n, Exec(n, es))
    decreases |es|
  {
    if es != [] {
      T.NextKeepsInv(n.world, es[0]);
      StepGrown(n, es[0]);
      ExecGrown(Next(n, es[0]), es[1..]);
      GrownTwice(n, Next(n, es[0]), Exec(n, es));
    }
  }

  lemma {:induction false} NeverOverfull(n: Node, es: seq<T.Event>)
    requires n.register <= L.REGISTER_CAPACITY && Legal(n, es)
    ensures Exec(n, es).register <= L.REGISTER_CAPACITY
    decreases |es|
  {
    if es != [] {
      NeverOverfull(Next(n, es[0]), es[1..]);
    }
  }

  lemma DoneWereAuthenticated(w: T.World)
    requires T.Inv(w)
    ensures Removed(w) <= Authenticated(w) && Enqueued(w) <= Authenticated(w)
  {
    forall id | id in w.sessions && w.sessions[id].core.removals + w.sessions[id].core.enqueues > 0
      ensures w.sessions[id].core.authenticated
    {
      assert S.Inv(w.sessions[id]);
    }
  }

  lemma Sizes(a: set<nat>, b: set<nat>, c: set<nat>)
    requires a <= b <= c
    ensures |b| - |a| == |b - a| <= |c - a|
    ensures b < c ==> |b - a| < |c - a|
  {
    assert b == a + (b - a);
    assert c - a == (b - a) + (c - b);
    if b < c {
      var x :| x in c && x !in b;
      assert x in c - b;
    }
  }

  /** No removal waits for room as long as the commands in the channel and the sessions that are
      authenticated and not removed at the start, or get authenticated on the way, fit into it. And
      only then can all of them be removed: at the end the channel holds one command for each. */
  lemma RemovalsFit(n: Node, es: seq<T.Event>)
    requires T.Inv(n.world) && n.register <= L.REGISTER_CAPACITY && Legal(n, es)
    ensures var r := Exec(n, es);
            var due := |Authenticated(r.world) - Removed(n.world)|;
            && (n.register + due <= L.REGISTER_CAPACITY ==>
                  forall e :: T.Enabled(r.world, e) && Removes(r.world, e) ==> Enabled(r, e))
            && (Removed(r.world) == Authenticated(r.world) ==> r.register == n.register + due <= L.REGISTER_CAPACITY)
  {
    ExecGrown(n, es);
    NeverOverfull(n, es);
    var r := Exec(n, es);
    var before, done, all := Removed(n.world), Removed(r.world), Authenticated(r.world);
    DoneWereAuthenticated(r.world);
    Sizes(before, done, all);
    if n.register + |all - before| <= L.REGISTER_CAPACITY {
      forall e | T.Enabled(r.world, e) && Removes(r.world, e) ensures Enabled(r, e) {
        DueOnce(r.world.sessions[e.id], e.se.tid, S.HubRemove);
        assert e.id in all && e.id !in done;
      }
    }
  }

  /** Room in the queue is all a thread about to enqueue needs. */
  lemma EnqueueEnabled(r: Node, id: nat, t: S.Tid)
    requires id in r.world.sessions && S.Holds(r.world.sessions[id], t, S.Enqueue)
    requires |r.world.queue.disconnect| < Q.CAPACITY
    ensures Enabled(r, T.OnSession(id, S.Step(t)))
  {}

  /** The same for the queue: no session waits to be handed over. */
  lemma TasksFit(n: Node, es: seq<T.Event>, id: nat, t: S.Tid)
    requires T.Inv(n.world) && Legal(n, es)
    requires var r := Exec(n, es);
             && |n.world.queue.disconnect| + |Authenticated(r.world) - Enqueued(n.world)| <= Q.CAPACITY
             && id in r.world.sessions && S.Holds(r.world.sessions[id], t, S.Enqueue)
    ensures Enabled(Exec(n, es), T.OnSession(id, S.Step(t)))
  {
    ExecGrown(n, es);
    var r := Exec(n, es);
    var before, done, all := Enqueued(n.world), Enqueued(r.world), Authenticated(r.world);
    DoneWereAuthenticated(r.world);
    Sizes(before, done, all);
    DueOnce(r.world.sessions[id], t, S.Enqueue);
    assert id in all && id !in done;
    EnqueueEnabled(r, id, t);
  }

  // ----- A node with too many sessions -----

  const CONNECTED_SESSION := S.Next(S.NEW, S.Authenticate)

  /** One more session has connected. */
  function With(w: T.World, id: nat): T.World {
    w.(sessions := w.sessions[id := CONNECTED_SESSION])
  }

  function Arrival(id: nat): seq<T.Event> {
    [T.Open(id), T.OnSession(id, S.Authenticate)]
  }

  lemma Arrives(w: T.World, id: nat)
    requires id !in w.sessions
    ensures T.Legal(w, Arrival(id)) && T.Exec(w, Arrival(id)) == With(w, id)
    ensures Authenticated(With(w, id)) == Authenticated(w) + {id} && Removed(With(w, id)) == Removed(w)
  {
    var v := T.Next(w, T.Open(id));
    var rest := [T.OnSession(id, S.Authenticate)];
    assert Arrival(id)[1..] == rest && rest[1..] == [];
    assert T.Next(v, rest[0]).sessions == With(w, id).sessions;
    assert T.Exec(v, rest) == T.Next(v, rest[0]);
  }

  /** The first `k` sessions have connected, nothing else has happened. */
  function Crowd(k: nat): T.World {
    if k == 0 then T.START else With(Crowd(k - 1), k - 1)
  }

  lemma {:induction false} CrowdSize(k: nat)
    ensures forall id :: id in Crowd(k).sessions ==> id < k
    ensures |Authenticated(Crowd(k))| == k && Removed(Crowd(k)) == {}
    decreases k
  {
    if k > 0 {
      CrowdSize(k - 1);
      Arrives(Crowd(k - 1), k - 1);
      assert k - 1 !in Authenticated(Crowd(k - 1));
    }
  }

  lemma {:induction false} CrowdReachable(k: nat) returns (es: seq<T.Event>)
    ensures T.Legal(T.START, es) && T.Exec(T.START, es) == Crowd(k)
    decreases k
  {
    if k == 0 {
      es := [];
    } else {
      var before := CrowdReachable(k - 1);
      CrowdSize(k - 1);
      Arrives(Crowd(k - 1), k - 1);
      T.ExecAppend(T.START, before, Arrival(k - 1));
      es := before + Arrival(k - 1);
    }
  }

  lemma StepAuthenticated(w: T.World, e: T.Event)
    requires T.Enabled(w, e)
    ensures Authenticated(w) <= Authenticated(T.Next(w, e))
  {
    if e.OnSession? && e.se.Step? {
      S.StepCounts(w.sessions[e.id].core, w.sessions[e.id].threads[e.se.tid][0]);
    }
  }

  lemma {:induction false} AuthenticatedGrows(n: Node, es: seq<T.Event>)
    requires Legal(n, es)
    ensures Authenticated(n.world) <= Authenticated(Exec(n, es).world)
    decreases |es|
  {
    if es != [] {
      StepAuthenticated(n.world, es[0]);
      AuthenticatedGrows(Next(n, es[0]), es[1..]);
    }
  }

  /** With more commands and sessions than the register channel has room for, no run of the sweep and
      of anything else removes them all. */
  lemma SweepCannotFinish(n: Node, es: seq<T.Event>)
    requires T.Inv(n.world) && n.register <= L.REGISTER_CAPACITY && Legal(n, es)
    requires n.register + |Authenticated(n.world) - Removed(n.world)| > L.REGISTER_CAPACITY
    ensures Removed(Exec(n, es).world) != Authenticated(Exec(n, es).world)
  {
    RemovalsFit(n, es);
    AuthenticatedGrows(n, es);
    DoneWereAuthenticated(n.world);
    Sizes(Removed(n.world), Authenticated(n.world), Authenticated(Exec(n, es).world));
  }

  /** And nodes like that are reached: by sessions connecting, as many as there are. */
  lemma Overcrowded(k: nat) returns (es: seq<T.Event>)
    requires k > L.REGISTER_CAPACITY
    ensures T.Legal(T.START, es)
    ensures var w := T.Exec(T.START, es);
            T.Inv(w) && |Authenticated(w) - Removed(w)| == k
  {
    es := CrowdReachable(k);
    T.ExecKeepsInv(T.START, es);
    CrowdSize(k);
    assert Authenticated(Crowd(k)) - {} == Authenticated(Crowd(k));
  }
}
