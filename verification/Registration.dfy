/** Sessions, the hub's maps and its register channel together. Connecting a session and registering it
    are two steps; a disconnect that falls between them pushes its removal, and the loop may take it,
    before the session is registered.
  */
module Registration {
  import HubModel
  import HubProperties
  import L = HubLoop
  import S = SessionModel

  /** What the hub knows of a session object. */
  type Who = nat -> HubModel.Client

  /** Sessions by identity, the hub with its channels, the sessions connected and not yet registered,
      and histories: whose registration was made, whose removal the loop took, and whose removal it took
      before the registration was made. */
  datatype World = World(
    sessions: map<nat, S.Session>,
    system: L.System,
    pending: set<nat>,
    registered: set<nat>,
    taken: set<nat>,
    removedFirst: set<nat>)

  const START := World(map[], L.START, {}, {}, {}, {})

  datatype Event =
    | Open(id: nat)
    | Connect(id: nat)
    | Register(id: nat)
    | OnSession(id: nat, se: S.Event)
    | OnHub(step: L.Step)

  predicate Removes(w: World, id: nat, se: S.Event)
    requires id in w.sessions
  {
    se.Step? && S.Holds(w.sessions[id], se.tid, S.HubRemove)
  }

  predicate Enabled(w: World, e: Event) {
    match e
    case Open(id) => id !in w.sessions
    case Connect(id) => id in w.sessions && S.Enabled(w.sessions[id], S.Authenticate)
    case Register(id) => id in w.pending
    case OnSession(id, se) =>
      && id in w.sessions && !se.Authenticate? && S.Enabled(w.sessions[id], se)
      && (Removes(w, id, se) ==> |w.system.register| < L.REGISTER_CAPACITY)
    case OnHub(step) => !step.AddNow? && !step.PushReg? && L.Enabled(w.system, step)
  }

  function Next(who: Who, w: World, e: Event): World
    requires Enabled(w, e)
  {
    match e
    case Open(id) => w.(sessions := w.sessions[id := S.NEW])
    case Connect(id) =>
      w.(sessions := w.sessions[id := S.Next(w.sessions[id], S.Authenticate)], pending := w.pending + {id})
    case Register(id) =>
      w.(system := L.Next(w.system, L.AddNow(who(id))),
         pending := w.pending - {id}, registered := w.registered + {id})
    case OnSession(id, se) =>
      w.(sessions := w.sessions[id := S.Next(w.sessions[id], se)],
         system := if Removes(w, id, se) then L.Next(w.system, L.PushReg(L.Unregister(who(id)))) else w.system)
    case OnHub(step) =>
      if step.TakeReg? then
        var id := w.system.register[0].session.handle;
        w.(system := L.Next(w.system, step), taken := w.taken + {id},
           removedFirst := if id in w.registered then w.removedFirst else w.removedFirst + {id})
      else w.(system := L.Next(w.system, step))
  }

  predicate Legal(who: Who, w: World, es: seq<Event>)
    decreases |es|
  {
    es != [] ==> Enabled(w, es[0]) && Legal(who, Next(who, w, es[0]), es[1..])
  }

  function Exec(who: Who, w: World, es: seq<Event>): World
    requires Legal(who, w, es)
    decreases |es|
  {
    if es == [] then w else Exec(who, Next(who, w, es[0]), es[1..])
  }

  // ----- What every step keeps about one session -----

  /** Handles are identities, and nobody else has this session's UID. */
  ghost predicate Unique(who: Who, id: nat) {
    && (forall x: nat :: who(x).handle == x)
    && (forall x: nat :: x != id ==> who(x).uid != who(id).uid)
  }

  function Removals(w: World, id: nat): nat {
    if id in w.sessions then w.sessions[id].core.removals else 0
  }

  predicate Authenticated(w: World, id: nat) {
    id in w.sessions && w.sessions[id].core.authenticated
  }

  /** How many of its removals are in the channel. */
  ghost function Queued(who: Who, w: World, id: nat): nat {
    multiset(w.system.register)[L.Unregister(who(id))]
  }

  ghost predicate OwnCommands(who: Who, w: World) {
    forall cmd :: cmd in w.system.register ==> cmd == L.Unregister(who(cmd.session.handle))
  }

  ghost predicate Counted(who: Who, w: World, id: nat) {
    && (id in w.sessions ==> S.Inv(w.sessions[id]))
    && Removals(w, id) == Queued(who, w, id) + (if id in w.taken then 1 else 0)
    && (Authenticated(w, id) <==> id in w.pending || id in w.registered)
    && (id in w.pending ==> id !in w.registered)
  }

  /** The hub has the session if and only if it was registered and not removed since. */
  predicate Filed(who: Who, w: World, id: nat) {
    && (id in w.removedFirst ==> id in w.taken)
    && (id in w.taken && id !in w.registered ==> id in w.removedFirst)
    && (who(id).uid in w.system.hub.sessions <==> id in w.registered && (id !in w.taken || id in w.removedFirst))
  }

  ghost predicate Inv(who: Who, w: World, id: nat) {
    OwnCommands(who, w) && Counted(who, w, id) && Filed(who, w, id)
  }

  lemma AtMostOneRemoval(s: S.Session)
    requires S.Inv(s)
    ensures s.core.removals <= 1
  {}

  lemma RemovalsAfter(s: S.Session, e: S.Event)
    requires S.Enabled(s, e)
    ensures var c := S.Next(s, e).core;
            && c.removals == s.core.removals + (if e.Step? && S.Holds(s, e.tid, S.HubRemove) then 1 else 0)
            && (!e.Authenticate? ==> c.authenticated == s.core.authenticated)
  {
    if e.Step? {
      S.StepCounts(s.core, s.threads[e.tid][0]);
    }
  }

  lemma OpenKeeps(who: Who, w: World, x: nat, id: nat)
    requires Inv(who, w, id) && Enabled(w, Open(x))
    ensures Inv(who, Next(who, w, Open(x)), id)
  {
    S.NewInv();
  }

  lemma ConnectKeeps(who: Who, w: World, x: nat, id: nat)
    requires Inv(who, w, id) && Enabled(w, Connect(x))
    ensures Inv(who, Next(who, w, Connect(x)), id)
  {
    RemovalsAfter(w.sessions[x], S.Authenticate);
    if x == id {
      S.NextKeepsInv(w.sessions[x], S.Authenticate);
    }
  }

  lemma RegisterKeeps(who: Who, w: World, x: nat, id: nat)
    requires Unique(who, id) && Inv(who, w, id) && Enabled(w, Register(x))
    ensures Inv(who, Next(who, w, Register(x)), id)
  {}

  lemma PushCounts(register: seq<L.RegCmd>, cmd: L.RegCmd, other: L.RegCmd)
    ensures multiset(register + [cmd])[other] == multiset(register)[other] + (if cmd == other then 1 else 0)
  {
    assert multiset(register + [cmd]) == multiset(register) + multiset{cmd};
  }

  lemma TakeCounts(register: seq<L.RegCmd>, other: L.RegCmd)
    requires register != []
    ensures multiset(register[1..])[other] == multiset(register)[other] - (if register[0] == other then 1 else 0)
  {
    assert register == [register[0]] + register[1..];
    assert multiset(register) == multiset{register[0]} + multiset(register[1..]);
  }

  /** A session's step changes the channel only by a push of its own removal. */
  lemma SessionOnSystem(who: Who, w: World, x: nat, se: S.Event, id: nat)
    requires Unique(who, id) && Enabled(w, OnSession(x, se))
    ensures var r := Next(who, w, OnSession(x, se));
            && r.system.hub == w.system.hub
            && r.system.register == w.system.register + (if Removes(w, x, se) then [L.Unregister(who(x))] else [])
            && Queued(who, r, id) == Queued(who, w, id) + (if Removes(w, x, se) && x == id then 1 else 0)
  {
    PushCounts(w.system.register, L.Unregister(who(x)), L.Unregister(who(id)));
  }

  lemma SessionKeepsCounted(who: Who, w: World, x: nat, se: S.Event, id: nat)
    requires Unique(who, id) && Counted(who, w, id) && Enabled(w, OnSession(x, se))
    ensures Counted(who, Next(who, w, OnSession(x, se)), id)
  {
    SessionOnSystem(who, w, x, se, id);
    RemovalsAfter(w.sessions[x], se);
    if x == id {
      S.NextKeepsInv(w.sessions[x], se);
    }
  }

  lemma SessionKeeps(who: Who, w: World, x: nat, se: S.Event, id: nat)
    requires Unique(who, id) && Inv(who, w, id) && Enabled(w, OnSession(x, se))
    ensures Inv(who, Next(who, w, OnSession(x, se)), id)
  {
    SessionKeepsCounted(who, w, x, se, id);
    SessionOnSystem(who, w, x, se, id);
  }

  /** Subscription steps leave the registry alone. */
  lemma QuietStep(y: L.System, step: L.Step)
    requires L.Enabled(y, step) && (step.SubscribeNow? || step.PushSub? || step.TakeSub?)
    ensures L.Next(y, step).hub.sessions == y.hub.sessions && L.Next(y, step).register == y.register
  {}

  lemma TakeKeeps(who: Who, w: World, id: nat)
    requires Unique(who, id) && Inv(who, w, id) && Enabled(w, OnHub(L.TakeReg))
    ensures Inv(who, Next(who, w, OnHub(L.TakeReg)), id)
  {
    var cmd := w.system.register[0];
    assert cmd == L.Unregister(who(cmd.session.handle));
    TakeCounts(w.system.register, L.Unregister(who(id)));
    if cmd.session.handle == id {
      assert id in w.sessions;
      AtMostOneRemoval(w.sessions[id]);
      assert id !in w.taken;
    }
  }

  lemma NextKeepsInv(who: Who, w: World, e: Event, id: nat)
    requires Unique(who, id) && Inv(who, w, id) && Enabled(w, e)
    ensures Inv(who, Next(who, w, e), id)
  {
    match e
    case Open(x) => OpenKeeps(who, w, x, id);
    case Connect(x) => ConnectKeeps(who, w, x, id);
    case Register(x) => RegisterKeeps(who, w, x, id);
    case OnSession(x, se) => SessionKeeps(who, w, x, se, id);
    case OnHub(step) =>
      if step.TakeReg? {
        TakeKeeps(who, w, id);
      } else {
        QuietStep(w.system, step);
      }
  }

  lemma {:induction false} ExecKeepsInv(who: Who, w: World, es: seq<Event>, id: nat)
    requires Unique(who, id) && Inv(who, w, id) && Legal(who, w, es)
    ensures Inv(who, Exec(who, w, es), id)
    decreases |es|
  {
    if es != [] {
      NextKeepsInv(who, w, es[0], id);
      ExecKeepsInv(who, Next(who, w, es[0]), es[1..], id);
    }
  }

  // ----- What that means -----

  /** Its registration is made, no thread is about to remove it and no removal of it waits. */
  ghost predicate Settled(who: Who, w: World, id: nat) {
    && id in w.registered
    && id in w.sessions && S.Due(w.sessions[id], S.HubRemove) == {}
    && Queued(who, w, id) == 0
  }

  /** In every interleaving of all sessions and the hub loop: once settled, a connected session is
      registered, and a disconnected one is if and only if the loop took its removal before its
      registration was made. */
  lemma SettledRegisteredIff(who: Who, es: seq<Event>, id: nat)
    requires Unique(who, id) && Legal(who, START, es) && Settled(who, Exec(who, START, es), id)
    ensures var w := Exec(who, START, es);
            who(id).uid in w.system.hub.sessions <==> w.sessions[id].core.connected || id in w.removedFirst
  {
    ExecKeepsInv(who, START, es, id);
  }

  lemma {:induction false} HistoriesGrow(who: Who, w: World, es: seq<Event>)
    requires Legal(who, w, es)
    ensures w.registered <= Exec(who, w, es).registered && w.removedFirst <= Exec(who, w, es).removedFirst
    decreases |es|
  {
    if es != [] {
      HistoriesGrow(who, Next(who, w, es[0]), es[1..]);
    }
  }

  /** And that is for good: no continuation of whatever kind gets it out of the hub. */
  lemma DeadForGood(who: Who, es: seq<Event>, id: nat, more: seq<Event>)
    requires Unique(who, id) && Legal(who, START, es)
    requires id in Exec(who, START, es).removedFirst && id in Exec(who, START, es).registered
    requires Legal(who, Exec(who, START, es), more)
    ensures who(id).uid in Exec(who, Exec(who, START, es), more).system.hub.sessions
  {
    var w := Exec(who, START, es);
    ExecKeepsInv(who, START, es, id);
    ExecKeepsInv(who, w, more, id);
    HistoriesGrow(who, w, more);
  }

  lemma ExecCons(who: Who, w: World, e: Event, es: seq<Event>)
    requires Enabled(w, e) && Legal(who, Next(who, w, e), es)
    ensures Legal(who, w, [e] + es) && Exec(who, w, [e] + es) == Exec(who, Next(who, w, e), es)
  {
    assert ([e] + es)[1..] == es;
  }

  const STEP := OnSession(0, S.Step(S.Worker(0)))

  const LATE: seq<Event> := [STEP] + ([OnHub(L.TakeReg)] + [Register(0)])

  /** A connected session whose thread is about to push its removal, then the hub loop, then the
      registration. */
  lemma RemovalGoesFirst(who: Who, w: World)
    requires who(0).handle == 0
    requires 0 in w.sessions && S.Holds(w.sessions[0], S.Worker(0), S.HubRemove)
    requires w.system.register == [] && 0 in w.pending && 0 !in w.registered
    ensures Legal(who, w, LATE)
    ensures var r := Exec(who, w, LATE);
            && 0 in r.removedFirst && 0 in r.registered
            && 0 in r.sessions && r.sessions[0].core.connected == w.sessions[0].core.connected
  {
    RemovalsAfter(w.sessions[0], S.Step(S.Worker(0)));
    S.StepCounts(w.sessions[0].core, S.HubRemove);
    var w1 := Next(who, w, STEP);
    assert w1.system.register == [L.Unregister(who(0))];
    var w2 := Next(who, w1, OnHub(L.TakeReg));
    var w3 := Next(who, w2, Register(0));
    assert [Register(0)][1..] == [];
    assert Exec(who, w2, [Register(0)]) == w3;
    ExecCons(who, w1, OnHub(L.TakeReg), [Register(0)]);
    ExecCons(who, w, STEP, [OnHub(L.TakeReg)] + [Register(0)]);
  }

  function DeadSessionRun(): seq<Event> {
    [Open(0)] + ([Connect(0)] + ([OnSession(0, S.Spawn(0, S.DisconnectNow()))] + ([STEP] + LATE)))
  }

  /** Such a run: the session connects, its disconnect tests the connection and pushes the removal, the
      loop takes it, and only then it is registered. */
  lemma DeadSession(who: Who)
    requires who(0).handle == 0
    ensures Legal(who, START, DeadSessionRun())
    ensures var w := Exec(who, START, DeadSessionRun());
            && 0 in w.removedFirst && 0 in w.registered
            && 0 in w.sessions && !w.sessions[0].core.connected
  {
    var w1 := Next(who, START, Open(0));
    var w2 := Next(who, w1, Connect(0));
    var spawn := OnSession(0, S.Spawn(0, S.DisconnectNow()));
    var w3 := Next(who, w2, spawn);
    assert w3.sessions[0].threads[S.Worker(0)] == S.DisconnectNow();
    var w4 := Next(who, w3, STEP);
    assert w4.sessions[0].threads[S.Worker(0)] == [S.HubRemove, S.Enqueue] + S.DisconnectNow()[1..];
    RemovalGoesFirst(who, w4);
    ExecCons(who, w3, STEP, LATE);
    ExecCons(who, w2, spawn, [STEP] + LATE);
    ExecCons(who, w1, Connect(0), [spawn] + ([STEP] + LATE));
    ExecCons(who, START, Open(0), [Connect(0)] + ([spawn] + ([STEP] + LATE)));
  }
}
