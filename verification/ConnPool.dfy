/** The channel-based connection pool. Get, Put and Close are split where they take or drop the
    pool's lock or touch the channel; every interleaving of callers is a run. Each lease is
    returned once.
  */
module ConnPoolModel {

  /** Connections by the order of their creation. */
  type Conn = nat

  datatype Closer = NotCalled | Unlinked | Draining | Finished

  /** The field `conns` (nil or not), the channel behind it, the factory, and the callers: how many
      of Get stand before the select, how many before the factory call, which connections are on
      their way out of Get, and which are leased. Plus what was created and what was closed. */
  datatype Pool = Pool(
    maxCap: nat,
    connsSet: bool,
    chanClosed: bool,
    idle: seq<Conn>,
    factorySet: bool,
    activeCount: int,
    selecting: nat,
    creating: nat,
    transit: set<Conn>,
    leased: set<Conn>,
    closer: Closer,
    created: nat,
    closed: seq<Conn>,
    channelPanic: bool,
    factoryPanic: bool)

  function Fresh(maxCap: nat): Pool {
    Pool(maxCap, true, false, [], true, 0, 0, 0, {}, {}, NotCalled, 0, [], false, false)
  }

  datatype Event =
    | Fill                       // the constructor puts in a new connection
    | GetConns
    | GetSelect
    | GetCreate(made: bool)
    | GetWrap(conn: Conn)
    | Put(conn: Conn)
    | CloseUnlink
    | CloseChannel
    | CloseTake
    | CloseEnd

  predicate Enabled(p: Pool, e: Event) {
    match e
    case Fill => p.connsSet && p.factorySet && |p.idle| < p.maxCap
    case GetConns => true
    case GetSelect => p.selecting > 0
    case GetCreate(_) => p.creating > 0
    case GetWrap(c) => c in p.transit
    case Put(c) => c in p.leased
    case CloseUnlink => true
    case CloseChannel => p.closer.Unlinked?
    case CloseTake => p.closer.Draining? && p.idle != []
    case CloseEnd => p.closer.Draining? && p.idle == []
  }

  function Next(p: Pool, e: Event): Pool
    requires Enabled(p, e)
  {
    match e
    case Fill => p.(idle := p.idle + [p.created], created := p.created + 1)
    case GetConns => if p.connsSet then p.(selecting := p.selecting + 1) else p
    case GetSelect =>
      var q := p.(selecting := p.selecting - 1);
      if p.idle != [] then q.(idle := p.idle[1..], transit := p.transit + {p.idle[0]})
      else if p.chanClosed then q
      else q.(creating := p.creating + 1)
    case GetCreate(made) =>
      var q := p.(creating := p.creating - 1);
      if !p.factorySet then q.(factoryPanic := true)
      else if !made then q
      else q.(transit := p.transit + {p.created}, created := p.created + 1)
    case GetWrap(c) => p.(transit := p.transit - {c}, leased := p.leased + {c}, activeCount := p.activeCount + 1)
    case Put(c) =>
      var q := p.(leased := p.leased - {c}, activeCount := p.activeCount - 1);
      if !p.connsSet then q.(closed := p.closed + [c])
      else if p.chanClosed then q.(channelPanic := true)
      else if |p.idle| < p.maxCap then q.(idle := p.idle + [c])
      else q.(closed := p.closed + [c])
    case CloseUnlink =>
      p.(connsSet := false, factorySet := false, closer := if p.connsSet then Unlinked else p.closer)
    case CloseChannel =>
      if p.chanClosed then p.(channelPanic := true) else p.(chanClosed := true, closer := Draining)
    case CloseTake => p.(idle := p.idle[1..], closed := p.closed + [p.idle[0]])
    case CloseEnd => p.(closer := Finished)
  }

  predicate Legal(p: Pool, es: seq<Event>)
    decreases |es|
  {
    es != [] ==> Enabled(p, es[0]) && Legal(Next(p, es[0]), es[1..])
  }

  function Exec(p: Pool, es: seq<Event>): Pool
    requires Legal(p, es)
    decreases |es|
  {
    if es == [] then p else Exec(Next(p, es[0]), es[1..])
  }

  lemma {:induction false} ExecAppend(p: Pool, a: seq<Event>, b: seq<Event>)
    requires Legal(p, a) && Legal(Exec(p, a), b)
    ensures Legal(p, a + b) && Exec(p, a + b) == Exec(Exec(p, a), b)
    decreases |a|
  {
    if a == [] {
      assert a + b == b;
    } else {
      assert (a + b)[1..] == a[1..] + b;
      ExecAppend(Next(p, a[0]), a[1..], b);
    }
  }

  lemma ExecThen(p: Pool, a: seq<Event>, e: Event)
    requires Legal(p, a) && Enabled(Exec(p, a), e)
    ensures Legal(p, a + [e]) && Exec(p, a + [e]) == Next(Exec(p, a), e)
  {
    assert [e][1..] == [];
    ExecAppend(p, a, [e]);
  }

  // ----- Where the connections are -----

  /** How many times a connection occurs among idle, in transit, leased and closed. */
  function Places(p: Pool, c: Conn): nat {
    multiset(p.idle)[c] + multiset(p.closed)[c] + (if c in p.transit then 1 else 0) + (if c in p.leased then 1 else 0)
  }

  /** A created connection is in one place only, any other in none. */
  predicate Whole(p: Pool, c: Conn) {
    Places(p, c) == if c < p.created then 1 else 0
  }

  ghost predicate Partitioned(p: Pool) {
    forall c: Conn :: Whole(p, c)
  }

  /** The state of the channel follows the closer. */
  predicate Consistent(p: Pool) {
    && |p.idle| <= p.maxCap
    && !p.channelPanic
    && p.connsSet == p.factorySet == p.closer.NotCalled?
    && (p.chanClosed <==> p.closer.Draining? || p.closer.Finished?)
    && (p.closer.Finished? ==> p.idle == [])
    && p.activeCount == |p.leased|
  }

  ghost predicate Inv(p: Pool) {
    Partitioned(p) && Consistent(p)
  }

  lemma NextKeepsConsistent(p: Pool, e: Event)
    requires Inv(p) && Enabled(p, e)
    ensures Consistent(Next(p, e))
  {
    match e
    case GetWrap(c) =>
      assert Whole(p, c);
      assert c !in p.leased;
    case Put(c) =>
    case _ =>
  }

  lemma HeadCounts(s: seq<Conn>, c: Conn)
    requires s != []
    ensures multiset(s)[c] == multiset(s[1..])[c] + (if c == s[0] then 1 else 0)
  {
    assert s == [s[0]] + s[1..];
  }

  lemma TailCounts(s: seq<Conn>, x: Conn, c: Conn)
    ensures multiset(s + [x])[c] == multiset(s)[c] + (if c == x then 1 else 0)
  {}

  lemma FillWhole(p: Pool, c: Conn)
    requires Whole(p, c) && Enabled(p, Fill)
    ensures Whole(Next(p, Fill), c)
  {
    TailCounts(p.idle, p.created, c);
  }

  lemma SelectWhole(p: Pool, c: Conn)
    requires Whole(p, c) && Enabled(p, GetSelect)
    ensures Whole(Next(p, GetSelect), c)
  {
    if p.idle != [] {
      HeadCounts(p.idle, c);
    }
  }

  lemma CreateWhole(p: Pool, made: bool, c: Conn)
    requires Whole(p, c) && Enabled(p, GetCreate(made))
    ensures Whole(Next(p, GetCreate(made)), c)
  {}

  lemma WrapWhole(p: Pool, x: Conn, c: Conn)
    requires Whole(p, c) && Enabled(p, GetWrap(x))
    ensures Whole(Next(p, GetWrap(x)), c)
  {}

  lemma PutWhole(p: Pool, x: Conn, c: Conn)
    requires Whole(p, c) && Enabled(p, Put(x)) && Consistent(p)
    ensures Whole(Next(p, Put(x)), c)
  {
    TailCounts(p.idle, x, c);
    TailCounts(p.closed, x, c);
  }

  lemma TakeWhole(p: Pool, c: Conn)
    requires Whole(p, c) && Enabled(p, CloseTake)
    ensures Whole(Next(p, CloseTake), c)
  {
    HeadCounts(p.idle, c);
    TailCounts(p.closed, p.idle[0], c);
  }

  lemma NextWhole(p: Pool, e: Event, c: Conn)
    requires Whole(p, c) && Consistent(p) && Enabled(p, e)
    ensures Whole(Next(p, e), c)
  {
    match e
    case Fill => FillWhole(p, c);
    case GetSelect => SelectWhole(p, c);
    case GetCreate(made) => CreateWhole(p, made, c);
    case GetWrap(x) => WrapWhole(p, x, c);
    case Put(x) => PutWhole(p, x, c);
    case CloseTake => TakeWhole(p, c);
    case _ =>
  }

  lemma NextKeepsInv(p: Pool, e: Event)
    requires Inv(p) && Enabled(p, e)
    ensures Inv(Next(p, e))
  {
    NextKeepsConsistent(p, e);
    forall c: Conn ensures Whole(Next(p, e), c) {
      assert Whole(p, c);
      NextWhole(p, e, c);
    }
  }

  lemma {:induction false} ExecKeepsInv(p: Pool, es: seq<Event>)
    requires Inv(p) && Legal(p, es)
    ensures Inv(Exec(p, es))
    decreases |es|
  {
    if es != [] {
      NextKeepsInv(p, es[0]);
      ExecKeepsInv(Next(p, es[0]), es[1..]);
    }
  }

  /** In every interleaving each created connection is idle, in transit, leased or closed, and
      only one of these and once; idle connections fit the capacity, no send or close hits a closed channel,
      the counter is the number of leases, and once Close is through and everything is handed back
      each connection has been closed exactly once. */
  lemma PoolPartition(maxCap: nat, es: seq<Event>)
    requires Legal(Fresh(maxCap), es)
    ensures var p := Exec(Fresh(maxCap), es);
            && (forall c: Conn :: Whole(p, c))
            && |p.idle| <= p.maxCap && !p.channelPanic && p.activeCount == |p.leased|
            && (p.closer.Finished? && p.transit == {} && p.leased == {} ==>
                  forall c: Conn :: multiset(p.closed)[c] == if c < p.created then 1 else 0)
  {
    ExecKeepsInv(Fresh(maxCap), es);
    var p := Exec(Fresh(maxCap), es);
    if p.closer.Finished? && p.transit == {} && p.leased == {} {
      forall c: Conn ensures multiset(p.closed)[c] == if c < p.created then 1 else 0 {
        assert Whole(p, c);
      }
    }
  }

  /** Once Close has taken the lock no connection is made and no Get starts: those under way only
      get fewer. */
  lemma {:induction false} ClosedStartsNothing(p: Pool, es: seq<Event>)
    requires Inv(p) && !p.connsSet && Legal(p, es)
    ensures var q := Exec(p, es);
            !q.connsSet && q.created == p.created && q.selecting + q.creating <= p.selecting + p.creating
    decreases |es|
  {
    if es != [] {
      NextKeepsInv(p, es[0]);
      ClosedStartsNothing(Next(p, es[0]), es[1..]);
    }
  }

  // ----- The nil factory -----

  /** Once the channel is closed, a Get that selects finds a connection or gives up: no more of them come
      to a factory call. */
  lemma {:induction false} ClosedChannelEndsGets(p: Pool, es: seq<Event>)
    requires p.chanClosed && Legal(p, es)
    ensures Exec(p, es).chanClosed && Exec(p, es).creating <= p.creating
    decreases |es|
  {
    if es != [] {
      ClosedChannelEndsGets(Next(p, es[0]), es[1..]);
    }
  }

  /** A factory call that comes after Close has taken the lock. */
  ghost predicate CreatesAfterClose(es: seq<Event>) {
    exists i, j :: 0 <= i < j < |es| && es[i].CloseUnlink? && es[j].GetCreate?
  }

  ghost predicate Creates(es: seq<Event>) {
    exists j :: 0 <= j < |es| && es[j].GetCreate?
  }

  lemma CreatesCons(es: seq<Event>)
    requires es != []
    ensures Creates(es) <==> es[0].GetCreate? || Creates(es[1..])
    ensures CreatesAfterClose(es) <==> (es[0].CloseUnlink? && Creates(es[1..])) || CreatesAfterClose(es[1..])
  {
    if Creates(es[1..]) {
      var j :| 0 <= j < |es[1..]| && es[1..][j].GetCreate?;
      assert es[j + 1].GetCreate?;
    }
    if Creates(es) && !es[0].GetCreate? {
      var j :| 0 <= j < |es| && es[j].GetCreate?;
      assert es[1..][j - 1].GetCreate?;
    }
    if CreatesAfterClose(es[1..]) {
      var i, j :| 0 <= i < j < |es[1..]| && es[1..][i].CloseUnlink? && es[1..][j].GetCreate?;
      assert es[i + 1].CloseUnlink? && es[j + 1].GetCreate?;
    }
    if CreatesAfterClose(es) {
      var i, j :| 0 <= i < j < |es| && es[i].CloseUnlink? && es[j].GetCreate?;
      assert es[1..][j - 1].GetCreate?;
      if i > 0 {
        assert es[1..][i - 1].CloseUnlink?;
      }
    }
  }

  lemma {:induction false} NilFactoryFrom(p: Pool, es: seq<Event>)
    requires Inv(p) && Legal(p, es)
    ensures Exec(p, es).factoryPanic <==>
            p.factoryPanic || CreatesAfterClose(es) || (!p.connsSet && Creates(es))
    decreases |es|
  {
    if es != [] {
      NextKeepsInv(p, es[0]);
      NilFactoryFrom(Next(p, es[0]), es[1..]);
      CreatesCons(es);
    }
  }

  /** In every interleaving a nil factory is called if and only if some Get that found the channel
      empty comes to its factory call after Close has taken the lock. */
  lemma NilFactoryIff(maxCap: nat, es: seq<Event>)
    requires Legal(Fresh(maxCap), es)
    ensures Exec(Fresh(maxCap), es).factoryPanic <==> CreatesAfterClose(es)
  {
    NilFactoryFrom(Fresh(maxCap), es);
  }

  /** Such an interleaving exists on any fresh pool. */
  lemma NilFactoryReachable(maxCap: nat)
    ensures var es := [GetConns, GetSelect, CloseUnlink, GetCreate(true)];
            Legal(Fresh(maxCap), es) && Exec(Fresh(maxCap), es).factoryPanic
  {
    var p := Fresh(maxCap);
    var p1 := Next(p, GetConns);
    var p2 := Next(p1, GetSelect);
    var p3 := Next(p2, CloseUnlink);
    var p4 := Next(p3, GetCreate(true));
    assert p1.selecting == 1 && p2.creating == 1 && !p3.factorySet && p4.factoryPanic;
    var es := [GetConns, GetSelect, CloseUnlink, GetCreate(true)];
    assert es[1..] == [GetSelect, CloseUnlink, GetCreate(true)];
    assert es[1..][1..] == [CloseUnlink, GetCreate(true)];
    assert es[1..][1..][1..] == [GetCreate(true)];
    assert es[1..][1..][1..][1..] == [];
    assert Legal(p4, []) && Legal(p3, [GetCreate(true)]) && Legal(p2, [CloseUnlink, GetCreate(true)]);
  }
}

/** The pool object. Each method, run without interference, is a run of the model's steps, given
    as its ghost result. */
module ConnPool {
  import opened Basics
  import opened ConnPoolModel

  class ChannelPool {
    const maxCap: nat
    var connsSet: bool
    var chanClosed: bool
    var idle: seq<Conn>
    var factorySet: bool
    var activeCount: int
    var created: nat
    ghost var transit: set<Conn>
    ghost var leased: set<Conn>
    ghost var closer: Closer
    ghost var closed: seq<Conn>

    ghost function View(): Pool
      reads this
    {
      Pool(maxCap, connsSet, chanClosed, idle, factorySet, activeCount, 0, 0, transit, leased, closer,
           created, closed, false, false)
    }

    constructor (maxCap: nat)
      ensures View() == Fresh(maxCap)
    {
      this.maxCap := maxCap;
      connsSet, chanClosed, idle, factorySet, activeCount, created := true, false, [], true, 0, 0;
      transit, leased, closer, closed := {}, {}, NotCalled, [];
    }

    /** The select of Get: an idle connection if there is one, else a new one if the factory makes one. */
    method Select(made: bool) returns (conn: Option<Conn>, ghost trace: seq<Event>)
      requires Inv(View()) && transit == {} && connsSet
      modifies this
      ensures Legal(old(View()), trace) && View() == Exec(old(View()), trace)
      ensures conn.Some? <==> old(idle) != [] || made
      ensures conn.Some? ==> conn.value == if old(idle) != [] then old(idle)[0] else old(created)
      ensures transit == (if conn.Some? then {conn.value} else {}) && leased == old(leased) && closed == old(closed)
    {
      ghost var start := View();
      ExecThen(start, [], GetConns);
      ExecThen(start, [] + [GetConns], GetSelect);
      trace := [] + [GetConns] + [GetSelect];
      if idle != [] {
        conn, transit, idle := Some(idle[0]), {idle[0]}, idle[1..];
        return;
      }
      ExecThen(start, trace, GetCreate(made));
      trace := trace + [GetCreate(made)];
      if !made {
        return None, trace;
      }
      conn, transit, created := Some(created), {created}, created + 1;
    }

    method WrapConn(conn: Conn)
      requires transit == {conn}
      modifies this
      ensures View() == Next(old(View()), GetWrap(conn))
      ensures transit == {}
    {
      transit, leased, activeCount := {}, leased + {conn}, activeCount + 1;
    }

    method Get(made: bool) returns (conn: Option<Conn>, ghost trace: seq<Event>)
      requires Inv(View()) && transit == {}
      modifies this
      ensures Legal(old(View()), trace) && View() == Exec(old(View()), trace)
      ensures conn.Some? <==> old(connsSet) && (old(idle) != [] || made)
      ensures conn.Some? ==>
                && conn.value !in old(leased) && leased == old(leased) + {conn.value}
                && conn.value == if old(idle) != [] then old(idle)[0] else old(created)
      ensures transit == {} && closed == old(closed)
    {
      if !connsSet {
        return None, [];
      }
      ghost var start := View();
      conn, trace := Select(made);
      if conn.Some? {
        assert Whole(start, conn.value);
        ExecThen(start, trace, GetWrap(conn.value));
        trace := trace + [GetWrap(conn.value)];
        WrapConn(conn.value);
      }
    }

    /** Back into the channel while it is open and has room, else closed. */
    method Put(conn: Conn)
      requires Inv(View()) && conn in leased
      modifies this
      ensures View() == Next(old(View()), ConnPoolModel.Put(conn))
      ensures leased == old(leased) - {conn} && activeCount == old(activeCount) - 1
      ensures if old(connsSet) && |old(idle)| < maxCap
              then idle == old(idle) + [conn] && closed == old(closed)
              else idle == old(idle) && closed == old(closed) + [conn]
    {
      activeCount, leased := activeCount - 1, leased - {conn};
      if !connsSet {
        closed := closed + [conn];
        return;
      }
      if |idle| < maxCap {
        idle := idle + [conn];
      } else {
        closed := closed + [conn];
      }
    }

    /** The loop of Close over what the closed channel still holds. */
    method DrainIdle() returns (ghost trace: seq<Event>)
      requires closer.Draining?
      modifies this
      ensures Legal(old(View()), trace) && View() == Exec(old(View()), trace)
      ensures idle == [] && closed == old(closed) + old(idle) && closer.Finished?
      ensures leased == old(leased) && transit == old(transit)
    {
      trace := [];
      while idle != []
        invariant Legal(old(View()), trace) && View() == Exec(old(View()), trace)
        invariant closer.Draining? && closed + idle == old(closed) + old(idle)
        invariant leased == old(leased) && transit == old(transit)
        decreases |idle|
      {
        ExecThen(old(View()), trace, CloseTake);
        trace := trace + [CloseTake];
        closed, idle := closed + [idle[0]], idle[1..];
      }
      ExecThen(old(View()), trace, CloseEnd);
      trace := trace + [CloseEnd];
      closer := Finished;
    }

    /** Closes all idle connections, in order; a second call does nothing. */
    method Close() returns (ghost trace: seq<Event>)
      requires Inv(View())
      modifies this
      ensures Legal(old(View()), trace) && View() == Exec(old(View()), trace)
      ensures old(connsSet) ==> idle == [] && closed == old(closed) + old(idle) && closer.Finished?
      ensures !old(connsSet) ==> View() == old(View())
      ensures leased == old(leased) && transit == old(transit)
    {
      var conns := connsSet;
      ghost var start := View();
      connsSet, factorySet := false, false;
      if !conns {
        return [];
      }
      closer := Unlinked;
      ExecThen(start, [], CloseUnlink);
      ExecThen(start, [] + [CloseUnlink], CloseChannel);
      chanClosed, closer := true, Draining;
      ghost var rest := DrainIdle();
      ExecAppend(start, [] + [CloseUnlink] + [CloseChannel], rest);
      trace := [] + [CloseUnlink] + [CloseChannel] + rest;
    }

    /** `makes(i)` says whether the factory makes the i-th connection. A pool results exactly when
        the capacities are valid and every initial connection is made; it then holds them all. */
    static method NewChannelPool(initialCap: int, maxCap: int, makes: nat -> bool) returns (pool: Option<ChannelPool>)
      ensures pool.Some? <==>
              0 <= initialCap <= maxCap && 0 < maxCap && forall i :: 0 <= i < initialCap ==> makes(i)
      ensures pool.Some? ==>
                && fresh(pool.value) && Inv(pool.value.View()) && pool.value.maxCap == maxCap
                && |pool.value.idle| == initialCap == pool.value.created
                && pool.value.connsSet && pool.value.leased == {} && pool.value.closed == []
    {
      if initialCap < 0 || maxCap <= 0 || initialCap > maxCap {
        return None;
      }
      var c := new ChannelPool(maxCap);
      assert Inv(c.View());
      for i := 0 to initialCap
        invariant fresh(c) && Inv(c.View()) && |c.idle| == i == c.created
        invariant c.connsSet && c.factorySet && c.leased == {} && c.closed == []
        invariant forall k :: 0 <= k < i ==> makes(k)
      {
        if !makes(i) {
          var _ := c.Close();
          return None;
        }
        NextKeepsInv(c.View(), Fill);
        ghost var filled := Next(c.View(), Fill);
        c.idle, c.created := c.idle + [c.created], c.created + 1;
        assert c.View() == filled;
      }
      pool := Some(c);
    }
  }
}
