/** The ticket semaphore of the RPC controller and its gauge of pending calls. Each of the five
    calls raises the gauge, takes a ticket, lowers the gauge, and gives the ticket back however it ends.
  */
module Tickets {

  const WORD := 0x1_0000_0000_0000_0000

  /** Waiting has raised the gauge and wants a ticket; Admitted has one and has not lowered the
      gauge; Calling has. */
  datatype Phase = Waiting | Admitted | Calling

  /** The configured concurrency, the tickets in the channel, the 64-bit gauge, and the callers. */
  datatype Office = Office(concurrency: nat, sem: nat, gauge: nat, callers: map<nat, Phase>)

  function Opened(concurrency: nat): Office {
    Office(concurrency, concurrency, 0, map[])
  }

  datatype Event =
    | Arrive(id: nat)
    | Acquire(id: nat)
    | Lower(id: nat)
    | Release(id: nat)

  predicate At(o: Office, id: nat, p: Phase) {
    id in o.callers && o.callers[id] == p
  }

  /** Sending a ticket back would wait if the channel were full. */
  predicate Enabled(o: Office, e: Event) {
    match e
    case Arrive(id) => id !in o.callers
    case Acquire(id) => At(o, id, Waiting) && o.sem > 0
    case Lower(id) => At(o, id, Admitted)
    case Release(id) => At(o, id, Calling) && o.sem < o.concurrency
  }

  function Next(o: Office, e: Event): Office
    requires Enabled(o, e)
  {
    match e
    case Arrive(id) => o.(gauge := (o.gauge + 1) % WORD, callers := o.callers[id := Waiting])
    case Acquire(id) => o.(sem := o.sem - 1, callers := o.callers[id := Admitted])
    case Lower(id) =>
      o.(gauge := (o.gauge + WORD - 1) % WORD, callers := o.callers[id := Calling])
    case Release(id) => o.(sem := o.sem + 1, callers := o.callers - {id})
  }

  predicate Legal(o: Office, es: seq<Event>)
    decreases |es|
  {
    es != [] ==> Enabled(o, es[0]) && Legal(Next(o, es[0]), es[1..])
  }

  function Exec(o: Office, es: seq<Event>): Office
    requires Legal(o, es)
    decreases |es|
  {
    if es == [] then o else Exec(Next(o, es[0]), es[1..])
  }

  /** The calls that hold a ticket. */
  function InFlight(o: Office): set<nat> {
    set id | id in o.callers && !At(o, id, Waiting)
  }

  /** The callers that have raised the gauge and not lowered it. */
  function Pending(o: Office): set<nat> {
    set id | id in o.callers && !At(o, id, Calling)
  }

  predicate Balanced(o: Office) {
    && o.sem + |InFlight(o)| == o.concurrency
    && o.gauge == |Pending(o)| % WORD
  }

  lemma MoveTo(o: Office, r: Office, id: nat, p: Phase)
    requires r.callers == o.callers[id := p]
    ensures InFlight(r) == if p.Waiting? then InFlight(o) - {id} else InFlight(o) + {id}
    ensures Pending(r) == if p.Calling? then Pending(o) - {id} else Pending(o) + {id}
  {
    forall x | x != id ensures At(r, x, Waiting) == At(o, x, Waiting) && At(r, x, Calling) == At(o, x, Calling) {}
  }

  /** Raising and lowering a wrapped count wraps the raised and lowered count. */
  lemma Wrapped(n: nat)
    ensures (n % WORD + 1) % WORD == (n + 1) % WORD
    ensures n > 0 ==> (n % WORD + WORD - 1) % WORD == (n - 1) % WORD
  {
    var q, r := n / WORD, n % WORD;
    assert n == q * WORD + r;
    if r == WORD - 1 {
      assert n + 1 == (q + 1) * WORD;
    }
  }

  /** How a step changes the number of calls in flight and of pending callers. */
  lemma Movements(o: Office, e: Event)
    requires Enabled(o, e)
    ensures |InFlight(Next(o, e))| == |InFlight(o)| + (if e.Acquire? then 1 else if e.Release? then -1 else 0)
    ensures |Pending(Next(o, e))| == |Pending(o)| + (if e.Arrive? then 1 else if e.Lower? then -1 else 0)
  {
    match e
    case Arrive(id) => ArriveMoves(o, id);
    case Acquire(id) => AcquireMoves(o, id);
    case Lower(id) => LowerMoves(o, id);
    case Release(id) => ReleaseKeeps(o, Next(o, e), id);
  }

  lemma ArriveMoves(o: Office, id: nat)
    requires Enabled(o, Arrive(id))
    ensures var r := Next(o, Arrive(id));
            InFlight(r) == InFlight(o) && |Pending(r)| == |Pending(o)| + 1
  {
    var r := Next(o, Arrive(id));
    MoveTo(o, r, id, Waiting);
    assert id !in InFlight(o) && id !in Pending(o);
  }

  lemma AcquireMoves(o: Office, id: nat)
    requires Enabled(o, Acquire(id))
    ensures var r := Next(o, Acquire(id));
            |InFlight(r)| == |InFlight(o)| + 1 && Pending(r) == Pending(o)
  {
    var r := Next(o, Acquire(id));
    MoveTo(o, r, id, r.callers[id]);
    assert id !in InFlight(o) && id in Pending(o);
  }

  lemma LowerMoves(o: Office, id: nat)
    requires Enabled(o, Lower(id))
    ensures var r := Next(o, Lower(id));
            InFlight(r) == InFlight(o) && |Pending(r)| == |Pending(o)| - 1
  {
    var r := Next(o, Lower(id));
    MoveTo(o, r, id, r.callers[id]);
    assert id in InFlight(o) && id in Pending(o);
  }

  lemma NextKeepsBalanced(o: Office, e: Event)
    requires Balanced(o) && Enabled(o, e)
    ensures Balanced(Next(o, e))
  {
    Wrapped(|Pending(o)|);
    Movements(o, e);
    match e
    case Arrive(id) =>
    case Acquire(id) =>
    case Lower(id) =>
    case Release(id) =>
  }

  lemma ReleaseKeeps(o: Office, r: Office, id: nat)
    requires At(o, id, Calling) && r.callers == o.callers - {id}
    ensures |InFlight(r)| == |InFlight(o)| - 1 && Pending(r) == Pending(o)
  {
    forall x | x != id ensures At(r, x, Waiting) == At(o, x, Waiting) && At(r, x, Calling) == At(o, x, Calling) {}
    assert id in InFlight(o) && InFlight(r) == InFlight(o) - {id};
  }

  lemma {:induction false} ExecKeepsBalanced(o: Office, es: seq<Event>)
    requires Balanced(o) && Legal(o, es)
    ensures Balanced(Exec(o, es)) && Exec(o, es).concurrency == o.concurrency
    decreases |es|
  {
    if es != [] {
      NextKeepsBalanced(o, es[0]);
      ExecKeepsBalanced(Next(o, es[0]), es[1..]);
    }
  }

  function Busy(o: Office): int {
    o.concurrency - o.sem
  }

  /** In every run of calls of all kinds: free tickets and calls in flight make up the concurrency,
      busy is the number in flight, giving a ticket back never waits, and the gauge is the number
      of pending callers, so lowering it never goes below zero. */
  lemma TicketsConserved(concurrency: nat, es: seq<Event>)
    requires Legal(Opened(concurrency), es)
    ensures var o := Exec(Opened(concurrency), es);
            && o.sem + |InFlight(o)| == concurrency
            && Busy(o) == |InFlight(o)|
            && (forall id :: At(o, id, Calling) ==> Enabled(o, Release(id)))
            && (|Pending(o)| < WORD ==>
                  && o.gauge == |Pending(o)|
                  && forall id :: Enabled(o, Lower(id)) ==> Next(o, Lower(id)).gauge == o.gauge - 1)
  {
    var start := Opened(concurrency);
    assert InFlight(start) == {} && Pending(start) == {};
    ExecKeepsBalanced(start, es);
    var o := Exec(start, es);
    forall id | At(o, id, Calling) ensures Enabled(o, Release(id)) {
      assert id in InFlight(o);
    }
    forall id | Enabled(o, Lower(id)) && |Pending(o)| < WORD ensures Next(o, Lower(id)).gauge == o.gauge - 1 {
      assert id in Pending(o);
      assert (o.gauge + WORD - 1) % WORD == (o.gauge - 1 + WORD) % WORD == o.gauge - 1;
    }
  }
}
