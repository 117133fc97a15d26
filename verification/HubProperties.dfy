/** What every run of hub operations keeps: the forward index denotes a relation of
    (stream, session, channel) triples, the reverse index covers it, removal leaves
    no trace, and the identifier index agrees with the sessions.
  */
module HubProperties {
  import opened HubModel

  datatype Triple = Triple(stream: Stream, sid: Sid, channel: Channel)

  predicate InRow(h: Maps, st: Stream, sid: Sid) {
    st in h.streams && sid in h.streams[st]
  }

  /** The relation the forward index denotes. */
  predicate Has(h: Maps, t: Triple) {
    InRow(h, t.stream, t.sid) && t.channel in h.streams[t.stream][t.sid]
  }

  /** The reverse index mentions `st` for this session and channel. */
  predicate Recorded(h: Maps, sid: Sid, c: Channel, st: Stream) {
    c in ListsOf(h, sid) && st in ListsOf(h, sid)[c]
  }

  /** Every session key of the forward index, also one with no channel left, is
      listed under some channel; every triple is listed under its own. */
  ghost predicate Covered(h: Maps) {
    && (forall st, sid :: InRow(h, st, sid) ==> exists c :: Recorded(h, sid, c, st))
    && (forall t :: Has(h, t) ==> Recorded(h, t.sid, t.channel, t.stream))
  }

  // ----- Pruning in terms of triples -----

  predicate Listed(lists: Lists, c: Channel, st: Stream) {
    c in lists && st in lists[c]
  }

  lemma DropFromRowAt(row: Row, sid: Sid, dropped: set<Channel>, other: Sid)
    ensures var r := DropFromRow(row, sid, dropped);
            && (other in r <==> other in row && !(other == sid && row[sid] <= dropped))
            && (other in r ==> r[other] == if other == sid then row[sid] - dropped else row[other])
            && (other in r ==> r != map[])
  {
    if sid in row {
      assert row[sid] <= dropped <==> row[sid] - dropped == {} by {
        if row[sid] - dropped == {} {
          forall c | c in row[sid] ensures c in dropped {
            assert c !in row[sid] - dropped;
          }
        }
      }
    }
  }

  /** Pruning removes exactly the listed triples of the session. */
  lemma PruneHas(h: Maps, sid: Sid, lists: Lists, t: Triple)
    ensures Has(h.(streams := Prune(h.streams, sid, lists)), t) <==>
            Has(h, t) && !(t.sid == sid && Listed(lists, t.channel, t.stream))
  {
    PruneAt(h.streams, sid, lists, t.stream);
    assert t.channel in Touched(lists, t.stream) <==> Listed(lists, t.channel, t.stream);
    if t.stream in h.streams {
      DropFromRowAt(h.streams[t.stream], sid, Touched(lists, t.stream), t.sid);
    }
  }

  /** Pruning drops the session's key exactly from the listed streams where nothing else of it
      is left, and touches no other session's key. */
  lemma PruneInRow(h: Maps, sid: Sid, lists: Lists, st: Stream, other: Sid)
    ensures var g := h.(streams := Prune(h.streams, sid, lists));
            && (InRow(g, st, other) <==>
                InRow(h, st, other) &&
                !(other == sid && Touched(lists, st) != {} && h.streams[st][sid] <= Touched(lists, st)))
            && (InRow(g, st, other) && other != sid ==> g.streams[st][other] == h.streams[st][other])
  {
    PruneAt(h.streams, sid, lists, st);
    if st in h.streams {
      DropFromRowAt(h.streams[st], sid, Touched(lists, st), other);
    }
  }

  // ----- Coverage -----

  lemma RemovalLeavesNoRow(h: Maps, sid: Sid, st: Stream)
    requires Covered(h)
    ensures !InRow(UnsubscribeFromAllChannels(h, sid), st, sid)
  {
    var lists := ListsOf(h, sid);
    PruneInRow(h, sid, lists, st, sid);
    if InRow(h, st, sid) {
      var c :| Recorded(h, sid, c, st);
      assert c in Touched(lists, st);
      forall d | d in h.streams[st][sid] ensures d in Touched(lists, st) {
        assert Has(h, Triple(st, sid, d));
      }
    }
  }

  lemma CoveredAfterPrune(h: Maps, sid: Sid, lists: Lists)
    requires Covered(h)
    ensures Covered(h.(streams := Prune(h.streams, sid, lists)))
  {
    var g := h.(streams := Prune(h.streams, sid, lists));
    forall st, other | InRow(g, st, other) ensures exists c :: Recorded(g, other, c, st) {
      PruneInRow(h, sid, lists, st, other);
      var c :| Recorded(h, other, c, st);
      assert Recorded(g, other, c, st);
    }
    forall t | Has(g, t) ensures Recorded(g, t.sid, t.channel, t.stream) {
      PruneHas(h, sid, lists, t);
      assert Recorded(h, t.sid, t.channel, t.stream);
    }
  }

  lemma CoveredAfterRemovingAll(h: Maps, sid: Sid)
    requires Covered(h)
    ensures Covered(UnsubscribeFromAllChannels(h, sid))
  {
    var g := UnsubscribeFromAllChannels(h, sid);
    var p := h.(streams := Prune(h.streams, sid, ListsOf(h, sid)));
    CoveredAfterPrune(h, sid, ListsOf(h, sid));
    forall st, other | InRow(g, st, other) ensures exists c :: Recorded(g, other, c, st) {
      RemovalLeavesNoRow(h, sid, st);
      assert InRow(p, st, other);
      var c :| Recorded(p, other, c, st);
      assert Recorded(g, other, c, st);
    }
    forall t | Has(g, t) ensures Recorded(g, t.sid, t.channel, t.stream) {
      RemovalLeavesNoRow(h, sid, t.stream);
      assert Has(p, t);
      assert Recorded(p, t.sid, t.channel, t.stream);
    }
  }

  lemma SubscribeRecords(h: Maps, sid: Sid, st: Stream, c: Channel, other: Sid, d: Channel, x: Stream)
    ensures Recorded(Subscribe(h, sid, st, c), other, d, x) <==>
            Recorded(h, other, d, x) || (other == sid && d == c && x == st)
  {}

  lemma SubscribeHas(h: Maps, sid: Sid, st: Stream, c: Channel, t: Triple)
    ensures Has(Subscribe(h, sid, st, c), t) <==> Has(h, t) || t == Triple(st, sid, c)
    ensures forall x, other :: InRow(Subscribe(h, sid, st, c), x, other) <==>
                               InRow(h, x, other) || (x == st && other == sid)
  {}

  lemma CoveredAfterSubscribe(h: Maps, sid: Sid, st: Stream, c: Channel)
    requires Covered(h)
    ensures Covered(Subscribe(h, sid, st, c))
  {
    var g := Subscribe(h, sid, st, c);
    forall x, other | InRow(g, x, other) ensures exists d :: Recorded(g, other, d, x) {
      SubscribeHas(h, sid, st, c, Triple(x, other, c));
      if InRow(h, x, other) {
        var d :| Recorded(h, other, d, x);
        SubscribeRecords(h, sid, st, c, other, d, x);
      } else {
        SubscribeRecords(h, sid, st, c, sid, c, st);
      }
    }
    forall t | Has(g, t) ensures Recorded(g, t.sid, t.channel, t.stream) {
      SubscribeHas(h, sid, st, c, t);
      SubscribeRecords(h, sid, st, c, t.sid, t.channel, t.stream);
      if Has(h, t) {
        assert Recorded(h, t.sid, t.channel, t.stream);
      }
    }
  }

  lemma UnsubscribeHas(h: Maps, sid: Sid, st: Stream, c: Channel, t: Triple)
    ensures Has(Unsubscribe(h, sid, st, c), t) <==> Has(h, t) && t != Triple(st, sid, c)
    ensures forall x, other :: InRow(Unsubscribe(h, sid, st, c), x, other) <==> InRow(h, x, other)
  {}

  lemma ApplyKeepsCovered(h: Maps, e: Event)
    requires Covered(h)
    ensures Covered(Apply(h, e))
  {
    match e
    case Add(s) =>
      SameIndexesSameCoverage(h, Apply(h, e));
    case Remove(s) =>
      if s.uid in h.sessions {
        CoveredAfterRemovingAll(h, s.uid);
        SameIndexesSameCoverage(UnsubscribeFromAllChannels(h, s.uid), Apply(h, e));
      }
    case Sub(sid, st, c) => CoveredAfterSubscribe(h, sid, st, c);
    case Unsub(sid, st, c) =>
      var g := Apply(h, e);
      forall x, other | InRow(g, x, other) ensures exists d :: Recorded(g, other, d, x) {
        UnsubscribeHas(h, sid, st, c, Triple(x, other, c));
        var d :| Recorded(h, other, d, x);
        assert Recorded(g, other, d, x);
      }
      forall t | Has(g, t) ensures Recorded(g, t.sid, t.channel, t.stream) {
        UnsubscribeHas(h, sid, st, c, t);
        assert Recorded(h, t.sid, t.channel, t.stream);
      }
    case UnsubChannel(sid, c) =>
      CoveredAfterPrune(h, sid, map[c := StreamsOf(h, sid, c)]);
  }

  lemma SameIndexesSameCoverage(h: Maps, g: Maps)
    requires g.streams == h.streams && g.sessionsStreams == h.sessionsStreams
    requires Covered(h)
    ensures Covered(g)
  {
    forall st, sid | InRow(g, st, sid) ensures exists c :: Recorded(g, sid, c, st) {
      assert InRow(h, st, sid);
      var c :| Recorded(h, sid, c, st);
      assert Recorded(g, sid, c, st);
    }
    forall t | Has(g, t) ensures Recorded(g, t.sid, t.channel, t.stream) {
      assert Has(h, t);
    }
  }

  /** In every reachable state the reverse index covers the forward index. */
  lemma {:induction false} RunKeepsCovered(h: Maps, es: seq<Event>)
    requires Covered(h)
    ensures Covered(Run(h, es))
    decreases |es|
  {
    if es != [] {
      ApplyKeepsCovered(h, es[0]);
      RunKeepsCovered(Apply(h, es[0]), es[1..]);
    }
  }

  // ----- Refinement of the plain relation -----

  /** The hub as a set of registered ids and a set of triples; no second index. */
  datatype Plain = Plain(registered: set<Sid>, triples: set<Triple>)

  function PlainApply(p: Plain, e: Event): Plain {
    match e
    case Add(s) => p.(registered := p.registered + {s.uid})
    case Remove(s) =>
      if s.uid !in p.registered then p
      else Plain(p.registered - {s.uid}, set t | t in p.triples && t.sid != s.uid)
    case Sub(sid, st, c) => p.(triples := p.triples + {Triple(st, sid, c)})
    case Unsub(sid, st, c) => p.(triples := p.triples - {Triple(st, sid, c)})
    case UnsubChannel(sid, c) => p.(triples := set t | t in p.triples && !(t.sid == sid && t.channel == c))
  }

  function PlainRun(p: Plain, es: seq<Event>): Plain
    decreases |es|
  {
    if es == [] then p else PlainRun(PlainApply(p, es[0]), es[1..])
  }

  ghost predicate Denotes(h: Maps, p: Plain) {
    && h.sessions.Keys == p.registered
    && (forall t :: t in p.triples <==> Has(h, t))
  }

  /** Each operation changes exactly the intended triples. Coverage is what makes the two
      operations that go through the reverse index hit every one of them. */
  lemma ApplyDenotes(h: Maps, p: Plain, e: Event)
    requires Covered(h) && Denotes(h, p)
    ensures Denotes(Apply(h, e), PlainApply(p, e))
  {
    var g, q := Apply(h, e), PlainApply(p, e);
    forall t: Triple ensures t in q.triples <==> Has(g, t) {
      assert t in p.triples <==> Has(h, t);
      if Has(h, t) {
        assert Recorded(h, t.sid, t.channel, t.stream);
      }
      match e
      case Add(s) => assert Has(g, t) <==> Has(h, t);
      case Remove(s) =>
        if s.uid in h.sessions {
          var u := h.(streams := Prune(h.streams, s.uid, ListsOf(h, s.uid)));
          PruneHas(h, s.uid, ListsOf(h, s.uid), t);
          assert Has(g, t) <==> Has(u, t);
        }
      case Sub(sid, st, c) => SubscribeHas(h, sid, st, c, t);
      case Unsub(sid, st, c) => UnsubscribeHas(h, sid, st, c, t);
      case UnsubChannel(sid, c) => PruneHas(h, sid, map[c := StreamsOf(h, sid, c)], t);
    }
  }

  /** For every run, however subscriptions repeat and whatever stale entries pile up in the
      reverse index, the forward index is the plain relation. */
  lemma {:induction false} RunDenotes(h: Maps, p: Plain, es: seq<Event>)
    requires Covered(h) && Denotes(h, p)
    ensures Denotes(Run(h, es), PlainRun(p, es))
    decreases |es|
  {
    if es != [] {
      ApplyDenotes(h, p, es[0]);
      ApplyKeepsCovered(h, es[0]);
      RunDenotes(Apply(h, es[0]), PlainApply(p, es[0]), es[1..]);
    }
  }

  lemma HubRefinesRelation(es: seq<Event>)
    ensures Covered(Run(EMPTY, es))
    ensures Denotes(Run(EMPTY, es), PlainRun(Plain({}, {}), es))
  {
    RunKeepsCovered(EMPTY, es);
    RunDenotes(EMPTY, Plain({}, {}), es);
  }

  // ----- No leak on removal -----

  /** Removing a registered session deletes every trace of its id from both stream indexes,
      residues included, and leaves every other session's entries as they were. */
  lemma RemovalLeavesNoTrace(h: Maps, s: Client)
    requires Covered(h) && s.uid in h.sessions
    ensures var g := RemoveSession(h, s);
            && s.uid !in g.sessions && s.uid !in g.sessionsStreams
            && g.sessionsStreams == h.sessionsStreams - {s.uid}
            && (forall st :: !InRow(g, st, s.uid))
            && (forall st, sid | sid != s.uid ::
                  && (InRow(g, st, sid) <==> InRow(h, st, sid))
                  && (InRow(h, st, sid) ==> g.streams[st][sid] == h.streams[st][sid]))
  {
    var g := RemoveSession(h, s);
    forall st ensures !InRow(g, st, s.uid) {
      RemovalLeavesNoRow(h, s.uid, st);
    }
    forall st, sid | sid != s.uid
      ensures InRow(g, st, sid) <==> InRow(h, st, sid)
      ensures InRow(h, st, sid) ==> g.streams[st][sid] == h.streams[st][sid]
    {
      PruneInRow(h, s.uid, ListsOf(h, s.uid), st, sid);
    }
  }

  // ----- Removal against a concurrent subscribe -----

  /** The second half of a removal, under the other lock: the session leaves the registry. */
  function FinishRemoval(h: Maps, s: Client): Maps {
    h.(sessions := h.sessions - {s.uid}, identifiers := DropUid(h.identifiers, s.identifiers, s.uid))
  }

  ghost predicate NoTrace(h: Maps, sid: Sid) {
    sid !in h.sessionsStreams && forall st :: !InRow(h, st, sid)
  }

  /** What other goroutines can do while the hub loop is between the two halves. */
  predicate Meanwhile(es: seq<Event>) {
    forall e :: e in es ==> e.Add? || e.Sub?
  }

  lemma {:induction false} TraceIff(h: Maps, sid: Sid, es: seq<Event>)
    requires Meanwhile(es)
    ensures NoTrace(Run(h, es), sid) <==> NoTrace(h, sid) && forall e :: e in es ==> !(e.Sub? && e.sid == sid)
    ensures sid in h.sessionsStreams ==> sid in Run(h, es).sessionsStreams
    decreases |es|
  {
    if es != [] {
      var e, g := es[0], Apply(h, es[0]);
      assert e in es;
      TraceIff(g, sid, es[1..]);
      assert forall x :: x in es <==> x == e || x in es[1..];
      if e.Sub? {
        SubscribeHas(h, e.sid, e.stream, e.channel, Triple(e.stream, sid, e.channel));
        forall st ensures InRow(g, st, sid) <==> InRow(h, st, sid) || (st == e.stream && sid == e.sid) {}
      } else {
        forall st ensures InRow(g, st, sid) <==> InRow(h, st, sid) {}
      }
    }
  }

  /** With its two halves apart, a removal leaves no trace of the session if and only if nobody
      subscribes it in between, although it is still registered then. */
  lemma RemovalRacesWithSubscribe(h: Maps, s: Client, es: seq<Event>)
    requires Covered(h) && s.uid in h.sessions && Meanwhile(es)
    ensures FinishRemoval(UnsubscribeFromAllChannels(h, s.uid), s) == RemoveSession(h, s)
    ensures NoTrace(FinishRemoval(Run(UnsubscribeFromAllChannels(h, s.uid), es), s), s.uid) <==>
            forall e :: e in es ==> !(e.Sub? && e.sid == s.uid)
  {
    var first := UnsubscribeFromAllChannels(h, s.uid);
    forall st ensures !InRow(first, st, s.uid) {
      RemovalLeavesNoRow(h, s.uid, st);
    }
    TraceIff(first, s.uid, es);
    var last := Run(first, es);
    forall st ensures InRow(FinishRemoval(last, s), st, s.uid) <==> InRow(last, st, s.uid) {}
  }

  /** Registered, subscribed between the halves, gone from the registry: its trace stays. */
  lemma SubscribeDuringRemovalLeaks(s: Client, st: Stream, c: Channel)
    ensures var h := Run(EMPTY, [Add(s)]);
            var g := FinishRemoval(Run(UnsubscribeFromAllChannels(h, s.uid), [Sub(s.uid, st, c)]), s);
            s.uid !in g.sessions && Has(g, Triple(st, s.uid, c)) && !NoTrace(g, s.uid)
  {
    assert [Add(s)][1..] == [] && [Sub(s.uid, st, c)][1..] == [];
    var h := Run(EMPTY, [Add(s)]);
    assert h == Run(Apply(EMPTY, Add(s)), []);
    var first := UnsubscribeFromAllChannels(h, s.uid);
    SubscribeHas(first, s.uid, st, c, Triple(st, s.uid, c));
    var last := Run(first, [Sub(s.uid, st, c)]);
    assert last == Run(Subscribe(first, s.uid, st, c), []);
    assert InRow(FinishRemoval(last, s), st, s.uid);
  }

  ghost predicate NoEmptyStream(h: Maps) {
    forall st :: st in h.streams ==> h.streams[st] != map[]
  }

  /** Only registered sessions have entries in the reverse index. */
  predicate OnlyRegistered(h: Maps) {
    h.sessionsStreams.Keys <= h.sessions.Keys
  }

  /** The subscriber is registered: what the reverse index needs to stay within the sessions. */
  predicate SubscriberRegistered(h: Maps, e: Event) {
    e.Sub? ==> e.sid in h.sessions
  }

  lemma ApplyKeepsNoEmptyStream(h: Maps, e: Event)
    requires NoEmptyStream(h)
    ensures NoEmptyStream(Apply(h, e))
  {
    var g := Apply(h, e);
    forall st | st in g.streams ensures g.streams[st] != map[] {
      match e
      case Add(s) =>
      case Remove(s) =>
        if s.uid in h.sessions { PruneAt(h.streams, s.uid, ListsOf(h, s.uid), st); }
      case Sub(sid, x, c) =>
        if st == x { assert sid in g.streams[st]; } else { assert g.streams[st] == h.streams[st]; }
      case Unsub(sid, x, c) =>
        if st == x && g != h { assert sid in g.streams[st]; } else { assert g.streams[st] == h.streams[st]; }
      case UnsubChannel(sid, c) => PruneAt(h.streams, sid, map[c := StreamsOf(h, sid, c)], st);
    }
  }

  /** The step keeps unregistered ids out of the reverse index exactly when it is not a
      subscription by an unregistered id. */
  lemma OnlyRegisteredIff(h: Maps, e: Event)
    requires OnlyRegistered(h)
    ensures OnlyRegistered(Apply(h, e)) <==> SubscriberRegistered(h, e)
  {
    if e.Sub? {
      assert e.sid in Apply(h, e).sessionsStreams.Keys;
    }
  }

  // ----- The identifier index -----

  predicate Indexed(h: Maps, ident: string, uid: Sid) {
    ident in h.identifiers && uid in h.identifiers[ident]
  }

  predicate Carries(h: Maps, uid: Sid, ident: string) {
    uid in h.sessions && h.sessions[uid].identifiers == ident
  }

  /** Each identifier maps to exactly the registered sessions carrying it, none to an empty set. */
  ghost predicate Agrees(h: Maps) {
    && (forall ident, uid :: Indexed(h, ident, uid) <==> Carries(h, uid, ident))
    && (forall ident :: ident in h.identifiers ==> h.identifiers[ident] != {})
  }

  /** The session taken in or out carries the identifiers of the one stored under its UID,
      if any. Fresh UIDs and fixed identifiers guarantee it. */
  predicate SameCarrier(h: Maps, e: Event) {
    (e.Add? || e.Remove?) && e.session.uid in h.sessions ==>
      h.sessions[e.session.uid].identifiers == e.session.identifiers
  }

  lemma AddIndexed(h: Maps, s: Client, ident: string, uid: Sid)
    ensures Indexed(AddSession(h, s), ident, uid) <==>
            Indexed(h, ident, uid) || (ident == s.identifiers && uid == s.uid)
    ensures Carries(AddSession(h, s), uid, ident) <==>
            if uid == s.uid then ident == s.identifiers else Carries(h, uid, ident)
  {}

  lemma RemoveIndexed(h: Maps, s: Client, ident: string, uid: Sid)
    requires s.uid in h.sessions
    ensures Indexed(RemoveSession(h, s), ident, uid) <==>
            Indexed(h, ident, uid) && !(ident == s.identifiers && uid == s.uid)
    ensures Carries(RemoveSession(h, s), uid, ident) <==> Carries(h, uid, ident) && uid != s.uid
  {
    if s.identifiers in h.identifiers && h.identifiers[s.identifiers] - {s.uid} == {} {
      assert uid in h.identifiers[s.identifiers] ==> uid == s.uid by {
        assert uid !in h.identifiers[s.identifiers] - {s.uid};
      }
    }
  }

  /** A step keeps the index in agreement if and only if it does not meet another
      identity under the same UID. */
  lemma AgreesIff(h: Maps, e: Event)
    requires Agrees(h)
    ensures Agrees(Apply(h, e)) <==> SameCarrier(h, e)
  {
    var g := Apply(h, e);
    if e.Add? {
      AddAgreesIff(h, e.session);
    } else if e.Remove? && e.session.uid in h.sessions {
      RemoveAgreesIff(h, e.session);
    } else {
      assert g.sessions == h.sessions && g.identifiers == h.identifiers;
      forall ident, uid ensures Indexed(g, ident, uid) <==> Carries(g, uid, ident) {
        assert Indexed(h, ident, uid) <==> Carries(h, uid, ident);
      }
    }
  }

  lemma AddAgreesIff(h: Maps, s: Client)
    requires Agrees(h)
    ensures Agrees(AddSession(h, s)) <==> SameCarrier(h, Add(s))
  {
    var g := AddSession(h, s);
    if SameCarrier(h, Add(s)) {
      forall ident, uid ensures Indexed(g, ident, uid) <==> Carries(g, uid, ident) {
        AddIndexed(h, s, ident, uid);
        assert Indexed(h, ident, uid) <==> Carries(h, uid, ident);
      }
    } else {
      var stored := h.sessions[s.uid].identifiers;
      assert Carries(h, s.uid, stored);
      AddIndexed(h, s, stored, s.uid);
    }
  }

  lemma RemoveAgreesIff(h: Maps, s: Client)
    requires Agrees(h) && s.uid in h.sessions
    ensures Agrees(RemoveSession(h, s)) <==> SameCarrier(h, Remove(s))
  {
    var g := RemoveSession(h, s);
    if SameCarrier(h, Remove(s)) {
      forall ident, uid ensures Indexed(g, ident, uid) <==> Carries(g, uid, ident) {
        RemoveIndexed(h, s, ident, uid);
        assert Indexed(h, ident, uid) <==> Carries(h, uid, ident);
      }
    } else {
      var stored := h.sessions[s.uid].identifiers;
      assert Carries(h, s.uid, stored);
      RemoveIndexed(h, s, stored, s.uid);
    }
  }

  /** Agreement in every state of the run. */
  ghost predicate AgreesThroughout(h: Maps, es: seq<Event>)
    decreases |es|
  {
    Agrees(h) && (es != [] ==> AgreesThroughout(Apply(h, es[0]), es[1..]))
  }

  predicate EveryStep(h: Maps, es: seq<Event>, ok: (Maps, Event) -> bool)
    decreases |es|
  {
    es != [] ==> ok(h, es[0]) && EveryStep(Apply(h, es[0]), es[1..], ok)
  }

  lemma {:induction false} AgreesThroughoutIff(h: Maps, es: seq<Event>)
    requires Agrees(h)
    ensures AgreesThroughout(h, es) <==> EveryStep(h, es, SameCarrier)
    decreases |es|
  {
    if es != [] {
      AgreesIff(h, es[0]);
      if SameCarrier(h, es[0]) {
        AgreesThroughoutIff(Apply(h, es[0]), es[1..]);
      }
    }
  }

  /** The identifier index has one key per distinct identifier among the sessions. */
  lemma DistinctIdentifiers(h: Maps)
    requires Agrees(h)
    ensures h.identifiers.Keys == set uid | uid in h.sessions :: h.sessions[uid].identifiers
    ensures |h.identifiers| == |set uid | uid in h.sessions :: h.sessions[uid].identifiers|
  {
    var carried := set uid | uid in h.sessions :: h.sessions[uid].identifiers;
    forall ident | ident in h.identifiers ensures ident in carried {
      var uid :| uid in h.identifiers[ident];
      assert Indexed(h, ident, uid) && Carries(h, uid, ident);
    }
    forall ident | ident in carried ensures ident in h.identifiers {
      var uid :| uid in h.sessions && h.sessions[uid].identifiers == ident;
      assert Carries(h, uid, ident) && Indexed(h, ident, uid);
    }
    assert |h.identifiers| == |h.identifiers.Keys|;
  }

  /** Two connections with one UID and different identifiers, one after the other, break it. */
  lemma ReusedUidBreaksAgreement(first: Client, second: Client)
    requires first.uid == second.uid && first.identifiers != second.identifiers
    ensures !Agrees(Run(EMPTY, [Add(first), Add(second)]))
    ensures !AgreesThroughout(EMPTY, [Add(first), Add(second)])
  {
    var es := [Add(first), Add(second)];
    assert es[1..] == [Add(second)] && es[1..][1..] == [];
    var h := Apply(EMPTY, Add(first));
    AgreesIff(EMPTY, Add(first));
    AgreesIff(h, Add(second));
    AgreesThroughoutIff(EMPTY, es);
    assert !SameCarrier(h, Add(second));
    assert Run(EMPTY, es) == Run(h, es[1..]) == Apply(h, Add(second));
  }

  // ----- What the events alone say -----

  lemma {:induction false} RunLast(h: Maps, es: seq<Event>, e: Event)
    ensures Run(h, es + [e]) == Apply(Run(h, es), e)
    decreases |es|
  {
    if es == [] {
      assert (es + [e])[1..] == [];
    } else {
      assert (es + [e])[1..] == es[1..] + [e];
      RunLast(Apply(h, es[0]), es[1..], e);
    }
  }

  lemma {:induction false} RunAppend(h: Maps, a: seq<Event>, b: seq<Event>)
    ensures Run(h, a + b) == Run(Run(h, a), b)
    decreases |a|
  {
    if a == [] {
      assert a + b == b;
    } else {
      assert (a + b)[1..] == a[1..] + b;
      RunAppend(Apply(h, a[0]), a[1..], b);
    }
  }

  /** The last addition or removal of the id is an addition. */
  predicate LastAdded(es: seq<Event>, sid: Sid) {
    es != [] &&
    var e := es[|es| - 1];
    if (e.Add? || e.Remove?) && e.session.uid == sid then e.Add? else LastAdded(es[..|es| - 1], sid)
  }

  /** The id was subscribed after its last removal; removals of an id that is not registered do nothing. */
  predicate Lingers(es: seq<Event>, sid: Sid) {
    es != [] &&
    var init, e := es[..|es| - 1], es[|es| - 1];
    if e.Sub? && e.sid == sid then true
    else if e.Remove? && e.session.uid == sid && LastAdded(init, sid) then false
    else Lingers(init, sid)
  }

  /** In every run an id is registered if and only if its last addition or removal is an addition, and
      it has lists in the reverse index if and only if it was subscribed after its last effective removal. */
  lemma {:induction false} RunTellsIff(es: seq<Event>, sid: Sid)
    ensures sid in Run(EMPTY, es).sessions <==> LastAdded(es, sid)
    ensures sid in Run(EMPTY, es).sessionsStreams <==> Lingers(es, sid)
    decreases |es|
  {
    if es != [] {
      var init, e := es[..|es| - 1], es[|es| - 1];
      assert es == init + [e];
      RunTellsIff(init, sid);
      RunLast(EMPTY, init, e);
    }
  }

  /** The session of the id's last addition. */
  function LastClient(es: seq<Event>, sid: Sid): Client
    requires LastAdded(es, sid)
  {
    var e := es[|es| - 1];
    if e.Add? && e.session.uid == sid then e.session else LastClient(es[..|es| - 1], sid)
  }

  /** In every run the object stored under an id is the session last added with it. */
  lemma {:induction false} StoredIsLastAdded(es: seq<Event>, sid: Sid)
    requires sid in Run(EMPTY, es).sessions
    ensures LastAdded(es, sid)
    ensures Run(EMPTY, es).sessions[sid] == LastClient(es, sid)
    ensures LastClient(es, sid).uid == sid && Add(LastClient(es, sid)) in es
    decreases |es|
  {
    RunTellsIff(es, sid);
    var init, e := es[..|es| - 1], es[|es| - 1];
    assert es == init + [e];
    RunLast(EMPTY, init, e);
    if !(e.Add? && e.session.uid == sid) {
      StoredIsLastAdded(init, sid);
    }
  }

  /** The streams subscribed for the session and channel since the session's last effective removal. */
  function ListedSince(es: seq<Event>, sid: Sid, c: Channel): seq<Stream> {
    if es == [] then []
    else
      var init, e := es[..|es| - 1], es[|es| - 1];
      if e.Sub? && e.sid == sid && e.channel == c then ListedSince(init, sid, c) + [e.stream]
      else if e.Remove? && e.session.uid == sid && LastAdded(init, sid) then []
      else ListedSince(init, sid, c)
  }

  lemma EventLists(h: Maps, e: Event, sid: Sid, c: Channel)
    ensures StreamsOf(Apply(h, e), sid, c) ==
            if e.Sub? && e.sid == sid && e.channel == c then StreamsOf(h, sid, c) + [e.stream]
            else if e.Remove? && e.session.uid == sid && sid in h.sessions then []
            else StreamsOf(h, sid, c)
  {}

  /** In every run the reverse index lists exactly these, repetitions and stopped streams included. */
  lemma {:induction false} ListsTell(es: seq<Event>, sid: Sid, c: Channel)
    ensures StreamsOf(Run(EMPTY, es), sid, c) == ListedSince(es, sid, c)
    decreases |es|
  {
    if es != [] {
      var init, e := es[..|es| - 1], es[|es| - 1];
      assert es == init + [e];
      ListsTell(init, sid, c);
      RunLast(EMPTY, init, e);
      RunTellsIff(init, sid);
      EventLists(Run(EMPTY, init), e, sid, c);
    }
  }

  /** The last addition or removal of the id is an addition under these identifiers. */
  predicate LastCarried(es: seq<Event>, uid: Sid, ident: string) {
    es != [] &&
    var e := es[|es| - 1];
    if (e.Add? || e.Remove?) && e.session.uid == uid then e.Add? && e.session.identifiers == ident
    else LastCarried(es[..|es| - 1], uid, ident)
  }

  /** Of the additions and effective removals of the id under these identifiers the last is an addition. */
  predicate LastIndexed(es: seq<Event>, ident: string, uid: Sid) {
    es != [] &&
    var init, e := es[..|es| - 1], es[|es| - 1];
    if e.Add? && e.session.uid == uid && e.session.identifiers == ident then true
    else if e.Remove? && e.session.uid == uid && e.session.identifiers == ident && LastAdded(init, uid) then false
    else LastIndexed(init, ident, uid)
  }

  lemma OtherEventsKeepIndex(h: Maps, e: Event)
    requires !e.Add? && !(e.Remove? && e.session.uid in h.sessions)
    ensures Apply(h, e).sessions == h.sessions && Apply(h, e).identifiers == h.identifiers
  {}

  /** In every run, reused UIDs included: who carries what, and who is listed where. */
  lemma {:induction false} IndexTellsIff(es: seq<Event>, ident: string, uid: Sid)
    ensures Carries(Run(EMPTY, es), uid, ident) <==> LastCarried(es, uid, ident)
    ensures Indexed(Run(EMPTY, es), ident, uid) <==> LastIndexed(es, ident, uid)
    decreases |es|
  {
    if es != [] {
      var init, e := es[..|es| - 1], es[|es| - 1];
      var h := Run(EMPTY, init);
      assert es == init + [e];
      IndexTellsIff(init, ident, uid);
      RunLast(EMPTY, init, e);
      RunTellsIff(init, uid);
      if e.Add? {
        AddIndexed(h, e.session, ident, uid);
      } else if e.Remove? && e.session.uid in h.sessions {
        RemoveIndexed(h, e.session, ident, uid);
      } else {
        OtherEventsKeepIndex(h, e);
      }
    }
  }

  /** Who carries an identifier is listed under it, whatever happened to other entries. */
  lemma {:induction false} CarriedIsIndexed(es: seq<Event>, ident: string, uid: Sid)
    requires LastCarried(es, uid, ident)
    ensures LastIndexed(es, ident, uid)
    decreases |es|
  {
    var init, e := es[..|es| - 1], es[|es| - 1];
    if !((e.Add? || e.Remove?) && e.session.uid == uid) {
      CarriedIsIndexed(init, ident, uid);
    }
  }

  // ----- Whole runs end empty -----

  ghost predicate Kept(h: Maps) {
    Covered(h) && NoEmptyStream(h) && OnlyRegistered(h) && Agrees(h)
  }

  predicate Orderly(h: Maps, e: Event) {
    SubscriberRegistered(h, e) && SameCarrier(h, e)
  }

  lemma {:induction false} RunKeeps(h: Maps, es: seq<Event>)
    requires Kept(h) && EveryStep(h, es, Orderly)
    ensures Kept(Run(h, es))
    decreases |es|
  {
    if es != [] {
      ApplyKeepsCovered(h, es[0]);
      ApplyKeepsNoEmptyStream(h, es[0]);
      OnlyRegisteredIff(h, es[0]);
      AgreesIff(h, es[0]);
      RunKeeps(Apply(h, es[0]), es[1..]);
    }
  }

  lemma NoSessionsNothingLeft(h: Maps)
    requires Kept(h) && h.sessions == map[]
    ensures h == EMPTY
  {
    assert h.sessionsStreams == map[];
    forall st | st in h.streams ensures false {
      var sid :| sid in h.streams[st];
      assert InRow(h, st, sid);
    }
    assert h.streams == map[];
    forall ident | ident in h.identifiers ensures false {
      var uid :| uid in h.identifiers[ident];
      assert Indexed(h, ident, uid);
    }
    assert h.identifiers == map[];
  }

  /** A run of registered subscribers with settled identities that ends without sessions
      ends with all four maps empty. */
  lemma RunWithoutSessionsIsEmpty(es: seq<Event>)
    requires EveryStep(EMPTY, es, Orderly)
    requires Run(EMPTY, es).sessions == map[]
    ensures Run(EMPTY, es) == EMPTY
  {
    RunKeeps(EMPTY, es);
    NoSessionsNothingLeft(Run(EMPTY, es));
  }

  function Removals(ss: seq<Client>): seq<Event> {
    if ss == [] then [] else [Remove(ss[0])] + Removals(ss[1..])
  }

  /** `ss` names exactly the stored sessions, each at least once. */
  ghost predicate Enumerates(h: Maps, ss: seq<Client>) {
    && (forall uid :: uid in h.sessions ==> h.sessions[uid] in ss)
    && (forall s :: s in ss && s.uid in h.sessions ==> h.sessions[s.uid] == s)
    && (forall uid :: uid in h.sessions ==> h.sessions[uid].uid == uid)
  }

  ghost predicate NoEmptyIdentifier(h: Maps) {
    forall ident :: ident in h.identifiers ==> h.identifiers[ident] != {}
  }

  /** No id is listed under identifiers that its registered session does not carry. */
  ghost predicate IndexCarried(h: Maps) {
    forall ident, uid :: Indexed(h, ident, uid) ==> Carries(h, uid, ident)
  }

  lemma ApplyKeepsNoEmptyIdentifier(h: Maps, e: Event)
    requires NoEmptyIdentifier(h)
    ensures NoEmptyIdentifier(Apply(h, e))
  {
    if e.Add? {
      assert e.session.uid in Apply(h, e).identifiers[e.session.identifiers];
    }
  }

  lemma RemoveOneEnumerated(h: Maps, ss: seq<Client>)
    requires Enumerates(h, ss) && ss != []
    ensures Enumerates(Apply(h, Remove(ss[0])), ss[1..])
  {
    var g := Apply(h, Remove(ss[0]));
    forall uid | uid in g.sessions ensures g.sessions[uid] in ss[1..] {
      assert h.sessions[uid] in ss && h.sessions[uid] != ss[0];
    }
  }

  lemma {:induction false} RemovingAll(h: Maps, ss: seq<Client>)
    requires Covered(h) && NoEmptyStream(h) && NoEmptyIdentifier(h) && Enumerates(h, ss)
    ensures var g := Run(h, Removals(ss));
            && Covered(g) && NoEmptyStream(g) && NoEmptyIdentifier(g) && g.sessions == map[]
            && g.sessionsStreams.Keys == h.sessionsStreams.Keys - h.sessions.Keys
    decreases |ss|
  {
    if ss == [] {
      forall uid | uid in h.sessions ensures false {}
      assert h.sessions == map[];
    } else {
      var e := Remove(ss[0]);
      var g := Apply(h, e);
      ApplyKeepsCovered(h, e);
      ApplyKeepsNoEmptyStream(h, e);
      ApplyKeepsNoEmptyIdentifier(h, e);
      RemoveOneEnumerated(h, ss);
      RemovingAll(g, ss[1..]);
      assert Removals(ss)[1..] == Removals(ss[1..]);
      if ss[0].uid in h.sessions {
        assert g.sessions.Keys == h.sessions.Keys - {ss[0].uid};
      }
    }
  }

  /** Removing all sessions takes out of the index exactly what they carry. */
  lemma {:induction false} RemovingAllIndexed(h: Maps, ss: seq<Client>, ident: string, uid: Sid)
    requires Enumerates(h, ss)
    ensures Indexed(Run(h, Removals(ss)), ident, uid) <==> Indexed(h, ident, uid) && !Carries(h, uid, ident)
    decreases |ss|
  {
    if ss == [] {
      assert uid !in h.sessions;
    } else {
      RemoveOneEnumerated(h, ss);
      RemovingAllIndexed(Apply(h, Remove(ss[0])), ss[1..], ident, uid);
      assert Removals(ss)[1..] == Removals(ss[1..]);
      if ss[0].uid in h.sessions {
        assert h.sessions[ss[0].uid] == ss[0];
        RemoveIndexed(h, ss[0], ident, uid);
      }
    }
  }

  lemma NothingLeftIff(h: Maps)
    requires Covered(h) && NoEmptyStream(h) && NoEmptyIdentifier(h) && h.sessions == map[]
    ensures h == EMPTY <==> h.sessionsStreams == map[] && forall ident, uid :: !Indexed(h, ident, uid)
  {
    if h.sessionsStreams == map[] && forall ident, uid :: !Indexed(h, ident, uid) {
      forall st | st in h.streams ensures false {
        var sid :| sid in h.streams[st];
        assert InRow(h, st, sid);
      }
      assert h.streams == map[];
      forall ident | ident in h.identifiers ensures false {
        var uid :| uid in h.identifiers[ident];
        assert Indexed(h, ident, uid);
      }
      assert h.identifiers == map[];
    }
  }

  /** Removing all sessions empties the hub if and only if at that time only registered ids have
      lists in the reverse index and each is listed only under the identifiers it carries. */
  lemma RemovingAllEmptiesIff(h: Maps, ss: seq<Client>)
    requires Covered(h) && NoEmptyStream(h) && NoEmptyIdentifier(h) && Enumerates(h, ss)
    ensures Run(h, Removals(ss)) == EMPTY <==> OnlyRegistered(h) && IndexCarried(h)
  {
    RemovingAll(h, ss);
    var g := Run(h, Removals(ss));
    NothingLeftIff(g);
    forall ident, uid ensures Indexed(g, ident, uid) <==> Indexed(h, ident, uid) && !Carries(h, uid, ident) {
      RemovingAllIndexed(h, ss, ident, uid);
    }
    if OnlyRegistered(h) {
      assert g.sessionsStreams.Keys == {};
    } else {
      var sid :| sid in h.sessionsStreams && sid !in h.sessions;
      assert sid in g.sessionsStreams.Keys;
    }
    if !IndexCarried(h) {
      var ident, uid :| Indexed(h, ident, uid) && !Carries(h, uid, ident);
      assert Indexed(g, ident, uid);
    }
  }

  lemma {:induction false} RunKeepsNoEmptyStream(h: Maps, es: seq<Event>)
    requires NoEmptyStream(h)
    ensures NoEmptyStream(Run(h, es))
    decreases |es|
  {
    if es != [] {
      ApplyKeepsNoEmptyStream(h, es[0]);
      RunKeepsNoEmptyStream(Apply(h, es[0]), es[1..]);
    }
  }

  /** Every id subscribed after its last effective removal is registered at the end. */
  ghost predicate NoneLingers(es: seq<Event>) {
    forall sid :: Lingers(es, sid) ==> LastAdded(es, sid)
  }

  lemma OnlyRegisteredRunIff(es: seq<Event>)
    ensures OnlyRegistered(Run(EMPTY, es)) <==> NoneLingers(es)
  {
    var h := Run(EMPTY, es);
    if OnlyRegistered(h) {
      forall sid | Lingers(es, sid) ensures LastAdded(es, sid) {
        RunTellsIff(es, sid);
        assert sid in h.sessionsStreams.Keys;
      }
    }
    if NoneLingers(es) {
      forall sid | sid in h.sessionsStreams.Keys ensures sid in h.sessions.Keys {
        RunTellsIff(es, sid);
      }
    }
  }

  /** Every id is listed only under the identifiers it was last added with, and not at all once removed. */
  ghost predicate NoneMisfiled(es: seq<Event>) {
    forall ident, uid :: LastIndexed(es, ident, uid) ==> LastCarried(es, uid, ident)
  }

  lemma IndexCarriedRunIff(es: seq<Event>)
    ensures IndexCarried(Run(EMPTY, es)) <==> NoneMisfiled(es)
  {
    var h := Run(EMPTY, es);
    if IndexCarried(h) {
      forall ident, uid | LastIndexed(es, ident, uid) ensures LastCarried(es, uid, ident) {
        IndexTellsIff(es, ident, uid);
      }
    }
    if NoneMisfiled(es) {
      forall ident, uid | Indexed(h, ident, uid) ensures Carries(h, uid, ident) {
        IndexTellsIff(es, ident, uid);
      }
    }
  }

  lemma {:induction false} RunKeepsNoEmptyIdentifier(h: Maps, es: seq<Event>)
    requires NoEmptyIdentifier(h)
    ensures NoEmptyIdentifier(Run(h, es))
    decreases |es|
  {
    if es != [] {
      ApplyKeepsNoEmptyIdentifier(h, es[0]);
      RunKeepsNoEmptyIdentifier(Apply(h, es[0]), es[1..]);
    }
  }

  /** After any run whatsoever, removing all sessions empties the hub if and only if no id lingers and
      none is misfiled. */
  lemma RunThenRemovingAllEmptiesIff(es: seq<Event>, ss: seq<Client>)
    requires Enumerates(Run(EMPTY, es), ss)
    ensures Run(Run(EMPTY, es), Removals(ss)) == EMPTY <==> NoneLingers(es) && NoneMisfiled(es)
  {
    RunKeepsCovered(EMPTY, es);
    RunKeepsNoEmptyStream(EMPTY, es);
    RunKeepsNoEmptyIdentifier(EMPTY, es);
    RemovingAllEmptiesIff(Run(EMPTY, es), ss);
    OnlyRegisteredRunIff(es);
    IndexCarriedRunIff(es);
  }

  /** A reused UID: the one session left is registered and nobody ever subscribed, yet removing it
      leaves its id under the identifiers of the other. In between, the index lists it as a foreigner there. */
  lemma ReusedUidOutlivesRemoval(first: Client, second: Client)
    requires first.uid == second.uid && first.identifiers != second.identifiers
    ensures var h := Run(EMPTY, [Add(first), Add(second)]);
            && Enumerates(h, [second]) && OnlyRegistered(h) && second.uid in h.sessions
            && Indexed(h, first.identifiers, second.uid) && !Carries(h, second.uid, first.identifiers)
            && Run(h, Removals([second])) != EMPTY
  {
    var es := [Add(first), Add(second)];
    assert es[1..] == [Add(second)] && es[1..][1..] == [];
    var one := AddSession(EMPTY, first);
    var h := AddSession(one, second);
    assert Run(EMPTY, es) == Run(one, es[1..]) == h;
    assert h.sessions == map[second.uid := second];
    AddIndexed(EMPTY, first, first.identifiers, second.uid);
    AddIndexed(one, second, first.identifiers, second.uid);
    RemovingAllIndexed(h, [second], first.identifiers, second.uid);
  }

  // ----- A captured inner map -----

  /** An inner map of the identifier index held by a task: its content, and whether the index still
      refers to it. */
  datatype Capture = Capture(content: set<Sid>, current: bool)

  /** What a step on the hub does to the captured object: it is updated in place while the index
      refers to it, and unlinked when its last id leaves. */
  function Follow(k: Capture, h: Maps, id: string, e: Event): Capture {
    if !k.current then k
    else if e.Add? && e.session.identifiers == id then k.(content := k.content + {e.session.uid})
    else if e.Remove? && e.session.identifiers == id && e.session.uid in h.sessions then
      var rest := k.content - {e.session.uid};
      Capture(rest, rest != {})
    else k
  }

  function FollowAll(k: Capture, h: Maps, id: string, es: seq<Event>): Capture
    decreases |es|
  {
    if es == [] then k else FollowAll(Follow(k, h, id, es[0]), Apply(h, es[0]), id, es[1..])
  }

  /** The index has a map for the identifier at every step. */
  predicate StaysIndexed(h: Maps, id: string, es: seq<Event>)
    decreases |es|
  {
    id in h.identifiers && (es != [] ==> StaysIndexed(Apply(h, es[0]), id, es[1..]))
  }

  predicate Aliased(k: Capture, h: Maps, id: string) {
    if k.current then id in h.identifiers && k.content == h.identifiers[id] else k.content == {}
  }

  lemma FollowKeepsAliased(k: Capture, h: Maps, id: string, e: Event)
    requires Aliased(k, h, id)
    ensures Aliased(Follow(k, h, id, e), Apply(h, e), id)
    ensures k.current ==> (Follow(k, h, id, e).current <==> id in Apply(h, e).identifiers)
  {}

  lemma {:induction false} UnlinkedStaysEmpty(h: Maps, id: string, es: seq<Event>)
    ensures FollowAll(Capture({}, false), h, id, es) == Capture({}, false)
    decreases |es|
  {
    if es != [] {
      UnlinkedStaysEmpty(Apply(h, es[0]), id, es[1..]);
    }
  }

  /** Whatever happens between capture and use, the captured map is then the current one if the
      identifier never left the index in between, and is empty otherwise. */
  lemma {:induction false} CaptureIsCurrentOrEmpty(k: Capture, h: Maps, id: string, es: seq<Event>)
    requires Aliased(k, h, id) && k.current
    ensures StaysIndexed(h, id, es) ==> id in Run(h, es).identifiers
    ensures FollowAll(k, h, id, es) ==
            if StaysIndexed(h, id, es) then Capture(Run(h, es).identifiers[id], true) else Capture({}, false)
    decreases |es|
  {
    if es != [] {
      var l := Follow(k, h, id, es[0]);
      FollowKeepsAliased(k, h, id, es[0]);
      if l.current {
        CaptureIsCurrentOrEmpty(l, Apply(h, es[0]), id, es[1..]);
      } else {
        UnlinkedStaysEmpty(Apply(h, es[0]), id, es[1..]);
        assert !StaysIndexed(Apply(h, es[0]), id, es[1..]);
      }
    }
  }

  /** A client that leaves and comes back in between under the same identifiers is missed: the map
      captured before is empty, the new one holds it. */
  lemma ReconnectionIsMissed(gone: Client, back: Client)
    requires gone.identifiers == back.identifiers
    ensures var id, h := gone.identifiers, AddSession(EMPTY, gone);
            var es := [Remove(gone), Add(back)];
            && Carries(Run(h, es), back.uid, id) && Indexed(Run(h, es), id, back.uid)
            && FollowAll(Capture(h.identifiers[id], true), h, id, es).content == {}
  {
    var id, h := gone.identifiers, AddSession(EMPTY, gone);
    var es := [Remove(gone), Add(back)];
    assert es[1..] == [Add(back)] && es[1..][1..] == [];
    assert h.identifiers[id] - {gone.uid} == {};
    var g := Apply(h, Remove(gone));
    assert id !in g.identifiers;
    assert Run(h, es) == Run(g, es[1..]) == Apply(g, Add(back));
    CaptureIsCurrentOrEmpty(Capture(h.identifiers[id], true), h, id, es);
    AddIndexed(g, back, id, back.uid);
  }
}
