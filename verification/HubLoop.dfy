/** The hub together with the channels its loop reads. Subscriptions from command replies
    reach the maps at once, removals wait in a channel until the loop takes them, so a
    removal can overtake nothing but can land on a later subscription.
  */
module HubLoop {
  import opened HubModel
  import opened HubProperties

  const SUBSCRIBE_CAPACITY := 128
  const REGISTER_CAPACITY := 2048

  datatype SubCmd =
    | AddStream(sid: Sid, stream: Stream, channel: Channel)
    | RemoveStream(sid: Sid, stream: Stream, channel: Channel)
    | RemoveAll(sid: Sid, channel: Channel)

  datatype RegCmd = Register(session: Client) | Unregister(session: Client)

  datatype System = System(hub: Maps, subscribe: seq<SubCmd>, register: seq<RegCmd>)

  datatype Step =
    | AddNow(session: Client)
    | SubscribeNow(sid: Sid, stream: Stream, channel: Channel)
    | PushSub(sub: SubCmd)
    | PushReg(reg: RegCmd)
    | TakeSub
    | TakeReg

  /** What the hub loop does with a command. */
  function Meaning(cmd: SubCmd): Event {
    match cmd
    case AddStream(sid, st, c) => Sub(sid, st, c)
    case RemoveStream(sid, st, c) => Unsub(sid, st, c)
    case RemoveAll(sid, c) => UnsubChannel(sid, c)
  }

  function RegMeaning(cmd: RegCmd): Event {
    match cmd
    case Register(s) => Add(s)
    case Unregister(s) => Remove(s)
  }

  predicate Enabled(y: System, e: Step) {
    match e
    case PushSub(_) => |y.subscribe| < SUBSCRIBE_CAPACITY
    case PushReg(_) => |y.register| < REGISTER_CAPACITY
    case TakeSub => y.subscribe != []
    case TakeReg => y.register != []
    case _ => true
  }

  function Next(y: System, e: Step): System
    requires Enabled(y, e)
  {
    match e
    case AddNow(s) => y.(hub := Apply(y.hub, Add(s)))
    case SubscribeNow(sid, st, c) => y.(hub := Apply(y.hub, Sub(sid, st, c)))
    case PushSub(cmd) => y.(subscribe := y.subscribe + [cmd])
    case PushReg(cmd) => y.(register := y.register + [cmd])
    case TakeSub => y.(hub := Apply(y.hub, Meaning(y.subscribe[0])), subscribe := y.subscribe[1..])
    case TakeReg => y.(hub := Apply(y.hub, RegMeaning(y.register[0])), register := y.register[1..])
  }

  predicate Legal(y: System, es: seq<Step>)
    decreases |es|
  {
    es != [] ==> Enabled(y, es[0]) && Legal(Next(y, es[0]), es[1..])
  }

  function Exec(y: System, es: seq<Step>): System
    requires Legal(y, es)
    decreases |es|
  {
    if es == [] then y else Exec(Next(y, es[0]), es[1..])
  }

  lemma NextKeepsCovered(y: System, e: Step)
    requires Covered(y.hub) && Enabled(y, e)
    ensures Covered(Next(y, e).hub)
  {
    match e
    case AddNow(s) => ApplyKeepsCovered(y.hub, Add(s));
    case SubscribeNow(sid, st, c) => ApplyKeepsCovered(y.hub, Sub(sid, st, c));
    case PushSub(_) =>
    case PushReg(_) =>
    case TakeSub => ApplyKeepsCovered(y.hub, Meaning(y.subscribe[0]));
    case TakeReg => ApplyKeepsCovered(y.hub, RegMeaning(y.register[0]));
  }

  /** What a hub event does to a given triple: a subscription adds one, a removal takes out one, those of
      a channel or those of a registered session. */
  lemma EventHas(h: Maps, e: Event, t: Triple)
    requires Covered(h)
    ensures e.Add? ==> (Has(Apply(h, e), t) <==> Has(h, t))
    ensures e.Remove? ==> (Has(Apply(h, e), t) <==> Has(h, t) && !(e.session.uid == t.sid && t.sid in h.sessions))
    ensures e.Sub? ==> (Has(Apply(h, e), t) <==> Has(h, t) || t == Triple(e.stream, e.sid, e.channel))
    ensures e.Unsub? ==> (Has(Apply(h, e), t) <==> Has(h, t) && t != Triple(e.stream, e.sid, e.channel))
    ensures e.UnsubChannel? ==> (Has(Apply(h, e), t) <==> Has(h, t) && !(t.sid == e.sid && t.channel == e.channel))
  {
    if Has(h, t) {
      assert Recorded(h, t.sid, t.channel, t.stream);
    }
    match e
    case Add(s) =>
    case Remove(s) =>
      if s.uid in h.sessions {
        PruneHas(h, s.uid, ListsOf(h, s.uid), t);
        assert Has(Apply(h, e), t) <==> Has(h.(streams := Prune(h.streams, s.uid, ListsOf(h, s.uid))), t);
      }
    case Sub(sid, st, c) => SubscribeHas(h, sid, st, c, t);
    case Unsub(sid, st, c) => UnsubscribeHas(h, sid, st, c, t);
    case UnsubChannel(sid, c) => PruneHas(h, sid, map[c := StreamsOf(h, sid, c)], t);
  }

  const START := System(EMPTY, [], [])

  /** Coverage in every state of the hub with its channels. */
  lemma {:induction false} LoopKeepsCovered(y: System, es: seq<Step>)
    requires Covered(y.hub) && Legal(y, es)
    ensures Covered(Exec(y, es).hub)
    decreases |es|
  {
    if es != [] {
      NextKeepsCovered(y, es[0]);
      LoopKeepsCovered(Next(y, es[0]), es[1..]);
    }
  }

  // ----- The channels keep order -----

  /** The commands pushed in a run, and those the loop takes. */
  function Pushed(es: seq<Step>): seq<SubCmd> {
    if es == [] then [] else (if es[0].PushSub? then [es[0].sub] else []) + Pushed(es[1..])
  }

  function Taken(y: System, es: seq<Step>): seq<SubCmd>
    requires Legal(y, es)
    decreases |es|
  {
    if es == [] then []
    else (if es[0].TakeSub? then [y.subscribe[0]] else []) + Taken(Next(y, es[0]), es[1..])
  }

  /** What the hub's maps see of a run. */
  function Seen(y: System, es: seq<Step>): seq<Event>
    requires Legal(y, es)
    decreases |es|
  {
    if es == [] then []
    else
      (match es[0]
       case AddNow(s) => [Add(s)]
       case SubscribeNow(sid, st, c) => [Sub(sid, st, c)]
       case TakeSub => [Meaning(y.subscribe[0])]
       case TakeReg => [RegMeaning(y.register[0])]
       case _ => []) + Seen(Next(y, es[0]), es[1..])
  }

  /** Subscription commands take effect in the order they were pushed, none lost, none twice. */
  lemma {:induction false} CommandsInOrder(y: System, es: seq<Step>)
    requires Legal(y, es)
    ensures y.subscribe + Pushed(es) == Taken(y, es) + Exec(y, es).subscribe
    decreases |es|
  {
    if es != [] {
      var z, rest := Next(y, es[0]), es[1..];
      CommandsInOrder(z, rest);
      if es[0].PushSub? {
        assert y.subscribe + ([es[0].sub] + Pushed(rest)) == z.subscribe + Pushed(rest);
      } else if es[0].TakeSub? {
        assert y.subscribe + Pushed(rest) == [y.subscribe[0]] + (z.subscribe + Pushed(rest));
        assert [y.subscribe[0]] + (Taken(z, rest) + Exec(z, rest).subscribe) == Taken(y, es) + Exec(y, es).subscribe;
        assert Pushed(es) == Pushed(rest);
      } else {
        assert Pushed(es) == Pushed(rest) && Taken(y, es) == Taken(z, rest);
      }
    }
  }

  lemma {:induction false} ExecIsHubRun(y: System, es: seq<Step>)
    requires Legal(y, es)
    ensures Exec(y, es).hub == Run(y.hub, Seen(y, es))
    decreases |es|
  {
    if es != [] {
      var rest := Seen(Next(y, es[0]), es[1..]);
      ExecIsHubRun(Next(y, es[0]), es[1..]);
      if Seen(y, es) != rest {
        assert Seen(y, es)[1..] == rest;
      }
    }
  }

  /** Through all channels and direct calls, the forward index is the plain relation of what the
      hub has seen. */
  lemma LoopRefinesRelation(es: seq<Step>)
    requires Legal(START, es)
    ensures Denotes(Exec(START, es).hub, PlainRun(Plain({}, {}), Seen(START, es)))
    ensures Pushed(es) == Taken(START, es) + Exec(START, es).subscribe
  {
    ExecIsHubRun(START, es);
    HubRefinesRelation(Seen(START, es));
    CommandsInOrder(START, es);
    assert [] + Pushed(es) == Pushed(es);
  }

  // ----- Unsubscribe is final -----

  /** No broadcast reaches the pair, and nothing waiting would subscribe it again. */
  ghost predicate Silent(y: System, sid: Sid, c: Channel) {
    && (forall st :: !Has(y.hub, Triple(st, sid, c)))
    && (forall st :: AddStream(sid, st, c) !in y.subscribe)
  }

  /** The step is a new subscription of the pair. */
  predicate Subscribes(e: Step, sid: Sid, c: Channel) {
    || (e.SubscribeNow? && e.sid == sid && e.channel == c)
    || (e.PushSub? && e.sub.AddStream? && e.sub.sid == sid && e.sub.channel == c)
  }

  lemma NextKeepsSilent(y: System, e: Step, sid: Sid, c: Channel)
    requires Covered(y.hub) && Silent(y, sid, c) && Enabled(y, e) && !Subscribes(e, sid, c)
    ensures Silent(Next(y, e), sid, c)
  {
    forall st ensures !Has(Next(y, e).hub, Triple(st, sid, c)) {
      var t := Triple(st, sid, c);
      assert !Has(y.hub, t);
      match e
      case AddNow(s) => EventHas(y.hub, Add(s), t);
      case SubscribeNow(i, x, d) => EventHas(y.hub, Sub(i, x, d), t);
      case PushSub(_) =>
      case PushReg(_) =>
      case TakeSub =>
        assert AddStream(sid, st, c) !in y.subscribe;
        EventHas(y.hub, Meaning(y.subscribe[0]), t);
      case TakeReg => EventHas(y.hub, RegMeaning(y.register[0]), t);
    }
  }

  /** In every run: once the loop has taken the removal queued by an unsubscribe, no state of any
      continuation without a new subscription has the pair on any stream. */
  lemma UnsubscribeIsFinal(before: seq<Step>, sid: Sid, c: Channel, es: seq<Step>)
    requires Legal(START, before)
    requires var y := Exec(START, before);
             && y.subscribe != [] && y.subscribe[0] == RemoveAll(sid, c)
             && (forall st :: AddStream(sid, st, c) !in y.subscribe)
             && Legal(Next(y, TakeSub), es)
    requires forall e :: e in es ==> !Subscribes(e, sid, c)
    ensures Silent(Exec(Next(Exec(START, before), TakeSub), es), sid, c)
  {
    var y := Exec(START, before);
    var z := Next(y, TakeSub);
    LoopKeepsCovered(START, before);
    NextKeepsCovered(y, TakeSub);
    forall st ensures !Has(z.hub, Triple(st, sid, c)) {
      EventHas(y.hub, UnsubChannel(sid, c), Triple(st, sid, c));
    }
    SilentThroughout(z, sid, c, es);
  }

  lemma {:induction false} SilentThroughout(y: System, sid: Sid, c: Channel, es: seq<Step>)
    requires Covered(y.hub) && Silent(y, sid, c) && Legal(y, es)
    requires forall e :: e in es ==> !Subscribes(e, sid, c)
    ensures Silent(Exec(y, es), sid, c)
    decreases |es|
  {
    if es != [] {
      NextKeepsCovered(y, es[0]);
      NextKeepsSilent(y, es[0], sid, c);
      SilentThroughout(Next(y, es[0]), sid, c, es[1..]);
    }
  }

  // ----- Removal of a session is final -----

  /** Nothing of the session is in the indexes, and nothing waiting would put it there. */
  ghost predicate Gone(y: System, sid: Sid) {
    && NoTrace(y.hub, sid)
    && (forall cmd :: cmd in y.subscribe ==> !(cmd.AddStream? && cmd.sid == sid))
  }

  predicate SubscribesSession(e: Step, sid: Sid) {
    || (e.SubscribeNow? && e.sid == sid)
    || (e.PushSub? && e.sub.AddStream? && e.sub.sid == sid)
  }

  lemma EventKeepsNoTrace(h: Maps, e: Event, sid: Sid)
    requires NoTrace(h, sid) && !(e.Sub? && e.sid == sid)
    ensures NoTrace(Apply(h, e), sid)
  {
    forall st ensures !InRow(Apply(h, e), st, sid) {
      assert !InRow(h, st, sid);
      match e
      case Add(s) =>
      case Remove(s) => if s.uid in h.sessions { PruneInRow(h, s.uid, ListsOf(h, s.uid), st, sid); }
      case Sub(other, x, c) => SubscribeHas(h, other, x, c, Triple(st, sid, c));
      case Unsub(other, x, c) => UnsubscribeHas(h, other, x, c, Triple(st, sid, c));
      case UnsubChannel(other, c) => PruneInRow(h, other, map[c := StreamsOf(h, other, c)], st, sid);
    }
  }

  lemma {:induction false} GoneThroughout(y: System, sid: Sid, es: seq<Step>)
    requires Gone(y, sid) && Legal(y, es)
    requires forall e :: e in es ==> !SubscribesSession(e, sid)
    ensures Gone(Exec(y, es), sid)
    decreases |es|
  {
    if es != [] {
      var e := es[0];
      assert !SubscribesSession(e, sid);
      match e {
        case AddNow(s) => EventKeepsNoTrace(y.hub, Add(s), sid);
        case SubscribeNow(i, x, d) => EventKeepsNoTrace(y.hub, Sub(i, x, d), sid);
        case PushSub(_) =>
        case PushReg(_) =>
        case TakeSub =>
          assert y.subscribe[0] in y.subscribe;
          EventKeepsNoTrace(y.hub, Meaning(y.subscribe[0]), sid);
        case TakeReg => EventKeepsNoTrace(y.hub, RegMeaning(y.register[0]), sid);
      }
      assert Gone(Next(y, e), sid);
      GoneThroughout(Next(y, e), sid, es[1..]);
    }
  }

  /** In every run: once the loop has taken the removal of a registered session, it is unregistered,
      and no state of any continuation that does not subscribe it again has a trace of it. */
  lemma SessionRemovalIsFinal(before: seq<Step>, s: Client, es: seq<Step>)
    requires Legal(START, before)
    requires var y := Exec(START, before);
             && y.register != [] && y.register[0] == Unregister(s) && s.uid in y.hub.sessions
             && (forall cmd :: cmd in y.subscribe ==> !(cmd.AddStream? && cmd.sid == s.uid))
             && Legal(Next(y, TakeReg), es)
    requires forall e :: e in es ==> !SubscribesSession(e, s.uid)
    ensures s.uid !in Next(Exec(START, before), TakeReg).hub.sessions
    ensures NoTrace(Exec(Next(Exec(START, before), TakeReg), es).hub, s.uid)
  {
    var y := Exec(START, before);
    LoopKeepsCovered(START, before);
    RemovalLeavesNoTrace(y.hub, s);
    GoneThroughout(Next(y, TakeReg), s.uid, es);
  }

  // ----- Registration after removal -----

  predicate Unregisters(cmd: RegCmd, sid: Sid) {
    cmd.Unregister? && cmd.session.uid == sid
  }

  /** In every run, through the channels and past them: an id is registered if and only if the last
      addition or removal of it that the hub has seen is an addition. */
  lemma RegisteredIff(es: seq<Step>, sid: Sid)
    requires Legal(START, es)
    ensures sid in Exec(START, es).hub.sessions <==> LastAdded(Seen(START, es), sid)
  {
    ExecIsHubRun(START, es);
    RunTellsIff(Seen(START, es), sid);
  }

  /** The triple was subscribed after the last event that removes it: its own removal, that of its
      channel, or that of its session while registered. */
  predicate LastSubscribed(es: seq<Event>, t: Triple) {
    es != [] &&
    var init, e := es[..|es| - 1], es[|es| - 1];
    if e == Sub(t.sid, t.stream, t.channel) then true
    else if e == Unsub(t.sid, t.stream, t.channel) || e == UnsubChannel(t.sid, t.channel) then false
    else if e.Remove? && e.session.uid == t.sid && LastAdded(init, t.sid) then false
    else LastSubscribed(init, t)
  }

  lemma {:induction false} RunHasIff(es: seq<Event>, t: Triple)
    ensures Has(Run(EMPTY, es), t) <==> LastSubscribed(es, t)
    decreases |es|
  {
    if es != [] {
      var init, e := es[..|es| - 1], es[|es| - 1];
      assert es == init + [e];
      RunHasIff(init, t);
      RunLast(EMPTY, init, e);
      RunTellsIff(init, t.sid);
      RunKeepsCovered(EMPTY, init);
      EventHas(Run(EMPTY, init), e, t);
    }
  }

  /** In every run, through both channels and past them: a session gets a stream on a channel if and
      only if the hub has seen it subscribed after the last event that removes it. */
  lemma SubscribedIff(es: seq<Step>, t: Triple)
    requires Legal(START, es)
    ensures Has(Exec(START, es).hub, t) <==> LastSubscribed(Seen(START, es), t)
  {
    ExecIsHubRun(START, es);
    RunHasIff(Seen(START, es), t);
  }

  /** The session has a key in the stream's row: subscribed there after its last effective removal,
      with no stop of a channel since that left it on no other channel. A stop of one stream leaves
      the key, with whatever is left under it. */
  ghost predicate LastInRow(es: seq<Event>, st: Stream, sid: Sid)
    decreases |es|
  {
    es != [] &&
    var init, e := es[..|es| - 1], es[|es| - 1];
    if e.Sub? && e.sid == sid && e.stream == st then true
    else if e.Remove? && e.session.uid == sid && LastAdded(init, sid) then false
    else if e.UnsubChannel? && e.sid == sid && st in ListedSince(init, sid, e.channel) then
      LastInRow(init, st, sid) && exists c :: c != e.channel && LastSubscribed(init, Triple(st, sid, c))
    else LastInRow(init, st, sid)
  }

  lemma StopInRow(h: Maps, sid: Sid, c: Channel, st: Stream, other: Sid)
    ensures InRow(UnsubscribeFromChannel(h, sid, c), st, other) <==>
            && InRow(h, st, other)
            && (other == sid && st in StreamsOf(h, sid, c) ==> exists d :: d != c && Has(h, Triple(st, sid, d)))
  {
    var lists := map[c := StreamsOf(h, sid, c)];
    PruneInRow(h, sid, lists, st, other);
    assert Touched(lists, st) == if st in StreamsOf(h, sid, c) then {c} else {};
    if other == sid && InRow(h, st, sid) && st in StreamsOf(h, sid, c) {
      if exists d :: d != c && Has(h, Triple(st, sid, d)) {
        var d :| d != c && Has(h, Triple(st, sid, d));
        assert d in h.streams[st][sid];
      } else {
        forall d | d in h.streams[st][sid] ensures d in {c} {
          assert Has(h, Triple(st, sid, d));
        }
      }
    }
  }

  lemma EventInRow(h: Maps, e: Event, st: Stream, sid: Sid)
    requires Covered(h) && !e.UnsubChannel?
    ensures InRow(Apply(h, e), st, sid) <==>
            if e.Sub? && e.sid == sid && e.stream == st then true
            else InRow(h, st, sid) && !(e.Remove? && e.session.uid == sid && sid in h.sessions)
  {
    if e.Remove? && e.session.uid in h.sessions {
      RemovalLeavesNoTrace(h, e.session);
    }
  }

  /** In every run, read off the events: which sessions have a key in a stream's row, residues
      included, and which streams have a row. */
  lemma {:induction false} RowTellsIff(es: seq<Event>, st: Stream, sid: Sid)
    ensures InRow(Run(EMPTY, es), st, sid) <==> LastInRow(es, st, sid)
    decreases |es|
  {
    if es != [] {
      var init, e := es[..|es| - 1], es[|es| - 1];
      var h := Run(EMPTY, init);
      assert es == init + [e];
      RowTellsIff(init, st, sid);
      RunLast(EMPTY, init, e);
      RunKeepsCovered(EMPTY, init);
      RunTellsIff(init, sid);
      if e.UnsubChannel? {
        StopInRow(h, e.sid, e.channel, st, sid);
        ListsTell(init, sid, e.channel);
        forall c ensures Has(h, Triple(st, sid, c)) <==> LastSubscribed(init, Triple(st, sid, c)) {
          RunHasIff(init, Triple(st, sid, c));
        }
      } else {
        EventInRow(h, e, st, sid);
      }
    }
  }

  lemma StreamTellsIff(es: seq<Event>, st: Stream)
    ensures st in Run(EMPTY, es).streams <==> exists sid :: LastInRow(es, st, sid)
  {
    var h := Run(EMPTY, es);
    RunKeepsNoEmptyStream(EMPTY, es);
    forall sid ensures InRow(h, st, sid) <==> LastInRow(es, st, sid) {
      RowTellsIff(es, st, sid);
    }
    if st in h.streams {
      var sid :| sid in h.streams[st];
      assert InRow(h, st, sid);
      assert LastInRow(es, st, sid);
    }
  }

  /** A registration with no removal waiting stays until one is pushed. */
  lemma {:induction false} RegistrationStays(y: System, sid: Sid, es: seq<Step>)
    requires sid in y.hub.sessions && Legal(y, es)
    requires forall cmd :: cmd in y.register ==> !Unregisters(cmd, sid)
    requires forall e :: e in es ==> !(e.PushReg? && Unregisters(e.reg, sid))
    ensures sid in Exec(y, es).hub.sessions
    decreases |es|
  {
    if es != [] {
      var z := Next(y, es[0]);
      assert es[0] in es;
      if es[0].TakeReg? {
        assert !Unregisters(y.register[0], sid);
      }
      assert sid in z.hub.sessions;
      RegistrationStays(z, sid, es[1..]);
    }
  }

  lemma ExecCons(y: System, e: Step, es: seq<Step>)
    requires Enabled(y, e) && Legal(Next(y, e), es)
    ensures Legal(y, [e] + es) && Exec(y, [e] + es) == Exec(Next(y, e), es)
  {
    assert ([e] + es)[1..] == es;
  }

  /** A session disconnected between becoming connected and being registered: its one removal is
      pushed and taken, then it is registered. It stays registered in every continuation without a second
      removal; that a session never pushes one is in `Registration`. */
  lemma DeadRegistration(s: Client, es: seq<Step>)
    requires Legal(System(AddSession(EMPTY, s), [], []), es)
    requires forall e :: e in es ==> !(e.PushReg? && Unregisters(e.reg, s.uid))
    ensures var run := [PushReg(Unregister(s))] + ([TakeReg] + ([AddNow(s)] + es));
            Legal(START, run) && s.uid in Exec(START, run).hub.sessions
  {
    var y1 := Next(START, PushReg(Unregister(s)));
    assert y1.register == [Unregister(s)];
    var y2 := Next(y1, TakeReg);
    var y3 := Next(y2, AddNow(s));
    assert y3 == System(AddSession(EMPTY, s), [], []);
    RegistrationStays(y3, s.uid, es);
    ExecCons(y2, AddNow(s), es);
    ExecCons(y1, TakeReg, [AddNow(s)] + es);
    ExecCons(START, PushReg(Unregister(s)), [TakeReg] + ([AddNow(s)] + es));
  }

  // ----- Subscription after removal -----

  /** Registers the id, at once or through the channel. */
  predicate RegistersAgain(e: Step, sid: Sid) {
    (e.AddNow? && e.session.uid == sid) || (e.PushReg? && e.reg.Register? && e.reg.session.uid == sid)
  }

  /** Lists recorded for an id that is not registered are never cleared unless it is registered
      again: removal ignores unknown ids. */
  lemma {:induction false} LeakStays(y: System, sid: Sid, es: seq<Step>)
    requires sid !in y.hub.sessions && sid in y.hub.sessionsStreams && Legal(y, es)
    requires forall cmd :: cmd in y.register ==> !(cmd.Register? && cmd.session.uid == sid)
    requires forall e :: e in es ==> !RegistersAgain(e, sid)
    ensures sid !in Exec(y, es).hub.sessions && sid in Exec(y, es).hub.sessionsStreams
    decreases |es|
  {
    if es != [] {
      var z := Next(y, es[0]);
      assert !RegistersAgain(es[0], sid);
      if es[0].TakeReg? {
        assert y.register[0] in y.register;
      }
      assert sid !in z.hub.sessions && sid in z.hub.sessionsStreams;
      LeakStays(z, sid, es[1..]);
    }
  }

  /** A reply that comes after the session's removal was taken subscribes an id nobody will remove. */
  lemma LateReplyLeaks(s: Client, st: Stream, c: Channel, es: seq<Step>)
    requires var y := System(Subscribe(EMPTY, s.uid, st, c), [], []);
             Legal(y, es)
    requires forall e :: e in es ==> !RegistersAgain(e, s.uid)
    ensures var run := [AddNow(s)] + ([PushReg(Unregister(s))] + ([TakeReg] + ([SubscribeNow(s.uid, st, c)] + es)));
            && Legal(START, run)
            && s.uid !in Exec(START, run).hub.sessions && s.uid in Exec(START, run).hub.sessionsStreams
  {
    var y1 := Next(START, AddNow(s));
    var y2 := Next(y1, PushReg(Unregister(s)));
    assert y2.register == [Unregister(s)];
    var y3 := Next(y2, TakeReg);
    AddThenRemove(s);
    assert y3 == START;
    var y4 := Next(y3, SubscribeNow(s.uid, st, c));
    assert s.uid in y4.hub.sessionsStreams;
    LeakStays(y4, s.uid, es);
    ExecCons(y3, SubscribeNow(s.uid, st, c), es);
    ExecCons(y2, TakeReg, [SubscribeNow(s.uid, st, c)] + es);
    ExecCons(y1, PushReg(Unregister(s)), [TakeReg] + ([SubscribeNow(s.uid, st, c)] + es));
    ExecCons(START, AddNow(s), [PushReg(Unregister(s))] + ([TakeReg] + ([SubscribeNow(s.uid, st, c)] + es)));
  }

  lemma AddThenRemove(s: Client)
    ensures RemoveSession(AddSession(EMPTY, s), s) == EMPTY
  {
    var h := AddSession(EMPTY, s);
    PruneNothing(h.streams, s.uid, map[], "");
    assert h.identifiers[s.identifiers] - {s.uid} == {};
    assert h.sessions - {s.uid} == map[] && h.identifiers - {s.identifiers} == map[];
    assert h.sessionsStreams - {s.uid} == map[];
  }

  // ----- Subscribe persists -----

  predicate Hits(cmd: SubCmd, t: Triple) {
    cmd == RemoveStream(t.sid, t.stream, t.channel) || cmd == RemoveAll(t.sid, t.channel)
  }

  /** The triple is there and nothing that waits would take it away. */
  ghost predicate Secure(y: System, t: Triple) {
    && Has(y.hub, t)
    && (forall cmd :: cmd in y.subscribe ==> !Hits(cmd, t))
    && (forall cmd :: cmd in y.register ==> !Unregisters(cmd, t.sid))
  }

  predicate Threatens(e: Step, t: Triple) {
    (e.PushSub? && Hits(e.sub, t)) || (e.PushReg? && Unregisters(e.reg, t.sid))
  }

  lemma {:induction false} SecureThroughout(y: System, t: Triple, es: seq<Step>)
    requires Covered(y.hub) && Secure(y, t) && Legal(y, es)
    requires forall e :: e in es ==> !Threatens(e, t)
    ensures Secure(Exec(y, es), t)
    decreases |es|
  {
    if es != [] {
      var e := es[0];
      assert !Threatens(e, t);
      NextKeepsCovered(y, e);
      match e {
        case AddNow(s) => EventHas(y.hub, Add(s), t);
        case SubscribeNow(sid, st, c) => EventHas(y.hub, Sub(sid, st, c), t);
        case PushSub(_) =>
        case PushReg(_) =>
        case TakeSub =>
          assert !Hits(y.subscribe[0], t);
          EventHas(y.hub, Meaning(y.subscribe[0]), t);
        case TakeReg =>
          assert !Unregisters(y.register[0], t.sid);
          EventHas(y.hub, RegMeaning(y.register[0]), t);
      }
      assert Secure(Next(y, e), t);
      SecureThroughout(Next(y, e), t, es[1..]);
    }
  }

  /** In every run: a stream subscribed while no removal for it waits stays until a later stop,
      unsubscribe or session removal is pushed, whatever else happens. */
  lemma SubscribePersists(before: seq<Step>, t: Triple, es: seq<Step>)
    requires Legal(START, before)
    requires var y := Exec(START, before);
             && (forall cmd :: cmd in y.subscribe ==> !Hits(cmd, t))
             && (forall cmd :: cmd in y.register ==> !Unregisters(cmd, t.sid))
             && Legal(Next(y, SubscribeNow(t.sid, t.stream, t.channel)), es)
    requires forall e :: e in es ==> !Threatens(e, t)
    ensures Has(Exec(Next(Exec(START, before), SubscribeNow(t.sid, t.stream, t.channel)), es).hub, t)
  {
    var y := Exec(START, before);
    LoopKeepsCovered(START, before);
    NextKeepsCovered(y, SubscribeNow(t.sid, t.stream, t.channel));
    EventHas(y.hub, Sub(t.sid, t.stream, t.channel), t);
    SecureThroughout(Next(y, SubscribeNow(t.sid, t.stream, t.channel)), t, es);
  }

  // ----- What a backlog does -----

  /** The loop working off a backlog of subscription commands. */
  function Drain(h: Maps, backlog: seq<SubCmd>): Maps
    decreases |backlog|
  {
    if backlog == [] then h else Drain(Apply(h, Meaning(backlog[0])), backlog[1..])
  }

  /** Whether the last command about the triple is an addition or a removal. */
  datatype Verdict = Silence | Kept | Dropped

  function LastWord(backlog: seq<SubCmd>, t: Triple): Verdict {
    if backlog == [] then Silence
    else
      var cmd := backlog[|backlog| - 1];
      if Hits(cmd, t) then Dropped
      else if cmd == AddStream(t.sid, t.stream, t.channel) then Kept
      else LastWord(backlog[..|backlog| - 1], t)
  }

  lemma {:induction false} DrainLast(h: Maps, backlog: seq<SubCmd>, cmd: SubCmd)
    ensures Drain(h, backlog + [cmd]) == Apply(Drain(h, backlog), Meaning(cmd))
    decreases |backlog|
  {
    if backlog == [] {
      assert (backlog + [cmd])[1..] == [];
    } else {
      assert (backlog + [cmd])[1..] == backlog[1..] + [cmd];
      DrainLast(Apply(h, Meaning(backlog[0])), backlog[1..], cmd);
    }
  }

  lemma CommandHas(h: Maps, cmd: SubCmd, t: Triple)
    requires Covered(h)
    ensures Has(Apply(h, Meaning(cmd)), t) <==>
            !Hits(cmd, t) && (Has(h, t) || cmd == AddStream(t.sid, t.stream, t.channel))
  {
    EventHas(h, Meaning(cmd), t);
  }

  /** The backlog decides by its last word on the triple; without one the maps decide. */
  lemma {:induction false} DrainOutcome(h: Maps, backlog: seq<SubCmd>, t: Triple)
    requires Covered(h)
    ensures Covered(Drain(h, backlog))
    ensures Has(Drain(h, backlog), t) <==>
            (LastWord(backlog, t).Kept? || (LastWord(backlog, t).Silence? && Has(h, t)))
    decreases |backlog|
  {
    if backlog != [] {
      var init, cmd := backlog[..|backlog| - 1], backlog[|backlog| - 1];
      assert backlog == init + [cmd];
      DrainOutcome(h, init, t);
      DrainLast(h, init, cmd);
      ApplyKeepsCovered(Drain(h, init), Meaning(cmd));
      CommandHas(Drain(h, init), cmd, t);
    }
  }

  // ----- Command replies -----

  /** The stream-related part of a command reply; a nil list acts as an empty one. */
  datatype Reply = Reply(stopAll: bool, stopped: seq<Stream>, streams: seq<Stream>)

  function StopEach(sid: Sid, c: Channel, stopped: seq<Stream>): seq<SubCmd> {
    seq(|stopped|, i requires 0 <= i < |stopped| => RemoveStream(sid, stopped[i], c))
  }

  /** The removals a reply puts into the channel. */
  function Queued(sid: Sid, c: Channel, reply: Reply): seq<SubCmd> {
    if reply.stopAll then [RemoveAll(sid, c)] else StopEach(sid, c, reply.stopped)
  }

  /** The subscriptions a reply makes at once. */
  function StartEach(h: Maps, sid: Sid, c: Channel, streams: seq<Stream>): Maps
    decreases |streams|
  {
    if streams == [] then h else StartEach(Subscribe(h, sid, streams[0], c), sid, c, streams[1..])
  }

  lemma {:induction false} StartEachHas(h: Maps, sid: Sid, c: Channel, streams: seq<Stream>, t: Triple)
    requires Covered(h)
    ensures Covered(StartEach(h, sid, c, streams))
    ensures Has(StartEach(h, sid, c, streams), t) <==>
            Has(h, t) || (t.sid == sid && t.channel == c && t.stream in streams)
    decreases |streams|
  {
    if streams != [] {
      SubscribeHas(h, sid, streams[0], c, t);
      CoveredAfterSubscribe(h, sid, streams[0], c);
      StartEachHas(Subscribe(h, sid, streams[0], c), sid, c, streams[1..], t);
      assert t.stream in streams <==> t.stream == streams[0] || t.stream in streams[1..];
    }
  }

  lemma {:induction false} LastWordAppend(a: seq<SubCmd>, b: seq<SubCmd>, t: Triple)
    ensures LastWord(a + b, t) == if LastWord(b, t).Silence? then LastWord(a, t) else LastWord(b, t)
    decreases |b|
  {
    if b == [] {
      assert a + b == a;
    } else {
      assert (a + b)[..|a + b| - 1] == a + b[..|b| - 1];
      LastWordAppend(a, b[..|b| - 1], t);
    }
  }

  lemma {:induction false} LastWordOfStops(sid: Sid, c: Channel, stopped: seq<Stream>, st: Stream)
    ensures LastWord(StopEach(sid, c, stopped), Triple(st, sid, c)) == if st in stopped then Dropped else Silence
    decreases |stopped|
  {
    if stopped != [] {
      var init := stopped[..|stopped| - 1];
      assert StopEach(sid, c, stopped)[..|stopped| - 1] == StopEach(sid, c, init);
      assert stopped == init + [stopped[|stopped| - 1]];
      LastWordOfStops(sid, c, init, st);
    }
  }

  // ----- Both channels worked off -----

  /** Whether the waiting commands take the id out of the registry at some point. */
  predicate Unregistering(register: seq<RegCmd>, sid: Sid, registered: bool) {
    register != [] &&
    var cmd := register[0];
    if cmd.session.uid != sid then Unregistering(register[1..], sid, registered)
    else if cmd.Register? then Unregistering(register[1..], sid, true)
    else registered || Unregistering(register[1..], sid, false)
  }

  predicate Mentions(cmd: SubCmd, t: Triple) {
    Hits(cmd, t) || cmd == AddStream(t.sid, t.stream, t.channel)
  }

  /** A step of the loop, or a step of anybody that does not concern the triple or its session's
      registration. */
  predicate Neutral(e: Step, t: Triple) {
    match e
    case AddNow(s) => s.uid != t.sid
    case SubscribeNow(sid, st, c) => Triple(st, sid, c) != t
    case PushSub(cmd) => !Mentions(cmd, t)
    case PushReg(cmd) => cmd.session.uid != t.sid
    case TakeSub => true
    case TakeReg => true
  }

  predicate Leaves(y: System, t: Triple) {
    Unregistering(y.register, t.sid, t.sid in y.hub.sessions)
  }

  /** What becomes of the triple when the loop works everything off. */
  predicate Survives(y: System, t: Triple) {
    LastWord(y.subscribe, t).Kept? || (LastWord(y.subscribe, t).Silence? && Has(y.hub, t) && !Leaves(y, t))
  }

  /** The order between the channels matters only when one holds an addition and the other a removal. */
  predicate Decided(y: System, t: Triple) {
    LastWord(y.subscribe, t).Kept? ==> !Leaves(y, t)
  }

  lemma TakeSubDecides(y: System, t: Triple)
    requires Covered(y.hub) && Decided(y, t) && y.subscribe != []
    ensures Decided(Next(y, TakeSub), t) && (Survives(Next(y, TakeSub), t) <==> Survives(y, t))
  {
    var cmd, rest := y.subscribe[0], y.subscribe[1..];
    assert y.subscribe == [cmd] + rest && [cmd][..0] == [];
    LastWordAppend([cmd], rest, t);
    CommandHas(y.hub, cmd, t);
    assert Next(y, TakeSub).hub.sessions == y.hub.sessions;
  }

  lemma TakeRegDecides(y: System, t: Triple)
    requires Covered(y.hub) && Decided(y, t) && y.register != []
    ensures Decided(Next(y, TakeReg), t) && (Survives(Next(y, TakeReg), t) <==> Survives(y, t))
  {
    EventHas(y.hub, RegMeaning(y.register[0]), t);
  }

  lemma {:induction false} UnregisteringMore(register: seq<RegCmd>, cmd: RegCmd, sid: Sid, registered: bool)
    requires cmd.session.uid != sid
    ensures Unregistering(register + [cmd], sid, registered) == Unregistering(register, sid, registered)
    decreases |register|
  {
    if register == [] {
      assert (register + [cmd])[1..] == [];
    } else {
      assert (register + [cmd])[1..] == register[1..] + [cmd];
      UnregisteringMore(register[1..], cmd, sid, registered);
      UnregisteringMore(register[1..], cmd, sid, true);
      UnregisteringMore(register[1..], cmd, sid, false);
    }
  }

  lemma NeutralDecides(y: System, e: Step, t: Triple)
    requires Covered(y.hub) && Decided(y, t) && Enabled(y, e) && Neutral(e, t)
    ensures Decided(Next(y, e), t) && (Survives(Next(y, e), t) <==> Survives(y, t))
  {
    match e
    case AddNow(s) => EventHas(y.hub, Add(s), t);
    case SubscribeNow(sid, st, c) => EventHas(y.hub, Sub(sid, st, c), t);
    case PushSub(cmd) =>
      assert [cmd][..0] == [];
      LastWordAppend(y.subscribe, [cmd], t);
    case PushReg(cmd) => UnregisteringMore(y.register, cmd, t.sid, t.sid in y.hub.sessions);
    case TakeSub => TakeSubDecides(y, t);
    case TakeReg => TakeRegDecides(y, t);
  }

  /** In whatever order the loop takes from the two channels, and whatever others do meanwhile. */
  lemma {:induction false} WorkedOff(y: System, es: seq<Step>, t: Triple)
    requires Covered(y.hub) && Decided(y, t) && Legal(y, es)
    requires forall e :: e in es ==> Neutral(e, t)
    requires Exec(y, es).subscribe == [] && Exec(y, es).register == []
    ensures Has(Exec(y, es).hub, t) <==> Survives(y, t)
    decreases |es|
  {
    if es != [] {
      assert es[0] in es;
      NextKeepsCovered(y, es[0]);
      NeutralDecides(y, es[0], t);
      WorkedOff(Next(y, es[0]), es[1..], t);
    }
  }

  /** What waits at the moment a stream is started decides: when both channels are worked off, in
      whatever order and among whatever other steps, the stream is there if and only if then no command
      waited that drops it and no removal of its session. The stops of the reply that starts it count
      only as far as the loop has not taken them yet. Nobody in the server pushes additions, so the
      order between the channels never matters (`Decided`). */
  lemma StartedStreamSurvivesIff(y: System, t: Triple, es: seq<Step>)
    requires Covered(y.hub) && Decided(y, t)
    requires Legal(Next(y, SubscribeNow(t.sid, t.stream, t.channel)), es)
    requires forall e :: e in es ==> Neutral(e, t)
    requires var z := Exec(Next(y, SubscribeNow(t.sid, t.stream, t.channel)), es);
             z.subscribe == [] && z.register == []
    ensures Has(Exec(Next(y, SubscribeNow(t.sid, t.stream, t.channel)), es).hub, t) <==>
            !LastWord(y.subscribe, t).Dropped? && !Leaves(y, t)
  {
    var started := SubscribeNow(t.sid, t.stream, t.channel);
    NextKeepsCovered(y, started);
    EventHas(y.hub, Sub(t.sid, t.stream, t.channel), t);
    assert Leaves(Next(y, started), t) == Leaves(y, t);
    WorkedOff(Next(y, started), es, t);
  }

  /** The system after a reply was handled while the loop took nothing: removals pushed, subscriptions
      made. The pushes wait when the channel has no room for all of them, so this needs a loop that
      keeps still and a channel with room. */
  function Handled(y: System, sid: Sid, c: Channel, reply: Reply): System {
    y.(hub := StartEach(y.hub, sid, c, reply.streams), subscribe := y.subscribe + Queued(sid, c, reply))
  }

  lemma {:induction false} StartEachKeepsSessions(h: Maps, sid: Sid, c: Channel, streams: seq<Stream>)
    ensures StartEach(h, sid, c, streams).sessions == h.sessions
    decreases |streams|
  {
    if streams != [] {
      StartEachKeepsSessions(Subscribe(h, sid, streams[0], c), sid, c, streams[1..]);
    }
  }

  /** If the loop takes nothing while the reply is handled: a stream the reply starts survives if and
      only if the reply neither stops everything nor stops that stream, nothing that already waited drops
      it, and no removal of its session waits. */
  lemma HandledAtOnceSurvivesIff(y: System, sid: Sid, c: Channel, reply: Reply, st: Stream, es: seq<Step>)
    requires Covered(y.hub) && st in reply.streams
    requires Decided(y, Triple(st, sid, c))
    requires Legal(Handled(y, sid, c, reply), es)
    requires forall e :: e in es ==> Neutral(e, Triple(st, sid, c))
    requires var z := Exec(Handled(y, sid, c, reply), es); z.subscribe == [] && z.register == []
    ensures Has(Exec(Handled(y, sid, c, reply), es).hub, Triple(st, sid, c)) <==>
            && !reply.stopAll && st !in reply.stopped
            && !LastWord(y.subscribe, Triple(st, sid, c)).Dropped?
            && !Leaves(y, Triple(st, sid, c))
  {
    var t := Triple(st, sid, c);
    var z := Handled(y, sid, c, reply);
    StartEachHas(y.hub, sid, c, reply.streams, t);
    StartEachKeepsSessions(y.hub, sid, c, reply.streams);
    LastWordAppend(y.subscribe, Queued(sid, c, reply), t);
    if !reply.stopAll {
      LastWordOfStops(sid, c, reply.stopped, st);
    }
    assert Leaves(z, t) == Leaves(y, t);
    WorkedOff(z, es, t);
  }

  /** The steps of a reply that stops and starts one stream, with the loop taking the stop in between:
      nothing waits in the end and the stream is there. */
  lemma RestartSurvives(sid: Sid, c: Channel, st: Stream)
    ensures var run := [PushSub(RemoveStream(sid, st, c))] + ([TakeSub] + [SubscribeNow(sid, st, c)]);
            && Legal(START, run)
            && (var z := Exec(START, run);
                z.subscribe == [] && z.register == [] && Has(z.hub, Triple(st, sid, c)))
  {
    TakenThenStarted(RemoveStream(sid, st, c), sid, c, st);
  }

  lemma TakenThenStarted(cmd: SubCmd, sid: Sid, c: Channel, st: Stream)
    ensures var run := [PushSub(cmd)] + ([TakeSub] + [SubscribeNow(sid, st, c)]);
            && Legal(START, run)
            && (var z := Exec(START, run);
                z.subscribe == [] && z.register == [] && Has(z.hub, Triple(st, sid, c)))
  {
    var y1 := Next(START, PushSub(cmd));
    assert y1.subscribe == [cmd];
    var y2 := Next(y1, TakeSub);
    var e := SubscribeNow(sid, st, c);
    NextKeepsCovered(START, PushSub(cmd));
    NextKeepsCovered(y1, TakeSub);
    EventHas(y2.hub, Sub(sid, st, c), Triple(st, sid, c));
    assert [e][1..] == [];
    assert Exec(y2, [e]) == Next(y2, e);
    ExecCons(y1, TakeSub, [e]);
    ExecCons(START, PushSub(cmd), [TakeSub] + [e]);
  }

  /** The same reply handled before the loop takes anything: the stream is lost. */
  lemma RestartLosesStream(h: Maps, sid: Sid, c: Channel, st: Stream)
    requires Covered(h)
    ensures var y := Handled(System(h, [], []), sid, c, Reply(false, [st], [st]));
            Legal(y, [TakeSub]) && !Has(Exec(y, [TakeSub]).hub, Triple(st, sid, c))
  {
    var reply := Reply(false, [st], [st]);
    var y := Handled(System(h, [], []), sid, c, reply);
    assert Queued(sid, c, reply) == [RemoveStream(sid, st, c)];
    assert y.subscribe == [RemoveStream(sid, st, c)];
    assert [TakeSub][1..] == [];
    assert Exec(y, [TakeSub]) == Next(y, TakeSub);
    HandledAtOnceSurvivesIff(System(h, [], []), sid, c, reply, st, [TakeSub]);
  }

  /** A reply that stops nothing, with a removal of the session waiting: the stream is there, and goes
      when the removal is taken. */
  lemma WaitingRemovalLosesStream(s: Client, c: Channel, st: Stream)
    ensures var y := Handled(System(AddSession(EMPTY, s), [], [Unregister(s)]), s.uid, c, Reply(false, [], [st]));
            && Has(y.hub, Triple(st, s.uid, c))
            && Legal(y, [TakeReg]) && !Has(Exec(y, [TakeReg]).hub, Triple(st, s.uid, c))
  {
    var reply := Reply(false, [], [st]);
    var before := System(AddSession(EMPTY, s), [], [Unregister(s)]);
    var y := Handled(before, s.uid, c, reply);
    var t := Triple(st, s.uid, c);
    ApplyKeepsCovered(EMPTY, Add(s));
    StartEachHas(before.hub, s.uid, c, reply.streams, t);
    assert y.subscribe == [];
    assert [TakeReg][1..] == [];
    assert Exec(y, [TakeReg]) == Next(y, TakeReg);
    assert Leaves(before, t);
    HandledAtOnceSurvivesIff(before, s.uid, c, reply, st, [TakeReg]);
  }

  // ----- A channel stopped altogether -----

  /** Whether the triple is started after `n` more commands were taken from the subscribe channel. */
  predicate StartsAfter(es: seq<Step>, n: nat, t: Triple) {
    es != [] &&
    if es[0].TakeSub? then StartsAfter(es[1..], if n == 0 then 0 else n - 1, t)
    else (n == 0 && es[0] == SubscribeNow(t.sid, t.stream, t.channel)) || StartsAfter(es[1..], n, t)
  }

  /** The session keeps its registration: no removal of it waits or is pushed. */
  predicate Staying(y: System, es: seq<Step>, sid: Sid) {
    && (forall cmd :: cmd in y.register ==> !Unregisters(cmd, sid))
    && (forall e :: e in es && e.PushReg? ==> !Unregisters(e.reg, sid))
  }

  lemma StayingNext(y: System, es: seq<Step>, sid: Sid)
    requires es != [] && Enabled(y, es[0]) && Staying(y, es, sid)
    ensures Staying(Next(y, es[0]), es[1..], sid)
  {
    assert es[0] in es;
  }

  /** No command about the triple is pushed. */
  predicate NotPushed(es: seq<Step>, t: Triple) {
    forall e :: e in es && e.PushSub? ==> !Mentions(e.sub, t)
  }

  /** What one step does to the triple while no command about it is next in the subscribe channel. */
  lemma QuietHas(y: System, e: Step, t: Triple)
    requires Covered(y.hub) && Enabled(y, e)
    requires e.TakeSub? ==> !Mentions(y.subscribe[0], t)
    ensures Has(Next(y, e).hub, t) ==> Has(y.hub, t) || e == SubscribeNow(t.sid, t.stream, t.channel)
    ensures e == SubscribeNow(t.sid, t.stream, t.channel) ==> Has(Next(y, e).hub, t)
    ensures Has(y.hub, t) && !(e.TakeReg? && Unregisters(y.register[0], t.sid)) ==> Has(Next(y, e).hub, t)
  {
    match e
    case AddNow(s) => EventHas(y.hub, Add(s), t);
    case SubscribeNow(sid, st, c) => EventHas(y.hub, Sub(sid, st, c), t);
    case PushSub(_) =>
    case PushReg(_) =>
    case TakeSub => CommandHas(y.hub, y.subscribe[0], t);
    case TakeReg => EventHas(y.hub, RegMeaning(y.register[0]), t);
  }

  /** With no command about the triple in the channel. */
  lemma {:induction false} AfterTheStop(y: System, es: seq<Step>, t: Triple)
    requires Covered(y.hub) && Legal(y, es) && NotPushed(es, t)
    requires forall cmd :: cmd in y.subscribe ==> !Mentions(cmd, t)
    ensures Has(Exec(y, es).hub, t) ==> Has(y.hub, t) || StartsAfter(es, 0, t)
    ensures Staying(y, es, t.sid) && (Has(y.hub, t) || StartsAfter(es, 0, t)) ==> Has(Exec(y, es).hub, t)
    decreases |es|
  {
    if es != [] {
      assert es[0] in es;
      NextKeepsCovered(y, es[0]);
      QuietHas(y, es[0], t);
      if Staying(y, es, t.sid) {
        StayingNext(y, es, t.sid);
      }
      AfterTheStop(Next(y, es[0]), es[1..], t);
    }
  }

  /** The channel's last command about the triple is at `n - 1`, and it stops the whole channel. */
  predicate StopAt(y: System, n: nat, t: Triple) {
    && 0 < n <= |y.subscribe|
    && y.subscribe[n - 1] == RemoveAll(t.sid, t.channel)
    && forall i :: n <= i < |y.subscribe| ==> !Mentions(y.subscribe[i], t)
  }

  lemma StopMoves(y: System, e: Step, n: nat, t: Triple)
    requires StopAt(y, n, t) && Enabled(y, e) && (e.PushSub? ==> !Mentions(e.sub, t))
    requires !(e.TakeSub? && n == 1)
    ensures StopAt(Next(y, e), if e.TakeSub? then n - 1 else n, t)
  {
    if e.PushSub? {
      var z := Next(y, e);
      forall i | n <= i < |z.subscribe| ensures !Mentions(z.subscribe[i], t) {
        assert z.subscribe[i] == if i < |y.subscribe| then y.subscribe[i] else e.sub;
      }
    }
  }

  lemma {:induction false} StopDecides(y: System, es: seq<Step>, n: nat, t: Triple)
    requires Covered(y.hub) && Legal(y, es) && NotPushed(es, t) && StopAt(y, n, t)
    requires Exec(y, es).subscribe == []
    ensures Has(Exec(y, es).hub, t) ==> StartsAfter(es, n, t)
    ensures Staying(y, es, t.sid) && StartsAfter(es, n, t) ==> Has(Exec(y, es).hub, t)
    decreases |es|
  {
    assert es[0] in es;
    var z := Next(y, es[0]);
    NextKeepsCovered(y, es[0]);
    if Staying(y, es, t.sid) {
      StayingNext(y, es, t.sid);
    }
    if es[0].TakeSub? && n == 1 {
      CommandHas(y.hub, y.subscribe[0], t);
      forall cmd | cmd in z.subscribe ensures !Mentions(cmd, t) {
        var i :| 0 <= i < |z.subscribe| && z.subscribe[i] == cmd;
        assert cmd == y.subscribe[i + 1];
      }
      AfterTheStop(z, es[1..], t);
    } else {
      StopMoves(y, es[0], n, t);
      StopDecides(z, es[1..], if es[0].TakeSub? then n - 1 else n, t);
    }
  }

  /** A reply stops all streams of a channel. Whatever happens then, once the subscribe channel is worked
      off the channel is on a stream only if that was started after the loop took the removal; and, as
      long as the session is not removed, if it was. */
  lemma StoppedChannelIff(y: System, t: Triple, es: seq<Step>)
    requires Covered(y.hub) && Enabled(y, PushSub(RemoveAll(t.sid, t.channel)))
    requires var z := Next(y, PushSub(RemoveAll(t.sid, t.channel)));
             Legal(z, es) && NotPushed(es, t) && Exec(z, es).subscribe == []
    ensures var z := Next(y, PushSub(RemoveAll(t.sid, t.channel)));
            && (Has(Exec(z, es).hub, t) ==> StartsAfter(es, |y.subscribe| + 1, t))
            && (Staying(y, es, t.sid) && StartsAfter(es, |y.subscribe| + 1, t) ==> Has(Exec(z, es).hub, t))
  {
    var z := Next(y, PushSub(RemoveAll(t.sid, t.channel)));
    NextKeepsCovered(y, PushSub(RemoveAll(t.sid, t.channel)));
    StopDecides(z, es, |y.subscribe| + 1, t);
  }

  lemma {:induction false} NotStarted(es: seq<Step>, n: nat, t: Triple)
    requires SubscribeNow(t.sid, t.stream, t.channel) !in es
    ensures !StartsAfter(es, n, t)
    decreases |es|
  {
    if es != [] {
      NotStarted(es[1..], n, t);
      NotStarted(es[1..], if n == 0 then 0 else n - 1, t);
    }
  }
}
