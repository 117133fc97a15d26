/** The node's command handlers on one session: the controller's reply is turned into hub
    subscriptions, queued removals, merged state, broadcasts and transmissions.
  */
module Node {
  import opened Basics
  import HubModel
  import HubProperties
  import H = Hub
  import L = HubLoop
  import C = Commands
  import E = Env

  type Channel = string

  /** A command's result; nil lists act as empty ones. */
  datatype CommandResult = CommandResult(
    stopAllStreams: bool,
    disconnect: bool,
    streams: seq<string>,
    stoppedStreams: seq<string>,
    transmissions: seq<string>,
    broadcasts: seq<(string, string)>,
    cstate: Option<E.State>,
    istate: Option<E.State>,
    status: C.Status)

  /** A connect call's result. */
  datatype ConnectResult = ConnectResult(
    identifier: string,
    transmissions: seq<string>,
    broadcasts: seq<(string, string)>,
    cstate: Option<E.State>,
    status: C.Status)

  /** What handling replies changes outside the reader: the hub's maps, the removals waiting for
      its loop, the session's state, the broadcasts pushed, the transmissions sent, and whether
      the session was told to disconnect. */
  datatype Effects = Effects(
    hub: HubModel.Maps,
    waiting: seq<L.SubCmd>,
    env: E.View,
    broadcasts: seq<(string, string)>,
    sent: seq<string>,
    closing: bool)

  function StreamPart(r: CommandResult): L.Reply {
    L.Reply(r.stopAllStreams, r.stoppedStreams, r.streams)
  }

  function Replied(e: Effects, uid: string, id: Channel, r: CommandResult): Effects {
    Effects(L.StartEach(e.hub, uid, id, r.streams),
            e.waiting + L.Queued(uid, id, StreamPart(r)),
            E.AfterReply(e.env, E.Reply(id, r.cstate, r.istate)),
            e.broadcasts + r.broadcasts,
            e.sent + r.transmissions,
            e.closing || r.disconnect)
  }

  /** None is an RPC failure. */
  function AnswerOf(reply: Option<CommandResult>): C.Answer {
    if reply.None? then C.RpcFailure else C.Status(reply.value.status)
  }

  /** A successful unsubscribe stops all streams whatever the reply says. */
  function Unsubscribing(r: CommandResult): CommandResult {
    if C.Clean(C.Status(r.status)) then r.(stopAllStreams := true) else r
  }

  lemma {:induction false} StartEachLast(h: HubModel.Maps, sid: string, c: Channel, streams: seq<string>, st: string)
    ensures L.StartEach(h, sid, c, streams + [st]) == HubModel.Subscribe(L.StartEach(h, sid, c, streams), sid, st, c)
    decreases |streams|
  {
    if streams == [] {
      assert (streams + [st])[1..] == [];
    } else {
      assert (streams + [st])[1..] == streams[1..] + [st];
      StartEachLast(HubModel.Subscribe(h, sid, streams[0], c), sid, c, streams[1..], st);
    }
  }

  class NodeSession {
    const uid: string
    const hub: H.Hub
    const env: E.SessionEnv
    var subscriptions: set<Channel>
    var waiting: seq<L.SubCmd>
    var broadcasts: seq<(string, string)>
    var sent: seq<string>
    var closing: bool
    var identifiers: string
    var connected: bool
    ghost var calls: seq<C.Call>

    ghost function Reader(): C.Reader
      reads this
    {
      C.Reader(subscriptions, calls)
    }

    function Changed(): Effects
      reads this, hub, env
    {
      Effects(hub.View(), waiting, env.Current(), broadcasts, sent, closing)
    }

    constructor (uid: string, hub: H.Hub)
      ensures this.uid == uid && this.hub == hub && fresh(env)
      ensures Reader() == C.NEW
      ensures Changed() == Effects(hub.View(), [], E.NEW, [], [], false)
    {
      this.uid, this.hub := uid, hub;
      env := new E.SessionEnv();
      subscriptions, waiting, broadcasts, sent, closing, calls := {}, [], [], [], false, [];
      identifiers, connected := "", false;
    }

    /** Only a SUCCESS answer connects and registers the session; every other outcome disconnects it,
        and a failed call or an ERROR answer does so before any of its reply is handled. `handle`
        is the identity of the session object. */
    method Authenticate(handle: nat, reply: Option<ConnectResult>) returns (err: bool)
      modifies this, hub, env
      ensures err <==> reply.None? || reply.value.status.ERROR?
      ensures var ok := reply.Some? && reply.value.status.SUCCESS?;
              && connected == (old(connected) || ok)
              && identifiers == (if ok then reply.value.identifier else old(identifiers))
              && closing == (old(closing) || !ok)
              && hub.View() ==
                 if ok then HubModel.AddSession(old(hub.View()), HubModel.Client(handle, uid, reply.value.identifier))
                 else old(hub.View())
      ensures env.Current() == if err then old(env.Current())
                               else E.AfterReply(old(env.Current()), E.Reply("", reply.value.cstate, None))
      ensures sent == if err then old(sent) else old(sent) + reply.value.transmissions
      ensures broadcasts == if err then old(broadcasts) else old(broadcasts) + reply.value.broadcasts
      ensures Reader() == old(Reader()) && waiting == old(waiting)
    {
      if reply.None? || C.HasError(reply.value.status) {
        closing := true;
        return true;
      }
      var res := reply.value;
      if res.status.SUCCESS? {
        identifiers := res.identifier;
        connected := true;
        hub.AddSession(HubModel.Client(handle, uid, identifiers));
      }
      env.MergeReply(E.Reply("", res.cstate, None));
      broadcasts := broadcasts + res.broadcasts;
      sent := sent + res.transmissions;
      closing := closing || !res.status.SUCCESS?;
      err := false;
    }

    /** Removals are queued before subscriptions are made; they take effect when the loop takes them. */
    method HandleCommandReply(id: Channel, reply: CommandResult)
      modifies this, hub, env
      ensures Changed() == Replied(old(Changed()), uid, id, reply)
      ensures Reader() == old(Reader())
    {
      QueueRemovals(id, reply);
      StartStreams(id, reply.streams);
      env.MergeReply(E.Reply(id, reply.cstate, reply.istate));
      broadcasts := broadcasts + reply.broadcasts;
      sent := sent + reply.transmissions;
      closing := closing || reply.disconnect;
    }

    /** Subscriptions go into the hub's maps at once. */
    method StartStreams(id: Channel, streams: seq<string>)
      modifies hub
      ensures hub.View() == L.StartEach(old(hub.View()), uid, id, streams)
    {
      for i := 0 to |streams|
        invariant hub.View() == L.StartEach(old(hub.View()), uid, id, streams[..i])
      {
        StartEachLast(old(hub.View()), uid, id, streams[..i], streams[i]);
        assert streams[..i] + [streams[i]] == streams[..i + 1];
        hub.SubscribeSession(uid, streams[i], id);
      }
      assert streams[..|streams|] == streams;
    }

    /** Removals wait for the hub loop. */
    method QueueRemovals(id: Channel, reply: CommandResult)
      modifies this`waiting
      ensures waiting == old(waiting) + L.Queued(uid, id, StreamPart(reply))
    {
      if reply.stopAllStreams {
        waiting := waiting + [L.RemoveAll(uid, id)];
        return;
      }
      for i := 0 to |reply.stoppedStreams|
        invariant waiting == old(waiting) + L.StopEach(uid, id, reply.stoppedStreams)[..i]
      {
        waiting := waiting + [L.RemoveStream(uid, reply.stoppedStreams[i], id)];
      }
    }

    /** Err is returned for a channel already subscribed, an RPC failure and an ERROR reply; the
        reply is handled whenever there is one. */
    method Subscribe(id: Channel, reply: Option<CommandResult>) returns (err: bool)
      modifies this, hub, env
      ensures Reader() == C.Handle(old(Reader()), C.Command(C.Subscribe, id), AnswerOf(reply))
      ensures err <==> id in old(subscriptions) || reply.None? || reply.value.status.ERROR?
      ensures subscriptions == if err then old(subscriptions) else old(subscriptions) + {id}
      ensures Changed() == if id in old(subscriptions) || reply.None? then old(Changed())
                           else Replied(old(Changed()), uid, id, reply.value)
    {
      if id in subscriptions {
        return true;
      }
      err := !C.Clean(AnswerOf(reply));
      calls := calls + [C.Call(C.Subscribe, id, !err)];
      if !err {
        subscriptions := subscriptions + {id};
      }
      if reply.Some? {
        HandleCommandReply(id, reply.value);
      }
    }

    method Unsubscribe(id: Channel, reply: Option<CommandResult>) returns (err: bool)
      modifies this, hub, env
      ensures Reader() == C.Handle(old(Reader()), C.Command(C.Unsubscribe, id), AnswerOf(reply))
      ensures err <==> id !in old(subscriptions) || reply.None? || reply.value.status.ERROR?
      ensures subscriptions == if err then old(subscriptions) else old(subscriptions) - {id}
      ensures Changed() == if id !in old(subscriptions) || reply.None? then old(Changed())
                           else if err then Replied(old(Changed()), uid, id, reply.value)
                           else Replied(old(Changed()), uid, id, reply.value.(stopAllStreams := true))
    {
      if id !in subscriptions {
        return true;
      }
      err := !C.Clean(AnswerOf(reply));
      calls := calls + [C.Call(C.Unsubscribe, id, !err)];
      var res := reply;
      if !err {
        res := Some(reply.value.(stopAllStreams := true));
        subscriptions := subscriptions - {id};
      }
      if res.Some? {
        HandleCommandReply(id, res.value);
      }
    }

    method Perform(id: Channel, isString: bool, reply: Option<CommandResult>) returns (err: bool)
      modifies this, hub, env
      ensures Reader() == C.Handle(old(Reader()), if isString then C.Command(C.Perform, id) else C.PerformNoString(id),
                                   AnswerOf(reply))
      ensures err <==> id !in old(subscriptions) || !isString || reply.None? || reply.value.status.ERROR?
      ensures subscriptions == old(subscriptions)
      ensures Changed() == if id !in old(subscriptions) || !isString || reply.None? then old(Changed())
                           else Replied(old(Changed()), uid, id, reply.value)
    {
      if id !in subscriptions || !isString {
        return true;
      }
      err := !C.Clean(AnswerOf(reply));
      calls := calls + [C.Call(C.Perform, id, !err)];
      if reply.Some? {
        HandleCommandReply(id, reply.value);
      }
    }
  }

  // ----- Replies one after the other -----

  type Replies = seq<(Channel, CommandResult)>

  function HandleAll(e: Effects, uid: string, rs: Replies): Effects {
    if rs == [] then e
    else Replied(HandleAll(e, uid, rs[..|rs| - 1]), uid, rs[|rs| - 1].0, rs[|rs| - 1].1)
  }

  /** The connection states the replies carry, and the channel states of those for one channel. */
  function CStates(rs: Replies): seq<E.State> {
    if rs == [] then []
    else
      var r := rs[|rs| - 1].1;
      CStates(rs[..|rs| - 1]) + (if r.cstate.Some? then [r.cstate.value] else [])
  }

  function IStates(rs: Replies, id: Channel): seq<E.State> {
    if rs == [] then []
    else
      var (c, r) := rs[|rs| - 1];
      IStates(rs[..|rs| - 1], id) + (if c == id && r.istate.Some? then [r.istate.value] else [])
  }

  function Transmissions(rs: Replies): seq<string> {
    if rs == [] then [] else Transmissions(rs[..|rs| - 1]) + rs[|rs| - 1].1.transmissions
  }

  function Broadcasts(rs: Replies): seq<(string, string)> {
    if rs == [] then [] else Broadcasts(rs[..|rs| - 1]) + rs[|rs| - 1].1.broadcasts
  }

  /** What one more reply does to the two kinds of state. */
  lemma RepliedState(e: Effects, uid: string, c: Channel, r: CommandResult, id: Channel)
    ensures var env := Replied(e, uid, c, r).env;
            && env.connection ==
               (if r.cstate.Some? then E.Merge(e.env.connection, r.cstate.value) else e.env.connection)
            && (id in env.channels <==> id in e.env.channels || (c == id && r.istate.Some?))
            && E.StateOf(env, id) ==
               if c == id && r.istate.Some? then E.Merge(E.StateOf(e.env, id), r.istate.value) else E.StateOf(e.env, id)
  {}

  /** After any series of replies the connection state is the fold of the connection states they carry,
      after those merged before. */
  lemma {:induction false} RepliesFoldConnection(e: Effects, uid: string, rs: Replies, earlier: seq<E.Reply>)
    requires e.env == E.AfterReplies(earlier)
    ensures HandleAll(e, uid, rs).env.connection == E.Fold(E.ConnectionUpdates(earlier) + CStates(rs))
    decreases |rs|
  {
    var before := E.ConnectionUpdates(earlier);
    if rs == [] {
      E.EnvIsFold(earlier, "");
      assert before + [] == before;
    } else {
      var init, c, r := rs[..|rs| - 1], rs[|rs| - 1].0, rs[|rs| - 1].1;
      RepliesFoldConnection(e, uid, init, earlier);
      RepliedState(HandleAll(e, uid, init), uid, c, r, "");
      if r.cstate.Some? {
        E.FoldMore(before + CStates(init), r.cstate.value);
        assert before + CStates(rs) == before + CStates(init) + [r.cstate.value];
      } else {
        assert before + CStates(rs) == before + CStates(init);
      }
    }
  }

  /** And a channel has a state once one was carried for it, the fold of those carried for it alone. */
  lemma {:induction false} RepliesFoldChannel(e: Effects, uid: string, rs: Replies, earlier: seq<E.Reply>, id: Channel)
    requires e.env == E.AfterReplies(earlier)
    ensures var env := HandleAll(e, uid, rs).env;
            && (id in env.channels <==> E.ChannelUpdates(earlier, id) + IStates(rs, id) != [])
            && E.StateOf(env, id) == E.Fold(E.ChannelUpdates(earlier, id) + IStates(rs, id))
    decreases |rs|
  {
    var before := E.ChannelUpdates(earlier, id);
    if rs == [] {
      E.EnvIsFold(earlier, id);
      assert before + [] == before;
    } else {
      var init, c, r := rs[..|rs| - 1], rs[|rs| - 1].0, rs[|rs| - 1].1;
      RepliesFoldChannel(e, uid, init, earlier, id);
      RepliedState(HandleAll(e, uid, init), uid, c, r, id);
      if c == id && r.istate.Some? {
        E.FoldMore(before + IStates(init, id), r.istate.value);
        assert before + IStates(rs, id) == before + IStates(init, id) + [r.istate.value];
      } else {
        assert before + IStates(rs, id) == before + IStates(init, id);
      }
    }
  }

  /** After any series of replies: what is sent and broadcast is what they carry, in order. */
  lemma {:induction false} RepliesSend(e: Effects, uid: string, rs: Replies)
    ensures var f := HandleAll(e, uid, rs);
            f.sent == e.sent + Transmissions(rs) && f.broadcasts == e.broadcasts + Broadcasts(rs)
    decreases |rs|
  {
    if rs == [] {
      assert e.sent + [] == e.sent && e.broadcasts + [] == e.broadcasts;
    } else {
      var init, r := rs[..|rs| - 1], rs[|rs| - 1].1;
      RepliesSend(e, uid, init);
      assert e.sent + Transmissions(rs) == e.sent + Transmissions(init) + r.transmissions;
      assert e.broadcasts + Broadcasts(rs) == e.broadcasts + Broadcasts(init) + r.broadcasts;
    }
  }

  /** And the session is told to disconnect if and only if one of them says so. */
  lemma {:induction false} RepliesDisconnectIff(e: Effects, uid: string, rs: Replies)
    ensures HandleAll(e, uid, rs).closing <==> e.closing || exists i :: 0 <= i < |rs| && rs[i].1.disconnect
    decreases |rs|
  {
    if rs != [] {
      var init := rs[..|rs| - 1];
      RepliesDisconnectIff(e, uid, init);
      assert forall i :: 0 <= i < |init| ==> init[i] == rs[i];
    }
  }

  /** The stream was started by one of the replies for the triple's channel. */
  ghost predicate Started(rs: Replies, uid: string, t: HubProperties.Triple) {
    t.sid == uid && exists i :: 0 <= i < |rs| && rs[i].0 == t.channel && t.stream in rs[i].1.streams
  }

  lemma StartedMore(rs: Replies, uid: string, t: HubProperties.Triple)
    requires rs != []
    ensures Started(rs, uid, t) <==>
            Started(rs[..|rs| - 1], uid, t) ||
            (t.sid == uid && rs[|rs| - 1].0 == t.channel && t.stream in rs[|rs| - 1].1.streams)
  {
    var init := rs[..|rs| - 1];
    assert forall i :: 0 <= i < |init| ==> init[i] == rs[i];
  }

  /** After any series of replies the hub has the streams it had and those they start, and the commands
      pushed for a reply are, after those of the earlier ones, one for the channel if it stops all, else
      one for each stream it stops. */
  lemma {:induction false} RepliesStartAndStop(e: Effects, uid: string, rs: Replies, t: HubProperties.Triple)
    requires HubProperties.Covered(e.hub)
    ensures var f := HandleAll(e, uid, rs);
            && HubProperties.Covered(f.hub)
            && (HubProperties.Has(f.hub, t) <==> HubProperties.Has(e.hub, t) || Started(rs, uid, t))
            && (rs != [] ==>
                  var (c, r) := rs[|rs| - 1];
                  f.waiting == HandleAll(e, uid, rs[..|rs| - 1]).waiting +
                               if r.stopAllStreams then [L.RemoveAll(uid, c)]
                               else seq(|r.stoppedStreams|, i requires 0 <= i < |r.stoppedStreams| =>
                                                              L.RemoveStream(uid, r.stoppedStreams[i], c)))
    decreases |rs|
  {
    if rs != [] {
      var init, c, r := rs[..|rs| - 1], rs[|rs| - 1].0, rs[|rs| - 1].1;
      RepliesStartAndStop(e, uid, init, t);
      L.StartEachHas(HandleAll(e, uid, init).hub, uid, c, r.streams, t);
      StartedMore(rs, uid, t);
    }
  }

  /** What a reply pushes when an unsubscribe succeeded. */
  lemma UnsubscribePushes(uid: string, id: Channel, r: CommandResult)
    requires r.status.SUCCESS? || r.status.FAILURE?
    ensures L.Queued(uid, id, StreamPart(Unsubscribing(r))) == [L.RemoveAll(uid, id)]
  {}

  /** A successful unsubscribe, with the hub loop and everybody else running on: once the subscribe
      channel is worked off, the channel is on a stream only if the reply starts that stream and did so
      after the loop had taken the removal, and, as long as the session is not removed, if it did. `es`
      is all that happens after the push; in it only the reply subscribes the channel, and no further
      command about it is pushed. */
  lemma UnsubscribeClearsChannel(y: L.System, uid: string, id: Channel, r: CommandResult, st: string, es: seq<L.Step>)
    requires HubProperties.Covered(y.hub) && (r.status.SUCCESS? || r.status.FAILURE?)
    requires L.Enabled(y, L.PushSub(L.RemoveAll(uid, id)))
    requires var z := L.Next(y, L.PushSub(L.Queued(uid, id, StreamPart(Unsubscribing(r)))[0]));
             L.Legal(z, es) && L.Exec(z, es).subscribe == []
    requires L.NotPushed(es, HubProperties.Triple(st, uid, id))
    requires L.SubscribeNow(uid, st, id) in es ==> st in r.streams
    ensures var z := L.Next(y, L.PushSub(L.Queued(uid, id, StreamPart(Unsubscribing(r)))[0]));
            var t := HubProperties.Triple(st, uid, id);
            && (HubProperties.Has(L.Exec(z, es).hub, t) ==>
                  st in r.streams && L.StartsAfter(es, |y.subscribe| + 1, t))
            && (L.Staying(y, es, uid) && L.StartsAfter(es, |y.subscribe| + 1, t) ==>
                  HubProperties.Has(L.Exec(z, es).hub, t))
  {
    var t := HubProperties.Triple(st, uid, id);
    UnsubscribePushes(uid, id, r);
    L.StoppedChannelIff(y, t, es);
    if L.SubscribeNow(uid, st, id) !in es {
      L.NotStarted(es, |y.subscribe| + 1, t);
    }
  }

  /** Such a run: the loop takes the removal, then the reply starts a stream, and the channel is on it. */
  lemma UnsubscribedStaysOnStream(uid: string, id: Channel, st: string)
    ensures var run := [L.PushSub(L.RemoveAll(uid, id))] + ([L.TakeSub] + [L.SubscribeNow(uid, st, id)]);
            && L.Legal(L.START, run)
            && (var z := L.Exec(L.START, run);
                && z.subscribe == [] && z.register == []
                && HubProperties.Has(z.hub, HubProperties.Triple(st, uid, id)))
  {
    L.TakenThenStarted(L.RemoveAll(uid, id), uid, id, st);
  }

  /** If the loop takes nothing while the reply is handled, the channel is on no stream once what waits
      is worked off, not even on streams the same reply starts or earlier commands add. */
  lemma UnsubscribeAtOnceClears(e: Effects, uid: string, id: Channel, r: CommandResult, st: string)
    requires HubProperties.Covered(e.hub) && (r.status.SUCCESS? || r.status.FAILURE?)
    ensures var f := Replied(e, uid, id, Unsubscribing(r));
            !HubProperties.Has(L.Drain(f.hub, f.waiting), HubProperties.Triple(st, uid, id))
  {
    var f := Replied(e, uid, id, Unsubscribing(r));
    var t := HubProperties.Triple(st, uid, id);
    L.StartEachHas(e.hub, uid, id, r.streams, t);
    assert f.waiting == e.waiting + [L.RemoveAll(uid, id)];
    L.DrainOutcome(f.hub, f.waiting, t);
  }

  // ----- Looking sessions up -----

  /** With the identifier index in agreement a look-up succeeds if and only if some registered
      session carries the identifier, and then finds one that does, the one last added with its UID. */
  method LookupSession(hub: H.Hub, id: string) returns (found: Option<HubModel.Client>)
    requires HubProperties.Agrees(hub.View())
    ensures found.Some? <==> exists uid :: HubProperties.Carries(hub.View(), uid, id)
    ensures found.Some? ==> found.value.identifiers == id && found.value in hub.sessions.Values
    ensures forall es :: hub.View() == HubModel.Run(HubModel.EMPTY, es) && found.Some? ==>
                           HubProperties.LastAdded(es, found.value.uid) &&
                           found.value == HubProperties.LastClient(es, found.value.uid)
  {
    found := hub.FindByIdentifier(id);
    if found.Some? {
      forall es | hub.View() == HubModel.Run(HubModel.EMPTY, es)
        ensures HubProperties.LastAdded(es, found.value.uid)
        ensures found.value == HubProperties.LastClient(es, found.value.uid)
      {
        var key :| key in hub.sessions && hub.sessions[key] == found.value;
        HubProperties.StoredIsLastAdded(es, key);
      }
      var uid :| id in hub.identifiers && uid in hub.identifiers[id] &&
                 uid in hub.sessions && hub.sessions[uid] == found.value;
      assert HubProperties.Indexed(hub.View(), id, uid);
      assert HubProperties.Carries(hub.View(), uid, id);
    } else {
      forall uid ensures !HubProperties.Carries(hub.View(), uid, id) {
        assert HubProperties.Indexed(hub.View(), id, uid) <==> HubProperties.Carries(hub.View(), uid, id);
      }
    }
  }

  /** A remote disconnect looks the identifier up at `h`, and its task goes over the captured map
      after the hub has taken the steps `es`. It reaches the registered sessions the index lists by
      then, provided the identifier never left the index in between, and none otherwise. */
  method RemoteDisconnect(hub: H.Hub, id: string, h: HubModel.Maps, es: seq<HubModel.Event>)
    returns (reached: seq<string>)
    requires HubModel.Run(h, es) == hub.View()
    ensures Distinct(reached)
    ensures forall uid :: uid in reached <==> Due(h, id, es, uid)
  {
    if id !in h.identifiers {
      return [];
    }
    var captured := HubProperties.Capture(h.identifiers[id], true);
    HubProperties.CaptureIsCurrentOrEmpty(captured, h, id, es);
    var later := HubProperties.FollowAll(captured, h, id, es);
    reached := hub.DisconnectTask(later.content);
  }

  predicate Due(h: HubModel.Maps, id: string, es: seq<HubModel.Event>, uid: string) {
    var now := HubModel.Run(h, es);
    HubProperties.StaysIndexed(h, id, es) && HubProperties.Indexed(now, id, uid) && uid in now.sessions
  }

  /** Read off the events: whoever is listed under the identifier and registered was last added with it. */
  ghost predicate NoForeigner(run: seq<HubModel.Event>, id: string) {
    forall uid ::
      HubProperties.LastIndexed(run, id, uid) && HubProperties.LastAdded(run, uid) ==>
        HubProperties.LastCarried(run, uid, id)
  }

  /** Somebody was last added with the identifier and not removed since. */
  ghost predicate Carried(run: seq<HubModel.Event>, id: string) {
    exists uid :: HubProperties.LastCarried(run, uid, id)
  }

  /** In every run, reused UIDs included: those due are exactly the sessions that carry the identifier
      when the task runs, if and only if the index lists no foreigner under it as long as the
      identifier never left, and nobody carries it any more once it did. */
  lemma DueRightlyIff(before: seq<HubModel.Event>, id: string, es: seq<HubModel.Event>)
    ensures var h := HubModel.Run(HubModel.EMPTY, before);
            var now := HubModel.Run(h, es);
            (forall uid :: Due(h, id, es, uid) <==> HubProperties.Carries(now, uid, id)) <==>
              if HubProperties.StaysIndexed(h, id, es) then NoForeigner(before + es, id) else !Carried(before + es, id)
  {
    var h := HubModel.Run(HubModel.EMPTY, before);
    var now := HubModel.Run(h, es);
    var run := before + es;
    HubProperties.RunAppend(HubModel.EMPTY, before, es);
    forall uid
      ensures HubProperties.Carries(now, uid, id) <==> HubProperties.LastCarried(run, uid, id)
      ensures Due(h, id, es, uid) <==>
              HubProperties.StaysIndexed(h, id, es) && HubProperties.LastIndexed(run, id, uid) &&
              HubProperties.LastAdded(run, uid)
      ensures HubProperties.LastCarried(run, uid, id) ==> HubProperties.LastIndexed(run, id, uid)
      ensures HubProperties.LastCarried(run, uid, id) ==> HubProperties.LastAdded(run, uid)
    {
      HubProperties.IndexTellsIff(run, id, uid);
      HubProperties.RunTellsIff(run, uid);
      if HubProperties.LastCarried(run, uid, id) {
        HubProperties.CarriedIsIndexed(run, id, uid);
      }
    }
    if forall uid :: Due(h, id, es, uid) <==> HubProperties.Carries(now, uid, id) {
      if HubProperties.StaysIndexed(h, id, es) {
        forall uid | HubProperties.LastIndexed(run, id, uid) && HubProperties.LastAdded(run, uid)
          ensures HubProperties.LastCarried(run, uid, id)
        {
          assert Due(h, id, es, uid);
        }
      }
    }
  }

  /** With the index in agreement, exactly the carriers, provided the identifier never left. */
  lemma DueUnderAgreement(h: HubModel.Maps, id: string, es: seq<HubModel.Event>, uid: string)
    requires HubProperties.Agrees(HubModel.Run(h, es))
    ensures Due(h, id, es, uid) <==>
            HubProperties.StaysIndexed(h, id, es) && HubProperties.Carries(HubModel.Run(h, es), uid, id)
  {
    var now := HubModel.Run(h, es);
    assert HubProperties.Indexed(now, id, uid) <==> HubProperties.Carries(now, uid, id);
  }

  /** After a UID was reused, a disconnect of the first session's identifiers reaches the second. */
  lemma ForeignerIsReached(first: HubModel.Client, second: HubModel.Client)
    requires first.uid == second.uid && first.identifiers != second.identifiers
    ensures var h := HubModel.Run(HubModel.EMPTY, [HubModel.Add(first), HubModel.Add(second)]);
            && Due(h, first.identifiers, [], second.uid)
            && !HubProperties.Carries(h, second.uid, first.identifiers)
  {
    HubProperties.ReusedUidOutlivesRemoval(first, second);
  }
}
