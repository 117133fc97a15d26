/** The hub itself: an object whose four maps are updated in place, step by step,
    as the hub loop and the readers do. Every method is tied to the operation of
    HubModel it carries out; what holds of those operations over whole runs is in
    HubProperties.
  */
module Hub {
  import opened HubModel
  import opened Basics

  class Hub {
    var sessions: map<Sid, Client>
    var identifiers: map<string, set<Sid>>
    var streams: Streams
    var sessionsStreams: map<Sid, Lists>

    function View(): Maps
      reads this
    {
      Maps(sessions, identifiers, streams, sessionsStreams)
    }

    constructor ()
      ensures View() == EMPTY
    {
      sessions, identifiers, streams, sessionsStreams := map[], map[], map[], map[];
    }

    method AddSession(session: Client)
      modifies this
      ensures View() == HubModel.AddSession(old(View()), session)
      ensures sessions == old(sessions)[session.uid := session]
    {
      sessions := sessions[session.uid := session];
      if session.identifiers !in identifiers {
        identifiers := identifiers[session.identifiers := {}];
      }
      identifiers := identifiers[session.identifiers := identifiers[session.identifiers] + {session.uid}];
    }

    method RemoveSession(session: Client)
      modifies this
      ensures View() == HubModel.RemoveSession(old(View()), session)
    {
      if session.uid !in sessions {
        return;
      }
      UnsubscribeSessionFromAllChannels(session.uid);
      sessions := sessions - {session.uid};
      if session.identifiers in identifiers {
        identifiers := identifiers[session.identifiers := identifiers[session.identifiers] - {session.uid}];
        if identifiers[session.identifiers] == {} {
          identifiers := identifiers - {session.identifiers};
        }
      }
    }

    /** The channels are taken in no particular order. */
    method UnsubscribeSessionFromAllChannels(sid: Sid)
      modifies this
      ensures View() == UnsubscribeFromAllChannels(old(View()), sid)
    {
      var lists := if sid in sessionsStreams then sessionsStreams[sid] else map[];
      var todo := lists.Keys;
      PruneNothing(streams, sid, map[], "");
      assert lists - todo == map[];
      while todo != {}
        invariant todo <= lists.Keys
        invariant streams == Prune(old(streams), sid, lists - todo)
        invariant View() == old(View()).(streams := streams)
        decreases |todo|
      {
        var channel :| channel in todo;
        UnsubscribeSessionFromChannel(sid, channel);
        PruneChannel(old(streams), sid, lists - todo, channel, lists[channel]);
        assert (lists - todo)[channel := lists[channel]] == lists - (todo - {channel});
        todo := todo - {channel};
      }
      assert lists - {} == lists;
      sessionsStreams := sessionsStreams - {sid};
    }

    method UnsubscribeSessionFromChannel(sid: Sid, identifier: Channel)
      modifies this
      ensures View() == UnsubscribeFromChannel(old(View()), sid, identifier)
    {
      PruneNothing(streams, sid, map[], identifier);
      if sid !in sessionsStreams {
        return;
      }
      var list := if identifier in sessionsStreams[sid] then sessionsStreams[sid][identifier] else [];
      for i := 0 to |list|
        invariant streams == Prune(old(streams), sid, map[identifier := list[..i]])
        invariant View() == old(View()).(streams := streams)
      {
        PruneListStep(old(streams), sid, identifier, list, i);
        DropStream(sid, identifier, list[i]);
      }
      assert list[..|list|] == list;
    }

    /** One round of the loop over the recorded streams. */
    method DropStream(sid: Sid, identifier: Channel, stream: Stream)
      modifies this
      ensures View() == old(View()).(streams := DropAt(old(streams), stream, sid, identifier))
    {
      if stream in streams && sid in streams[stream] {
        streams := streams[stream := streams[stream][sid := streams[stream][sid] - {identifier}]];
        if streams[stream][sid] == {} {
          streams := streams[stream := streams[stream] - {sid}];
        }
      }
      if stream in streams && streams[stream] == map[] {
        streams := streams - {stream};
      }
      assert stream in streams ==> streams[stream] == DropFromRow(old(streams)[stream], sid, {identifier});
      assert streams == DropAt(old(streams), stream, sid, identifier);
    }

    method SubscribeSession(sid: Sid, stream: Stream, identifier: Channel)
      modifies this
      ensures View() == Subscribe(old(View()), sid, stream, identifier)
    {
      // Missing inner maps are made on the way
      var row := if stream in streams then streams[stream] else map[];
      var channels := if sid in row then row[sid] else {};
      streams := streams[stream := row[sid := channels + {identifier}]];

      var lists := if sid in sessionsStreams then sessionsStreams[sid] else map[];
      var list := if identifier in lists then lists[identifier] else [];
      sessionsStreams := sessionsStreams[sid := lists[identifier := list + [stream]]];
    }

    method UnsubscribeSession(sid: Sid, stream: Stream, identifier: Channel)
      modifies this
      ensures View() == Unsubscribe(old(View()), sid, stream, identifier)
    {
      if stream !in streams || sid !in streams[stream] || identifier !in streams[stream][sid] {
        return;
      }
      streams := streams[stream := streams[stream][sid := streams[stream][sid] - {identifier}]];
    }

    /** Finds some registered session listed under the identifier, and misses none. */
    method FindByIdentifier(id: string) returns (found: Option<Client>)
      ensures found.Some? ==>
                exists uid :: id in identifiers && uid in identifiers[id] &&
                              uid in sessions && sessions[uid] == found.value
      ensures found.None? ==>
                id !in identifiers || identifiers[id] !! sessions.Keys
    {
      if id !in identifiers {
        return None;
      }
      var ids := identifiers[id];
      while ids != {}
        invariant ids <= identifiers[id]
        invariant (identifiers[id] - ids) !! sessions.Keys
        decreases |ids|
      {
        var uid :| uid in ids;
        if uid in sessions {
          return Some(sessions[uid]);
        }
        ids := ids - {uid};
      }
      return None;
    }

    /** The scheduled part of a remote disconnect: the sessions, by UID, that it sends to and closes.
        `ids` is what the captured inner map holds when the task runs. */
    method DisconnectTask(ids: set<Sid>) returns (reached: seq<Sid>)
      ensures Distinct(reached)
      ensures forall uid :: uid in reached <==> uid in ids && uid in sessions
    {
      reached := [];
      var todo := ids;
      while todo != {}
        invariant todo <= ids && Distinct(reached)
        invariant forall uid :: uid in reached <==> uid in ids - todo && uid in sessions
        decreases |todo|
      {
        var uid :| uid in todo;
        if uid in sessions {
          DistinctMore(reached, uid);
          reached := reached + [uid];
        }
        todo := todo - {uid};
      }
    }
  }
}
