/** The four maps of the hub as one value, and what each hub operation makes of it.

    The Go maps used as sets (`map[string]bool`, only ever holding `true`) are
    `set`s here. Reading a missing key of a Go map yields a nil map, deleting
    from a nil map does nothing and its length is 0; the functions below spell
    those cases out.
  */
module HubModel {

  type Sid = string
  type Stream = string
  type Channel = string

  /** A registered connection. `handle` tells apart two connections that arrive with the same UID. */
  datatype Client = Client(handle: nat, uid: Sid, identifiers: string)

  /** stream -> session -> channel identifiers */
  type Row = map<Sid, set<Channel>>
  type Streams = map<Stream, Row>

  /** channel identifier -> streams, as recorded for one session */
  type Lists = map<Channel, seq<Stream>>

  datatype Maps = Maps(
    sessions: map<Sid, Client>,
    identifiers: map<string, set<Sid>>,
    streams: Streams,
    sessionsStreams: map<Sid, Lists>)

  const EMPTY := Maps(map[], map[], map[], map[])

  // ----- Removal of a session's channels from the forward index -----

  /** The channels of `lists` that mention stream `st`. */
  function Touched(lists: Lists, st: Stream): set<Channel> {
    set c | c in lists && st in lists[c]
  }

  /** One stream's row once the channels `dropped` of session `sid` are gone:
      the session leaves the row when nothing is left of it. */
  function DropFromRow(row: Row, sid: Sid, dropped: set<Channel>): Row {
    if sid !in row then row
    else if row[sid] - dropped == {} then row - {sid}
    else row[sid := row[sid] - dropped]
  }

  /** Dropping one channel at one stream; the stream itself goes when its row becomes empty. */
  function DropAt(streams: Streams, st: Stream, sid: Sid, c: Channel): Streams {
    if st !in streams then streams
    else
      var row := DropFromRow(streams[st], sid, {c});
      if row == map[] then streams - {st} else streams[st := row]
  }

  /** What is left of stream `st` after `lists` has been worked off; an empty row means nothing. */
  function PrunedRow(row: Row, st: Stream, sid: Sid, lists: Lists): Row {
    if Touched(lists, st) == {} then row else DropFromRow(row, sid, Touched(lists, st))
  }

  /** The forward index after every stream of every channel in `lists` was dropped
      for `sid`, in whatever order. Streams not mentioned are left alone, even with empty rows. */
  function Prune(streams: Streams, sid: Sid, lists: Lists): Streams {
    map st | st in streams && (Touched(lists, st) == {} || PrunedRow(streams[st], st, sid, lists) != map[])
      :: PrunedRow(streams[st], st, sid, lists)
  }

  // ----- The operations -----

  function AddSession(h: Maps, s: Client): Maps {
    var known := if s.identifiers in h.identifiers then h.identifiers[s.identifiers] else {};
    h.(sessions := h.sessions[s.uid := s],
       identifiers := h.identifiers[s.identifiers := known + {s.uid}])
  }

  function ListsOf(h: Maps, sid: Sid): Lists {
    if sid in h.sessionsStreams then h.sessionsStreams[sid] else map[]
  }

  function StreamsOf(h: Maps, sid: Sid, c: Channel): seq<Stream> {
    if c in ListsOf(h, sid) then ListsOf(h, sid)[c] else []
  }

  /** The reverse index is read but never cleared. */
  function UnsubscribeFromChannel(h: Maps, sid: Sid, c: Channel): Maps {
    h.(streams := Prune(h.streams, sid, map[c := StreamsOf(h, sid, c)]))
  }

  function UnsubscribeFromAllChannels(h: Maps, sid: Sid): Maps {
    h.(streams := Prune(h.streams, sid, ListsOf(h, sid)),
       sessionsStreams := h.sessionsStreams - {sid})
  }

  function Subscribe(h: Maps, sid: Sid, st: Stream, c: Channel): Maps {
    var row := if st in h.streams then h.streams[st] else map[];
    var ids := if sid in row then row[sid] else {};
    h.(streams := h.streams[st := row[sid := ids + {c}]],
       sessionsStreams := h.sessionsStreams[sid := ListsOf(h, sid)[c := StreamsOf(h, sid, c) + [st]]])
  }

  /** Leaves the session in the row even when its last channel goes: the empty residue. */
  function Unsubscribe(h: Maps, sid: Sid, st: Stream, c: Channel): Maps {
    if st in h.streams && sid in h.streams[st] && c in h.streams[st][sid]
    then h.(streams := h.streams[st := h.streams[st][sid := h.streams[st][sid] - {c}]])
    else h
  }

  /** Works on the identifiers of the session object it is given, not of the one stored. */
  function RemoveSession(h: Maps, s: Client): Maps {
    if s.uid !in h.sessions then h
    else
      var g := UnsubscribeFromAllChannels(h, s.uid);
      g.(sessions := g.sessions - {s.uid}, identifiers := DropUid(g.identifiers, s.identifiers, s.uid))
  }

  function DropUid(identifiers: map<string, set<Sid>>, ident: string, uid: Sid): map<string, set<Sid>> {
    if ident !in identifiers then identifiers
    else if identifiers[ident] - {uid} == {} then identifiers - {ident}
    else identifiers[ident := identifiers[ident] - {uid}]
  }

  // ----- Runs -----

  datatype Event =
    | Add(session: Client)
    | Remove(session: Client)
    | Sub(sid: Sid, stream: Stream, channel: Channel)
    | Unsub(sid: Sid, stream: Stream, channel: Channel)
    | UnsubChannel(sid: Sid, channel: Channel)

  function Apply(h: Maps, e: Event): Maps {
    match e
    case Add(s) => AddSession(h, s)
    case Remove(s) => RemoveSession(h, s)
    case Sub(sid, st, c) => Subscribe(h, sid, st, c)
    case Unsub(sid, st, c) => Unsubscribe(h, sid, st, c)
    case UnsubChannel(sid, c) => UnsubscribeFromChannel(h, sid, c)
  }

  function Run(h: Maps, es: seq<Event>): Maps
    decreases |es|
  {
    if es == [] then h else Run(Apply(h, es[0]), es[1..])
  }

  // ----- How Prune composes -----

  lemma DropFromRowTwice(row: Row, sid: Sid, d: set<Channel>, e: set<Channel>)
    ensures DropFromRow(DropFromRow(row, sid, d), sid, e) == DropFromRow(row, sid, d + e)
  {
    if sid in row {
      assert row[sid] - d - e == row[sid] - (d + e);
    }
  }

  /** Membership and content of a pruned index, one stream at a time. */
  lemma PruneAt(streams: Streams, sid: Sid, lists: Lists, x: Stream)
    ensures x in Prune(streams, sid, lists) <==>
            x in streams && (Touched(lists, x) == {} || PrunedRow(streams[x], x, sid, lists) != map[])
    ensures x in Prune(streams, sid, lists) ==>
            Prune(streams, sid, lists)[x] == PrunedRow(streams[x], x, sid, lists)
  {}

  lemma TouchedMore(lists: Lists, c: Channel, st: Stream, x: Stream)
    requires c in lists
    ensures Touched(lists[c := lists[c] + [st]], x) ==
            if x == st then Touched(lists, x) + {c} else Touched(lists, x)
  {}

  /** Working off one more stream of one channel is one more drop. */
  lemma PruneOneMore(streams: Streams, sid: Sid, lists: Lists, c: Channel, st: Stream)
    requires c in lists
    ensures Prune(streams, sid, lists[c := lists[c] + [st]]) == DropAt(Prune(streams, sid, lists), st, sid, c)
  {
    var more := lists[c := lists[c] + [st]];
    var left, right := Prune(streams, sid, more), DropAt(Prune(streams, sid, lists), st, sid, c);
    forall x: Stream
      ensures x in left <==> x in right
      ensures x in left ==> left[x] == right[x]
    {
      PruneAt(streams, sid, lists, x);
      PruneAt(streams, sid, more, x);
      TouchedMore(lists, c, st, x);
      if x == st && st in streams {
        DropFromRowTwice(streams[st], sid, Touched(lists, st), {c});
        assert {} + {c} == {c};
      }
    }
    assert left.Keys == right.Keys;
  }

  lemma PruneListStep(streams: Streams, sid: Sid, c: Channel, l: seq<Stream>, i: nat)
    requires i < |l|
    ensures Prune(streams, sid, map[c := l[..i + 1]]) == DropAt(Prune(streams, sid, map[c := l[..i]]), l[i], sid, c)
  {
    PruneOneMore(streams, sid, map[c := l[..i]], c, l[i]);
    assert l[..i] + [l[i]] == l[..i + 1];
    assert map[c := l[..i]][c := l[..i + 1]] == map[c := l[..i + 1]];
  }

  /** A channel whose list is empty removes nothing. */
  lemma PruneNothing(streams: Streams, sid: Sid, lists: Lists, c: Channel)
    requires c !in lists
    ensures Prune(streams, sid, lists[c := []]) == Prune(streams, sid, lists)
    ensures Prune(streams, sid, map[]) == streams == Prune(streams, sid, map[c := []])
  {
    forall x: Stream
      ensures Touched(lists[c := []], x) == Touched(lists, x)
      ensures Touched(map[c := []], x) == {}
      ensures Touched(map[], x) == {}
    {}
  }

  /** Channels may be worked off one after the other. */
  lemma {:induction false} PruneChannel(streams: Streams, sid: Sid, lists: Lists, c: Channel, l: seq<Stream>)
    requires c !in lists
    ensures Prune(Prune(streams, sid, lists), sid, map[c := l]) == Prune(streams, sid, lists[c := l])
    decreases |l|
  {
    if l == [] {
      PruneNothing(streams, sid, lists, c);
      PruneNothing(Prune(streams, sid, lists), sid, map[], c);
    } else {
      var init, st := l[..|l| - 1], l[|l| - 1];
      assert l == init + [st];
      PruneChannel(streams, sid, lists, c, init);
      PruneOneMore(Prune(streams, sid, lists), sid, map[c := init], c, st);
      PruneOneMore(streams, sid, lists[c := init], c, st);
      assert map[c := init][c := l] == map[c := l];
      assert lists[c := init][c := l] == lists[c := l];
    }
  }
}
