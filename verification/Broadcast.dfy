/** The task a broadcast schedules: one message per registered session and channel of the
    stream, encoded once per channel and encoder through a cache.
  */
module Broadcast {
  import opened HubModel
  import opened Basics

  type EncoderId = string

  datatype Message = Message(channel: Channel, payload: string)

  /** What an encoder returns: a frame, no frame and no error, or an error. */
  datatype Encoded = Ok(frame: Frame) | Nil | Failed

  /** The frame that leaves the session for an encoding; a nil frame and an error send nothing. */
  function Sent(e: Encoded): Option<Frame> {
    if e.Ok? then Some(e.frame) else None
  }

  // ----- The cache -----

  class EncodingCache {
    /** None stands for the nil entry kept for a failed or nil encoding. */
    var encodedBytes: map<EncoderId, Option<Frame>>

    constructor ()
      ensures encodedBytes == map[]
    {
      encodedBytes := map[];
    }

    /** None is the "Encoding failed" error. */
    method Fetch(msg: Message, encoder: EncoderId, callback: Message -> Encoded) returns (r: Option<Frame>)
      modifies this
      ensures encodedBytes == CacheAfter(old(encodedBytes), encoder, callback(msg))
      ensures r == encodedBytes[encoder]
      ensures encoder in old(encodedBytes) ==> r == old(encodedBytes)[encoder]
      ensures encoder !in old(encodedBytes) ==>
                match callback(msg)
                case Ok(frame) => r == Some(frame)
                case Nil => r == None
                case Failed => r == None
    {
      if encoder !in encodedBytes {
        var b := callback(msg);
        if b.Failed? {
          encodedBytes := encodedBytes[encoder := None];
        } else {
          encodedBytes := encodedBytes[encoder := if b.Ok? then Some(b.frame) else None];
        }
      }
      r := encodedBytes[encoder];
    }
  }

  function CacheAfter(cache: map<EncoderId, Option<Frame>>, encoder: EncoderId, made: Encoded)
    : map<EncoderId, Option<Frame>>
  {
    if encoder in cache then cache else cache[encoder := Sent(made)]
  }

  /** One fetch: the encoder's id and what its encoding of the message would be. */
  datatype Call = Call(encoder: EncoderId, made: Encoded)

  /** The answers of one cache to a series of fetches. */
  function Answers(cache: map<EncoderId, Option<Frame>>, calls: seq<Call>): (r: seq<Option<Frame>>)
    ensures |r| == |calls|
    decreases |calls|
  {
    if calls == [] then []
    else
      var after := CacheAfter(cache, calls[0].encoder, calls[0].made);
      [after[calls[0].encoder]] + Answers(after, calls[1..])
  }

  ghost predicate FirstCall(calls: seq<Call>, j: int, k: int) {
    && 0 <= j <= k < |calls|
    && calls[j].encoder == calls[k].encoder
    && (forall i :: 0 <= i < j ==> calls[i].encoder != calls[k].encoder)
  }

  /** Every call is answered with what the first call of the same encoder id made. */
  lemma {:induction false} AnswersAt(cache: map<EncoderId, Option<Frame>>, calls: seq<Call>, j: int, k: int)
    requires FirstCall(calls, j, k)
    ensures Answers(cache, calls)[k] ==
            if calls[k].encoder in cache then cache[calls[k].encoder] else Sent(calls[j].made)
    decreases |calls|
  {
    var after := CacheAfter(cache, calls[0].encoder, calls[0].made);
    if k > 0 {
      assert calls[1..][k - 1] == calls[k];
      if j > 0 {
        forall i | 0 <= i < j - 1 ensures calls[1..][i].encoder != calls[k].encoder {
          assert calls[1..][i] == calls[i + 1];
        }
        AnswersAt(after, calls[1..], j - 1, k - 1);
      } else {
        AnswersPresent(after, calls[1..], k - 1);
      }
    }
  }

  lemma {:induction false} AnswersPresent(cache: map<EncoderId, Option<Frame>>, calls: seq<Call>, k: int)
    requires 0 <= k < |calls| && calls[k].encoder in cache
    ensures Answers(cache, calls)[k] == cache[calls[k].encoder]
    decreases |calls|
  {
    if k > 0 {
      AnswersPresent(CacheAfter(cache, calls[0].encoder, calls[0].made), calls[1..], k - 1);
    }
  }

  lemma {:induction false} FirstCallExists(calls: seq<Call>, k: int) returns (j: int)
    requires 0 <= k < |calls|
    ensures FirstCall(calls, j, k)
  {
    j := 0;
    while calls[j].encoder != calls[k].encoder
      invariant 0 <= j <= k
      invariant forall i :: 0 <= i < j ==> calls[i].encoder != calls[k].encoder
      decreases k - j
    {
      j := j + 1;
    }
  }

  /** A fresh cache answers every fetch as direct encoding would if and only if encoders that
      share an id send the same. */
  lemma CacheIsDirectIff(calls: seq<Call>)
    ensures (forall k :: 0 <= k < |calls| ==> Answers(map[], calls)[k] == Sent(calls[k].made)) <==>
            (forall j, k :: 0 <= j < k < |calls| && calls[j].encoder == calls[k].encoder ==>
                            Sent(calls[j].made) == Sent(calls[k].made))
  {
    var answers := Answers(map[], calls);
    if forall j, k :: 0 <= j < k < |calls| && calls[j].encoder == calls[k].encoder ==>
                      Sent(calls[j].made) == Sent(calls[k].made) {
      forall k | 0 <= k < |calls| ensures answers[k] == Sent(calls[k].made) {
        var j := FirstCallExists(calls, k);
        AnswersAt(map[], calls, j, k);
      }
    }
    if forall k :: 0 <= k < |calls| ==> answers[k] == Sent(calls[k].made) {
      forall i, k | 0 <= i < k < |calls| && calls[i].encoder == calls[k].encoder
        ensures Sent(calls[i].made) == Sent(calls[k].made)
      {
        var j := FirstCallExists(calls, i);
        AnswersAt(map[], calls, j, i);
        AnswersAt(map[], calls, j, k);
        assert answers[i] == Sent(calls[i].made) && answers[k] == Sent(calls[k].made);
      }
    }
  }

  /** Two encoders with one id: the second session gets the first one's frame. */
  lemma SharedIdSendsOtherFrame(id: EncoderId, a: Frame, b: Frame)
    requires a != b
    ensures var calls := [Call(id, Ok(a)), Call(id, Ok(b))];
            Answers(map[], calls)[1] == Some(a) != Sent(calls[1].made)
  {
    var calls := [Call(id, Ok(a)), Call(id, Ok(b))];
    AnswersAt(map[], calls, 0, 1);
  }

  // ----- The message shared by the sessions of one channel -----

  class CachedEncodedMessage {
    const target: Message
    const cache: EncodingCache

    constructor (msg: Message)
      ensures target == msg && fresh(cache) && cache.encodedBytes == map[]
    {
      target := msg;
      cache := new EncodingCache();
    }

    /** Everything cached is what the encoder of that id makes of the target. */
    ghost predicate Faithful(encode: (EncoderId, Message) -> Encoded)
      reads cache
    {
      forall e :: e in cache.encodedBytes ==> cache.encodedBytes[e] == Sent(encode(e, target))
    }

    /** Session.Send up to the frame: the cached encoding is the direct one. */
    method Send(encoder: EncoderId, encode: (EncoderId, Message) -> Encoded) returns (frame: Option<Frame>)
      requires Faithful(encode)
      modifies cache
      ensures Faithful(encode)
      ensures frame == Sent(encode(encoder, target))
    {
      frame := cache.Fetch(target, encoder, m => encode(encoder, m));
    }
  }

  // ----- The task -----

  method StreamSessionsSnapshot(src: Row) returns (dest: map<Sid, seq<Channel>>)
    ensures dest.Keys == src.Keys
    ensures forall sid :: sid in src ==>
              Distinct(dest[sid]) && |dest[sid]| == |src[sid]| && forall c :: c in dest[sid] <==> c in src[sid]
  {
    dest := map[];
    var todo := src.Keys;
    while todo != {}
      invariant todo <= src.Keys
      invariant dest.Keys == src.Keys - todo
      invariant forall sid :: sid in dest ==>
                  Distinct(dest[sid]) && |dest[sid]| == |src[sid]| && forall c :: c in dest[sid] <==> c in src[sid]
      decreases |todo|
    {
      var sid :| sid in todo;
      var ids := Listing(src[sid]);
      dest := dest[sid := ids];
      todo := todo - {sid};
    }
  }

  /** One call of Session.Send and the frame it hands on, if any. */
  datatype Delivery = Delivery(sid: Sid, channel: Channel, session: Client, frame: Option<Frame>)

  /** What the task is for: a delivery to the session found for the id, one of its channels on the
      stream, and the frame its own encoder makes of the data for that channel. */
  predicate Due(d: Delivery, row: Row, found: map<Sid, Client>, payload: string,
                encoderOf: Client -> EncoderId, encode: (EncoderId, Message) -> Encoded)
  {
    && d.sid in row && d.channel in row[d.sid]
    && d.sid in found && d.session == found[d.sid]
    && d.frame == Sent(encode(encoderOf(d.session), Message(d.channel, payload)))
  }

  /** Makes every due delivery, no other and none twice. `row` is the stream's row when the task
      takes its snapshot; each id is looked up once, and `found` holds what the look-ups return. */
  method BroadcastTask(row: Row, found: map<Sid, Client>, data: string, parse: string -> string,
                       encoderOf: Client -> EncoderId, encode: (EncoderId, Message) -> Encoded)
    returns (sends: seq<Delivery>)
    ensures Distinct(sends)
    ensures forall d :: d in sends <==> Due(d, row, found, parse(data), encoderOf, encode)
    ensures forall d :: d in sends ==>
              match encode(encoderOf(d.session), Message(d.channel, parse(data)))
              case Ok(frame) => d.frame == Some(frame)
              case Nil => d.frame == None
              case Failed => d.frame == None
  {
    var snapshot := StreamSessionsSnapshot(row);
    var buf: map<Channel, CachedEncodedMessage> := map[];
    sends := [];
    var todo := snapshot.Keys;
    while todo != {}
      invariant todo <= snapshot.Keys
      invariant Buffered(buf, parse(data), encode) && fresh(Caches(buf))
      invariant Distinct(sends)
      invariant forall d :: d in sends <==>
                  Due(d, row, found, parse(data), encoderOf, encode) && d.sid !in todo
      decreases |todo|
    {
      var sid :| sid in todo;
      if sid in found {
        var more;
        buf, more := SendAll(buf, sid, found[sid], snapshot[sid], data, parse, encoderOf(found[sid]), encode);
        assert forall d :: d in more <==> Due(d, row, found, parse(data), encoderOf, encode) && d.sid == sid;
        sends := sends + more;
      }
      todo := todo - {sid};
    }
  }

  ghost function Caches(buf: map<Channel, CachedEncodedMessage>): set<EncodingCache> {
    set c | c in buf :: buf[c].cache
  }

  lemma CachesMore(buf: map<Channel, CachedEncodedMessage>, id: Channel, made: CachedEncodedMessage)
    requires id !in buf
    ensures Caches(buf[id := made]) == Caches(buf) + {made.cache}
  {
    var more := buf[id := made];
    forall x | x in Caches(buf) + {made.cache} ensures x in Caches(more) {
      if x in Caches(buf) {
        var c :| c in buf && buf[c].cache == x;
        assert more[c].cache == x;
      } else {
        assert more[id].cache == x;
      }
    }
  }

  ghost predicate Buffered(buf: map<Channel, CachedEncodedMessage>, payload: string,
                           encode: (EncoderId, Message) -> Encoded)
    reads Caches(buf)
  {
    && (forall c :: c in buf ==> buf[c].target == Message(c, payload))
    && (forall c :: c in buf ==> buf[c].cache in Caches(buf) && buf[c].Faithful(encode))
    && (forall c, d :: c in buf && d in buf && c != d ==> buf[c].cache != buf[d].cache)
  }

  /** The inner loop: all channels of one session. */
  method SendAll(buf0: map<Channel, CachedEncodedMessage>, sid: Sid, session: Client, ids: seq<Channel>,
                 data: string, parse: string -> string, encoder: EncoderId,
                 encode: (EncoderId, Message) -> Encoded)
    returns (buf: map<Channel, CachedEncodedMessage>, sends: seq<Delivery>)
    requires Buffered(buf0, parse(data), encode) && Distinct(ids)
    modifies Caches(buf0)
    ensures Buffered(buf, parse(data), encode) && fresh(Caches(buf) - Caches(buf0))
    ensures Distinct(sends)
    ensures forall d :: d in sends <==>
              && d.sid == sid && d.channel in ids && d.session == session
              && d.frame == Sent(encode(encoder, Message(d.channel, parse(data))))
  {
    buf := buf0;
    sends := [];
    for i := 0 to |ids|
      invariant Buffered(buf, parse(data), encode) && fresh(Caches(buf) - Caches(buf0))
      invariant |sends| == i
      invariant forall k :: 0 <= k < i ==>
                  sends[k] == Delivery(sid, ids[k], session, Sent(encode(encoder, Message(ids[k], parse(data)))))
    {
      var id := ids[i];
      if id !in buf {
        var made := new CachedEncodedMessage(Message(id, parse(data)));
        CachesMore(buf, id, made);
        buf := buf[id := made];
      }
      var frame := buf[id].Send(encoder, encode);
      sends := sends + [Delivery(sid, id, session, frame)];
    }
  }
}
