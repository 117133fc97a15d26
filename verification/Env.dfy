/** The session environment: connection-wide and per-channel state that replies update and
    commands carry. An update sets its keys, an empty value deletes one.
  */
module Env {
  import opened Basics

  type State = map<string, string>
  type Channel = string

  /** What a state is after an update, key by key. */
  function Merge(st: State, update: State): State {
    map k | k in st.Keys + update.Keys && (k in update ==> update[k] != "")
      :: if k in update then update[k] else st[k]
  }

  /** Two updates in turn are one update by their override: a later empty value still deletes. */
  lemma MergeTwice(st: State, a: State, b: State)
    ensures Merge(Merge(st, a), b) == Merge(st, a + b)
  {
    var left, right := Merge(Merge(st, a), b), Merge(st, a + b);
    forall k ensures k in left <==> k in right {}
    assert left.Keys == right.Keys;
  }

  function Fold(updates: seq<State>): State {
    if updates == [] then map[] else Merge(Fold(updates[..|updates| - 1]), updates[|updates| - 1])
  }

  /** The last value any update gives the key. */
  function LastWrite(updates: seq<State>, k: string): Option<string> {
    if updates == [] then None
    else if k in updates[|updates| - 1] then Some(updates[|updates| - 1][k])
    else LastWrite(updates[..|updates| - 1], k)
  }

  /** Folding keeps of each key its last value, unless that is empty. */
  lemma {:induction false} FoldIsLastWrite(updates: seq<State>, k: string)
    ensures k in Fold(updates) <==> LastWrite(updates, k).Some? && LastWrite(updates, k).value != ""
    ensures k in Fold(updates) ==> Fold(updates)[k] == LastWrite(updates, k).value
    decreases |updates|
  {
    if updates != [] {
      FoldIsLastWrite(updates[..|updates| - 1], k);
    }
  }

  // ----- Replies -----

  /** What a reply says about state; None is a nil map. A connect reply has no channel part. */
  datatype Reply = Reply(channel: Channel, cstate: Option<State>, istate: Option<State>)

  datatype View = View(connection: State, channels: map<Channel, State>)

  const NEW := View(map[], map[])

  function StateOf(v: View, id: Channel): State {
    if id in v.channels then v.channels[id] else map[]
  }

  function MergedChannel(v: View, id: Channel, update: State): View {
    v.(channels := v.channels[id := Merge(StateOf(v, id), update)])
  }

  /** The channel part is merged first, the connection part after it. */
  function AfterReply(v: View, r: Reply): View {
    var w := if r.istate.Some? then MergedChannel(v, r.channel, r.istate.value) else v;
    if r.cstate.Some? then w.(connection := Merge(w.connection, r.cstate.value)) else w
  }

  function AfterReplies(rs: seq<Reply>): View {
    if rs == [] then NEW else AfterReply(AfterReplies(rs[..|rs| - 1]), rs[|rs| - 1])
  }

  /** The connection updates among the replies. */
  function ConnectionUpdates(rs: seq<Reply>): seq<State> {
    if rs == [] then []
    else
      var r := rs[|rs| - 1];
      ConnectionUpdates(rs[..|rs| - 1]) + (if r.cstate.Some? then [r.cstate.value] else [])
  }

  /** The updates to one channel among the replies. */
  function ChannelUpdates(rs: seq<Reply>, id: Channel): seq<State> {
    if rs == [] then []
    else
      var r := rs[|rs| - 1];
      ChannelUpdates(rs[..|rs| - 1], id) + (if r.istate.Some? && r.channel == id then [r.istate.value] else [])
  }

  lemma FoldMore(updates: seq<State>, more: State)
    ensures Fold(updates + [more]) == Merge(Fold(updates), more)
  {
    assert (updates + [more])[..|updates|] == updates;
  }

  /** After any series of replies the connection state is the fold of the connection updates, and a
      channel's state exists once it was updated and is the fold of the updates to that channel alone. */
  lemma {:induction false} EnvIsFold(rs: seq<Reply>, id: Channel)
    ensures AfterReplies(rs).connection == Fold(ConnectionUpdates(rs))
    ensures id in AfterReplies(rs).channels <==> ChannelUpdates(rs, id) != []
    ensures StateOf(AfterReplies(rs), id) == Fold(ChannelUpdates(rs, id))
    decreases |rs|
  {
    if rs != [] {
      var init, r := rs[..|rs| - 1], rs[|rs| - 1];
      EnvIsFold(init, id);
      if r.cstate.Some? {
        FoldMore(ConnectionUpdates(init), r.cstate.value);
      } else {
        assert ConnectionUpdates(rs) == ConnectionUpdates(init);
      }
      if r.istate.Some? && r.channel == id {
        FoldMore(ChannelUpdates(init, id), r.istate.value);
      } else {
        assert ChannelUpdates(rs, id) == ChannelUpdates(init, id);
      }
    }
  }

  // ----- What is sent -----

  datatype ProtoEnv = ProtoEnv(url: string, headers: State, cstate: Option<State>, istate: Option<State>)

  /** The two state fields of an environment; None is a nil pointer. */
  datatype Fields = Fields(connection: Option<State>, channels: Option<map<Channel, State>>)

  /** An environment made by the constructor has both. */
  function FieldsOf(v: View): Fields {
    Fields(Some(v.connection), Some(v.channels))
  }

  function BuildEnv(url: string, headers: State, f: Fields): ProtoEnv {
    ProtoEnv(url, headers, f.connection, None)
  }

  function BuildChannelEnv(id: Channel, url: string, headers: State, f: Fields): ProtoEnv {
    var env := BuildEnv(url, headers, f);
    if f.channels.Some? && id in f.channels.value then env.(istate := Some(f.channels.value[id])) else env
  }

  /** A command carries, key by key, the last value the earlier replies gave the connection and
      that channel, and no channel state when none of them gave any. */
  lemma CommandCarriesLastWrites(rs: seq<Reply>, id: Channel, url: string, headers: State, k: string)
    ensures var env := BuildChannelEnv(id, url, headers, FieldsOf(AfterReplies(rs)));
            var last := LastWrite(ConnectionUpdates(rs), k);
            var own := LastWrite(ChannelUpdates(rs, id), k);
            && env.url == url && env.headers == headers
            && env.cstate.Some?
            && (k in env.cstate.value <==> last.Some? && last.value != "")
            && (k in env.cstate.value ==> env.cstate.value[k] == last.value)
            && (env.istate.Some? <==> ChannelUpdates(rs, id) != [])
            && (env.istate.Some? ==> (k in env.istate.value <==> own.Some? && own.value != ""))
            && (env.istate.Some? && k in env.istate.value ==> env.istate.value[k] == own.value)
  {
    EnvIsFold(rs, id);
    FoldIsLastWrite(ConnectionUpdates(rs), k);
    FoldIsLastWrite(ChannelUpdates(rs, id), k);
  }

  /** The disconnect request carries every channel's state, encoded, and none for nil states. */
  method BuildDisconnectEnv(url: string, headers: State, f: Fields, marshal: State -> string) returns (env: ProtoEnv)
    ensures env.url == url && env.headers == headers && env.cstate == f.connection
    ensures env.istate == if f.channels.None? then None
                          else Some(map id | id in f.channels.value :: marshal(f.channels.value[id]))
  {
    env := BuildEnv(url, headers, f);
    if f.channels.None? {
      return;
    }
    var channels := f.channels.value;
    var states: State := map[];
    var todo := channels.Keys;
    while todo != {}
      invariant todo <= channels.Keys
      invariant states == map id | id in channels && id !in todo :: marshal(channels[id])
      decreases |todo|
    {
      var id :| id in todo;
      states := states[id := marshal(channels[id])];
      todo := todo - {id};
    }
    assert states == map id | id in f.channels.value :: marshal(f.channels.value[id]);
    env := env.(istate := Some(states));
  }

  // ----- The object -----

  /** One more key of an update. */
  lemma MergeKey(st: State, part: State, k: string, v: string)
    requires k !in part
    ensures Merge(st, part[k := v]) == if v == "" then Merge(st, part) - {k} else Merge(st, part)[k := v]
  {
    var left := Merge(st, part[k := v]);
    var right := if v == "" then Merge(st, part) - {k} else Merge(st, part)[k := v];
    forall x ensures x in left <==> x in right {}
    assert left.Keys == right.Keys;
  }

  /** The loop over an update, keys in any order. */
  method MergeInto(st: State, other: State) returns (r: State)
    ensures r == Merge(st, other)
  {
    r := st;
    var todo := other.Keys;
    assert other - todo == map[] && Merge(st, map[]) == st;
    while todo != {}
      invariant todo <= other.Keys
      invariant r == Merge(st, other - todo)
      decreases |todo|
    {
      var k :| k in todo;
      MergeKey(st, other - todo, k, other[k]);
      assert other - (todo - {k}) == (other - todo)[k := other[k]];
      if other[k] == "" {
        r := r - {k};
      } else {
        r := r[k := other[k]];
      }
      todo := todo - {k};
    }
    assert other - {} == other;
  }

  class SessionEnv {
    var connectionState: State
    var channelStates: map<Channel, State>

    function Current(): View
      reads this
    {
      View(connectionState, channelStates)
    }

    constructor ()
      ensures Current() == NEW
    {
      connectionState, channelStates := map[], map[];
    }

    method MergeConnectionState(other: State)
      modifies this
      ensures Current() == old(Current()).(connection := Merge(old(connectionState), other))
    {
      var merged := MergeInto(connectionState, other);
      connectionState := merged;
    }

    method MergeChannelState(id: Channel, other: State)
      modifies this
      ensures Current() == MergedChannel(old(Current()), id, other)
    {
      if id !in channelStates {
        channelStates := channelStates[id := map[]];
      }
      var merged := MergeInto(channelStates[id], other);
      channelStates := channelStates[id := merged];
      assert channelStates == MergedChannel(old(Current()), id, other).channels;
    }

    /** The state part of handling a reply. */
    method MergeReply(reply: Reply)
      modifies this
      ensures Current() == AfterReply(old(Current()), reply)
    {
      if reply.istate.Some? {
        MergeChannelState(reply.channel, reply.istate.value);
      }
      if reply.cstate.Some? {
        MergeConnectionState(reply.cstate.value);
      }
    }

    /** Merging another environment in: its channels in any order. */
    method MergeEnv(connection: Option<State>, channels: Option<map<Channel, State>>)
      modifies this
      ensures connectionState == if connection.Some? then Merge(old(connectionState), connection.value)
                                 else old(connectionState)
      ensures channelStates == if channels.Some? then MergeAll(old(channelStates), channels.value)
                               else old(channelStates)
    {
      if connection.Some? {
        MergeConnectionState(connection.value);
      }
      if channels.Some? {
        MergeStates(channels.value);
      }
    }

    method MergeStates(states: map<Channel, State>)
      modifies this
      ensures connectionState == old(connectionState)
      ensures channelStates == MergeAll(old(channelStates), states)
    {
      var todo := states.Keys;
      assert states - todo == map[] && MergeAll(channelStates, map[]) == channelStates;
      while todo != {}
        invariant todo <= states.Keys && connectionState == old(connectionState)
        invariant channelStates == MergeAll(old(channelStates), states - todo)
        decreases |todo|
      {
        var id :| id in todo;
        MergeAllMore(old(channelStates), states - todo, id, states[id]);
        assert states - (todo - {id}) == (states - todo)[id := states[id]];
        MergeChannelState(id, states[id]);
        todo := todo - {id};
      }
      assert states - {} == states;
    }
  }

  /** Every channel of `states` merged, the others as they were. */
  function MergeAll(channels: map<Channel, State>, states: map<Channel, State>): map<Channel, State> {
    map id | id in channels.Keys + states.Keys ::
      if id !in states then channels[id]
      else Merge(if id in channels then channels[id] else map[], states[id])
  }

  lemma MergeAllMore(channels: map<Channel, State>, part: map<Channel, State>, id: Channel, update: State)
    requires id !in part
    ensures var v := View(map[], MergeAll(channels, part));
            MergeAll(channels, part[id := update]) == MergedChannel(v, id, update).channels
  {
    var left := MergeAll(channels, part[id := update]);
    var right := MergedChannel(View(map[], MergeAll(channels, part)), id, update).channels;
    forall x ensures x in left <==> x in right {}
    forall x | x in left ensures left[x] == right[x] {}
    assert left.Keys == right.Keys;
  }
}
