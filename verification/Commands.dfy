/** The commands of one session's sequential reader and the controller calls they make. */
module Commands {
  import opened Basics

  type Channel = string

  datatype Status = SUCCESS | FAILURE | ERROR

  /** A failed authentication or a rejected subscription is an answer, not an error: only ERROR,
      like every status that is neither of the other two, comes with one. */
  function HasError(s: Status): bool {
    s.ERROR?
  }

  datatype Kind = Subscribe | Unsubscribe | Perform

  /** A controller call and whether it came back without error. */
  datatype Call = Call(kind: Kind, channel: Channel, clean: bool)

  /** An incoming message: a command with its channel; a perform whose data is no string and an
      unknown command never reach the controller. */
  datatype Command = Command(kind: Kind, channel: Channel) | PerformNoString(channel: Channel) | UnknownCommand

  /** How the controller answers, if it is called: an RPC failure, or a status. */
  datatype Answer = RpcFailure | Status(status: Status)

  predicate Clean(a: Answer) {
    a.Status? && !HasError(a.status)
  }

  /** The recorded subscriptions and, as history, the calls made. */
  datatype Reader = Reader(subscriptions: set<Channel>, calls: seq<Call>)

  const NEW := Reader({}, [])

  /** Whether the command is passed on. */
  predicate Admitted(r: Reader, c: Command) {
    c.Command? && (c.kind.Subscribe? <==> c.channel !in r.subscriptions)
  }

  function Handle(r: Reader, c: Command, a: Answer): Reader {
    if !Admitted(r, c) then r
    else
      var calls := r.calls + [Call(c.kind, c.channel, Clean(a))];
      if !Clean(a) || c.kind.Perform? then r.(calls := calls)
      else if c.kind.Subscribe? then Reader(r.subscriptions + {c.channel}, calls)
      else Reader(r.subscriptions - {c.channel}, calls)
  }

  function HandleAll(r: Reader, cs: seq<(Command, Answer)>): Reader {
    if cs == [] then r
    else Handle(HandleAll(r, cs[..|cs| - 1]), cs[|cs| - 1].0, cs[|cs| - 1].1)
  }

  // ----- The discipline of the calls -----

  predicate Settles(c: Call, id: Channel) {
    c.channel == id && c.clean && !c.kind.Perform?
  }

  /** The clean subscribe and unsubscribe calls for one channel, in order. */
  function Settled(calls: seq<Call>, id: Channel): seq<Kind> {
    if calls == [] then []
    else
      var last := calls[|calls| - 1];
      Settled(calls[..|calls| - 1], id) + (if Settles(last, id) then [last.kind] else [])
  }

  /** Strict alternation, a subscribe first. */
  ghost predicate Alternates(kinds: seq<Kind>) {
    forall i :: 0 <= i < |kinds| ==> kinds[i] == if i % 2 == 0 then Subscribe else Unsubscribe
  }

  predicate Open(calls: seq<Call>, id: Channel) {
    |Settled(calls, id)| % 2 == 1
  }

  /** Every call came at a time that allowed it. */
  ghost predicate Timely(calls: seq<Call>) {
    forall i :: 0 <= i < |calls| ==> (calls[i].kind.Subscribe? <==> !Open(calls[..i], calls[i].channel))
  }

  ghost predicate Disciplined(r: Reader) {
    && Timely(r.calls)
    && (forall id :: Alternates(Settled(r.calls, id)))
    && (forall id :: id in r.subscriptions <==> Open(r.calls, id))
  }

  lemma SettledMore(calls: seq<Call>, c: Call, id: Channel)
    ensures Settled(calls + [c], id) == Settled(calls, id) + (if Settles(c, id) then [c.kind] else [])
  {
    assert (calls + [c])[..|calls|] == calls;
  }

  lemma TimelyMore(calls: seq<Call>, c: Call)
    requires Timely(calls) && (c.kind.Subscribe? <==> !Open(calls, c.channel))
    ensures Timely(calls + [c])
  {
    var more := calls + [c];
    forall i | 0 <= i < |more| ensures more[i].kind.Subscribe? <==> !Open(more[..i], more[i].channel) {
      assert more[..i] == if i < |calls| then calls[..i] else calls;
    }
  }

  /** One more call, seen from one channel. */
  lemma OneMoreCall(calls: seq<Call>, c: Call, id: Channel)
    requires Alternates(Settled(calls, id))
    requires c.kind.Subscribe? <==> !Open(calls, c.channel)
    ensures Alternates(Settled(calls + [c], id))
    ensures Open(calls + [c], id) <==> if Settles(c, id) then c.kind.Subscribe? else Open(calls, id)
  {
    SettledMore(calls, c, id);
  }

  lemma HandleKeepsDisciplined(r: Reader, c: Command, a: Answer)
    requires Disciplined(r)
    ensures Disciplined(Handle(r, c, a))
  {
    if Admitted(r, c) {
      var call := Call(c.kind, c.channel, Clean(a));
      var s := Handle(r, c, a);
      assert s.calls == r.calls + [call];
      assert c.channel in r.subscriptions <==> Open(r.calls, c.channel);
      TimelyMore(r.calls, call);
      forall id
        ensures Alternates(Settled(s.calls, id))
        ensures id in s.subscriptions <==> Open(s.calls, id)
      {
        assert id in r.subscriptions <==> Open(r.calls, id);
        OneMoreCall(r.calls, call, id);
      }
    }
  }

  /** In every run of the reader the clean subscribe and unsubscribe calls of a channel alternate,
      subscribe first; unsubscribe and perform reach the controller only while the channel is open,
      subscribe only while it is not; and the recorded subscriptions are the open channels. */
  lemma {:induction false} RunIsDisciplined(cs: seq<(Command, Answer)>)
    ensures Disciplined(HandleAll(NEW, cs))
    decreases |cs|
  {
    if cs != [] {
      RunIsDisciplined(cs[..|cs| - 1]);
      HandleKeepsDisciplined(HandleAll(NEW, cs[..|cs| - 1]), cs[|cs| - 1].0, cs[|cs| - 1].1);
    }
  }

  /** The command's last answer without error was to a subscribe. */
  predicate LastSubscribed(cs: seq<(Command, Answer)>, id: Channel) {
    cs != [] &&
    var (c, a) := cs[|cs| - 1];
    if a == Status(SUCCESS) || a == Status(FAILURE) then
      if c == Command(Subscribe, id) then true
      else if c == Command(Unsubscribe, id) then false
      else LastSubscribed(cs[..|cs| - 1], id)
    else LastSubscribed(cs[..|cs| - 1], id)
  }

  /** In every run a channel is recorded if and only if, of its subscribes and unsubscribes answered with
      SUCCESS or FAILURE, the last is a subscribe. */
  lemma {:induction false} RecordedIff(cs: seq<(Command, Answer)>, id: Channel)
    ensures id in HandleAll(NEW, cs).subscriptions <==> LastSubscribed(cs, id)
    decreases |cs|
  {
    if cs != [] {
      RecordedIff(cs[..|cs| - 1], id);
    }
  }

  predicate Closes(c: (Command, Answer), id: Channel) {
    c.0 == Command(Unsubscribe, id) && (c.1 == Status(SUCCESS) || c.1 == Status(FAILURE))
  }

  lemma {:induction false} OpenUntilClosed(r: Reader, id: Channel, cs: seq<(Command, Answer)>)
    requires id in r.subscriptions
    requires forall c :: c in cs ==> !Closes(c, id)
    ensures id in HandleAll(r, cs).subscriptions
    decreases |cs|
  {
    if cs != [] {
      assert cs[|cs| - 1] in cs;
      OpenUntilClosed(r, id, cs[..|cs| - 1]);
    }
  }

  /** A rejected subscription counts as one: in every continuation the channel stays recorded, lets
      performs through and refuses another subscribe, until an unsubscribe is answered without
      error. An error instead of a rejection records nothing. */
  lemma RejectedStaysOpen(r: Reader, id: Channel, cs: seq<(Command, Answer)>)
    requires id !in r.subscriptions
    requires forall c :: c in cs ==> !Closes(c, id)
    ensures var s := HandleAll(Handle(r, Command(Subscribe, id), Status(FAILURE)), cs);
            && id in s.subscriptions
            && Admitted(s, Command(Perform, id)) && Admitted(s, Command(Unsubscribe, id))
            && !Admitted(s, Command(Subscribe, id))
    ensures Handle(r, Command(Subscribe, id), Status(ERROR)).subscriptions ==
            Handle(r, Command(Subscribe, id), RpcFailure).subscriptions == r.subscriptions
  {
    OpenUntilClosed(Handle(r, Command(Subscribe, id), Status(FAILURE)), id, cs);
  }

  /** The Disconnect call at the end of any run lists exactly the open channels, each once. */
  method FinalDisconnect(cs: seq<(Command, Answer)>) returns (listed: seq<Channel>)
    ensures Distinct(listed)
    ensures forall id :: id in listed <==> Open(HandleAll(NEW, cs).calls, id)
  {
    RunIsDisciplined(cs);
    listed := Listing(HandleAll(NEW, cs).subscriptions);
  }
}
