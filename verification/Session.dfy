/** The session object: the operations as the source writes them, each proved to be its
    sequence of atomic actions run to the end.
  */
module Session {
  import opened Basics
  import M = SessionModel

  class Chan {
    var buffer: seq<Frame>
    var closed: bool

    constructor ()
      ensures buffer == [] && !closed
    {
      buffer, closed := [], false;
    }
  }

  class Session {
    var connected: bool
    var closed: bool
    var sendCh: Chan?
    /** The channel made with the session; the writer keeps it when `sendCh` is nil. */
    const channel: Chan

    ghost var authenticated: bool
    ghost var accepted: seq<Frame>
    ghost var removals: nat
    ghost var enqueues: nat
    ghost var tested: bool

    ghost predicate Valid()
      reads this, channel
    {
      && (sendCh == null || sendCh == channel)
      && M.ChannelSafe(View())
    }

    ghost function View(): M.Core
      reads this, channel
    {
      M.Core(authenticated, connected, closed, sendCh != null, channel.closed, channel.buffer,
             accepted, removals, enqueues, tested, false)
    }

    constructor ()
      ensures Valid() && fresh(channel) && View() == M.FRESH
    {
      connected, closed := false, false;
      var c := new Chan();
      channel, sendCh := c, c;
      authenticated, accepted, removals, enqueues, tested := false, [], 0, 0, false;
    }

    /** Terminates although a full channel leads back here: the field is nil by then. */
    method SendFrame(message: Frame)
      requires Valid()
      modifies this, channel
      ensures Valid() && View() == M.RunAlone(old(View()), [M.SendFrame(message)])
      decreases sendCh != null, 0
    {
      if sendCh == null {
        return;
      }
      if |sendCh.buffer| < M.SEND_CAPACITY {
        sendCh.buffer := sendCh.buffer + [message];
        accepted := accepted + [message];
      } else {
        sendCh.closed := true;
        sendCh := null;
        ghost var mid := View();
        Disconnect("Write failed", M.CLOSE_ABNORMAL);
        assert M.Act(old(View()), M.SendFrame(message)) == (mid, M.Disconnect("Write failed", M.CLOSE_ABNORMAL));
        assert M.Disconnect("Write failed", M.CLOSE_ABNORMAL) + [] == M.Disconnect("Write failed", M.CLOSE_ABNORMAL);
      }
    }

    method Disconnect(reason: string, code: int)
      requires Valid()
      modifies this, channel
      ensures Valid() && View() == M.RunAlone(old(View()), M.Disconnect(reason, code))
      decreases sendCh != null, 1
    {
      ghost var close := M.SendFrame(Close(code, reason));
      DisconnectFromNode();
      ghost var mid := View();
      SendFrame(Close(code, reason));
      M.RunAloneAppend(mid, [close], [M.MarkClosed]);
      assert [close] + [M.MarkClosed] == [close, M.MarkClosed];
      MarkClosed();
      M.RunAloneAppend(old(View()), [M.TestConnected], [close, M.MarkClosed]);
      assert [M.TestConnected] + [close, M.MarkClosed] == M.Disconnect(reason, code);
    }

    /** Tests and clears the flag; the node is told, hub first, only when it was set. */
    method DisconnectFromNode()
      requires Valid()
      modifies this
      ensures Valid() && sendCh == old(sendCh)
      ensures View() == M.RunAlone(old(View()), [M.TestConnected])
    {
      var was := connected;
      connected := false;
      tested := true;
      if was {
        removals := removals + 1;
        enqueues := enqueues + 1;
      }
      M.TestAlone(old(View()));
    }

    method DisconnectNow()
      requires Valid()
      modifies this, channel
      ensures Valid() && View() == M.RunAlone(old(View()), M.DisconnectNow())
    {
      DisconnectFromNode();
      M.TestAlone(old(View()));
      if sendCh != null {
        sendCh.closed := true;
        sendCh := null;
      }
      M.MarkAlone(View());
      MarkClosed();
      M.DisconnectNowAlone(old(View()));
    }

    method MarkClosed()
      requires Valid()
      modifies this`closed
      ensures Valid() && View() == M.RunAlone(old(View()), [M.MarkClosed])
    {
      if closed {
        return;
      }
      closed := true;
    }

    /** `taken` says whether the connection takes the ping. */
    method SendPing(taken: bool)
      requires Valid()
      modifies this, channel
      ensures Valid() && View() == M.RunAlone(old(View()), [M.PingCheck(taken)])
      ensures old(closed) || taken ==> View() == old(View())
      ensures !old(closed) && !taken ==> closed && !connected && tested
    {
      M.PingAlone(View(), taken);
      if closed {
        return;
      }
      if !taken {
        M.DisconnectAlone(View(), "Ping failed", M.CLOSE_ABNORMAL);
        Disconnect("Ping failed", M.CLOSE_ABNORMAL);
      }
    }

    /** The writer loop on what the channel holds: hands over the frames in order, up to a failed
        write or a frame that is not data. */
    method HandOver(taken: nat -> bool) returns (handed: seq<Frame>, failed: bool)
      modifies channel`buffer
      ensures old(channel.buffer) == handed + channel.buffer
      ensures forall i :: 0 <= i < |handed| - 1 ==> (handed[i].Text? || handed[i].Binary?) && taken(i)
      ensures failed <==>
              handed != [] &&
              (handed[|handed| - 1].Close? || handed[|handed| - 1].Unknown? || !taken(|handed| - 1))
      ensures !failed ==> channel.buffer == []
    {
      handed, failed := [], false;
      while channel.buffer != [] && !failed
        invariant old(channel.buffer) == handed + channel.buffer
        invariant forall i :: 0 <= i < |handed| - 1 ==> M.IsData(handed[i]) && taken(i)
        invariant failed <==> handed != [] && !(M.IsData(handed[|handed| - 1]) && taken(|handed| - 1))
        decreases |channel.buffer|, !failed
      {
        var message := channel.buffer[0];
        channel.buffer := channel.buffer[1..];
        failed := !(M.IsData(message) && taken(|handed|));
        handed := handed + [message];
      }
    }

    /** The writer, until it would wait for the channel: it disconnects after a failed write, a close
        frame or a channel run dry. `taken` says which writes succeed. */
    method SendMessages(taken: nat -> bool) returns (handed: seq<Frame>, left: bool)
      requires Valid()
      modifies this, channel
      ensures Valid() && handed <= old(channel.buffer)
      ensures forall i :: 0 <= i < |handed| - 1 ==> (handed[i].Text? || handed[i].Binary?) && taken(i)
      ensures left <==>
              || (handed != [] &&
                  (handed[|handed| - 1].Close? || handed[|handed| - 1].Unknown? || !taken(|handed| - 1)))
              || (handed == old(channel.buffer) && old(channel.closed))
      ensures var rest := old(View()).(buffer := old(channel.buffer)[|handed|..]);
              View() == if left then M.RunAlone(rest, M.DisconnectNow()) else rest
      ensures !left ==> handed == old(channel.buffer)
    {
      handed, left := HandOver(taken);
      if channel.buffer == [] && channel.closed {
        left := true;
      }
      if left {
        DisconnectNow();
      }
    }
  }
}
