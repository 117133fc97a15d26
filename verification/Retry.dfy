/** The retry loop of RPC calls: exponential backoff at two rates, starting over whenever the
    kind of error switches, until a call succeeds, fails for good or the waits exceed the limit.
  */
module Retry {

  const INVOKE_TIMEOUT := 3000
  const RETRY_EXHAUSTED_INTERVAL := 10
  const RETRY_UNAVAILABLE_INTERVAL := 100

  /** What one round meets: a connection that is not ready, a call that succeeds, an error without
      a gRPC status, a status that is not retried, or one of the two that are. */
  datatype Reply = NotReady | Success | NoStatus | OtherCode | Exhausted | Unavailable

  predicate Transient(r: Reply) {
    r.Exhausted? || r.Unavailable?
  }

  function Pow2(n: nat): nat {
    if n == 0 then 1 else 2 * Pow2(n - 1)
  }

  /** The wait after a reply with `repeats` replies of its kind right before it. */
  function Wait(r: Reply, repeats: nat): nat {
    if r.Exhausted? then RETRY_EXHAUSTED_INTERVAL * Pow2(repeats) else RETRY_UNAVAILABLE_INTERVAL * Pow2(repeats)
  }

  /** The waits of one call, with the replies that caused them, oldest innermost. */
  datatype Log = Start | Slept(before: Log, reply: Reply, wait: nat)

  function Count(l: Log): nat {
    if l.Start? then 0 else Count(l.before) + 1
  }

  function Total(l: Log): nat {
    if l.Start? then 0 else Total(l.before) + l.wait
  }

  predicate EndsWith(l: Log, r: Reply) {
    l.Slept? && l.reply == r
  }

  /** How many replies of kind `r` in a row end the log. */
  function Repeats(l: Log, r: Reply): nat {
    if EndsWith(l, r) then Repeats(l.before, r) + 1 else 0
  }

  /** What the waits are meant to be: each follows a transient reply, begins within the limit, and
      doubles with every reply of the same kind immediately before, whatever came earlier. */
  predicate Backoff(l: Log) {
    l.Slept? ==>
      && Backoff(l.before) && Transient(l.reply)
      && Total(l.before) <= INVOKE_TIMEOUT
      && l.wait == Wait(l.reply, Repeats(l.before, l.reply))
  }

  /** The replies of the log are the first ones of `replies`. */
  predicate Follows(l: Log, replies: nat -> Reply) {
    l.Slept? ==> Follows(l.before, replies) && l.reply == replies(Count(l.before))
  }

  /** Every wait follows an exhausted or an unavailable reply. */
  predicate Retried(l: Log) {
    l.Slept? ==> Retried(l.before) && (l.reply.Exhausted? || l.reply.Unavailable?)
  }

  // ----- Doubling against the limit -----

  lemma PowSteps()
    ensures Pow2(0) == 1 && Pow2(1) == 2 && Pow2(2) == 4 && Pow2(3) == 8 && Pow2(4) == 16
    ensures Pow2(5) == 32 && Pow2(6) == 64 && Pow2(7) == 128 && Pow2(8) == 256 && Pow2(9) == 512
  {
    assert Pow2(5) == 2 * Pow2(4);
    assert Pow2(9) == 2 * Pow2(8);
  }

  lemma {:induction false} PowMonotone(m: nat, n: nat)
    requires m <= n
    ensures Pow2(m) <= Pow2(n)
    decreases n
  {
    if m < n { PowMonotone(m, n - 1); }
  }

  lemma WaitDoubles(r: Reply, k: nat)
    ensures Wait(r, k + 1) == 2 * Wait(r, k)
  {
    assert Pow2(k + 1) == 2 * Pow2(k);
  }

  /** The waits of a streak of one kind add up to the next wait less the first. */
  lemma {:induction false} StreakSum(l: Log, r: Reply)
    requires Backoff(l)
    ensures Total(l) >= Wait(r, Repeats(l, r)) - Wait(r, 0)
    decreases l
  {
    if EndsWith(l, r) {
      StreakSum(l.before, r);
      WaitDoubles(r, Repeats(l.before, r));
    }
  }

  /** No wait uses a power of two beyond 256 after exhaustion or 16 after unavailability. */
  lemma PowerBound(l: Log)
    requires Backoff(l) && l.Slept?
    ensures Repeats(l.before, l.reply) <= if l.reply.Exhausted? then 8 else 4
    ensures l.wait <= if l.reply.Exhausted? then 2560 else 1600
  {
    StreakSum(l.before, l.reply);
    PowSteps();
    var top := if l.reply.Exhausted? then 8 else 4;
    if Repeats(l.before, l.reply) > top {
      PowMonotone(top + 1, Repeats(l.before, l.reply));
    } else {
      PowMonotone(Repeats(l.before, l.reply), top);
    }
  }

  // ----- How many waits -----

  /** The credit run up by the cheap waits of a fresh streak; the wait that must come before the
      next such streak makes up for it. */
  function Credit(l: Log): int {
    if !EndsWith(l, Exhausted) then 0
    else if Repeats(l, Exhausted) == 1 then 65
    else if Repeats(l, Exhausted) == 2 then 110
    else 115
  }

  lemma {:induction false} CountAgainstTotal(l: Log)
    requires Backoff(l)
    ensures 85 * Count(l) <= 2 * Total(l) + Credit(l)
    decreases l
  {
    if l.Slept? {
      CountAgainstTotal(l.before);
      var k := Repeats(l.before, l.reply);
      PowSteps();
      PowMonotone(0, k);
      if k >= 3 {
        PowMonotone(3, k);
      }
    }
  }

  /** A call waits at most 72 times, and at most 5560 ms altogether. */
  lemma Bounds(l: Log)
    requires Backoff(l)
    ensures Count(l) <= 72 && Total(l) <= 5560
  {
    if l.Slept? {
      CountAgainstTotal(l.before);
      PowerBound(l);
    }
  }

  // ----- The loop -----

  datatype Outcome = Returned | FailedNotReady | FailedWith(reply: Reply)

  /** The loop as written. `replies(i)` is what the i-th round meets. It ends for every series of
      replies, at the first that is not transient or finds the waits over the limit. */
  method Run(replies: nat -> Reply) returns (outcome: Outcome, log: Log)
    ensures Backoff(log) && Follows(log, replies)
    ensures Retried(log)
    ensures Count(log) <= 72 && Total(log) <= 5560
    ensures var last := replies(Count(log));
            && (last.Exhausted? || last.Unavailable? ==> Total(log) > INVOKE_TIMEOUT)
            && outcome == if last.NotReady? then FailedNotReady
                          else if last.Success? then Returned
                          else FailedWith(last)
  {
    var retryAge, attempt, wasExhausted := 0, 0, false;
    log := Start;
    var round := 0;
    while true
      invariant Backoff(log) && Follows(log, replies)
      invariant round == Count(log) && retryAge == Total(log)
      invariant attempt == if log.Start? then 0 else Repeats(log, log.reply)
      invariant wasExhausted == EndsWith(log, Exhausted)
      invariant Retried(log)
      decreases 73 - round
    {
      Bounds(log);
      var reply := replies(round);
      if reply.NotReady? {
        return FailedNotReady, log;
      }
      if reply.Success? {
        return Returned, log;
      }
      if retryAge > INVOKE_TIMEOUT {
        return FailedWith(reply), log;
      }
      if !Transient(reply) {
        return FailedWith(reply), log;
      }
      var interval := RETRY_UNAVAILABLE_INTERVAL;
      if reply.Exhausted? {
        interval := RETRY_EXHAUSTED_INTERVAL;
        if !wasExhausted {
          attempt := 0;
          wasExhausted := true;
        }
      } else if wasExhausted {
        wasExhausted := false;
        attempt := 0;
      }
      var delay := interval * Pow2(attempt);
      retryAge := retryAge + delay;
      log := Slept(log, reply, delay);
      attempt := attempt + 1;
      round := round + 1;
    }
  }

  // ----- Both bounds are attained -----

  /** `n` more replies of kind `r`, with the waits they cause. */
  function Streak(l: Log, r: Reply, n: nat): Log {
    if n == 0 then l else Slept(Streak(l, r, n - 1), r, Wait(r, n - 1))
  }

  lemma {:induction false} AddStreak(l: Log, r: Reply, n: nat)
    requires Backoff(l) && Transient(r) && !EndsWith(l, r)
    requires n > 0 ==> Total(l) + Wait(r, n - 1) - Wait(r, 0) <= INVOKE_TIMEOUT
    ensures var s := Streak(l, r, n);
            && Backoff(s) && Count(s) == Count(l) + n
            && Repeats(s, r) == n
            && Total(s) == Total(l) + Wait(r, n) - Wait(r, 0)
            && (n > 0 ==> EndsWith(s, r))
    decreases n
  {
    if n > 0 {
      if n > 1 { PowMonotone(n - 2, n - 1); }
      AddStreak(l, r, n - 1);
      WaitDoubles(r, n - 1);
    }
  }

  /** Three exhausted replies and an unavailable one, again and again. */
  function Cheapest(rounds: nat): Log {
    if rounds == 0 then Start else Streak(Streak(Cheapest(rounds - 1), Exhausted, 3), Unavailable, 1)
  }

  lemma {:induction false} CheapestBackoff(rounds: nat)
    requires rounds <= 18
    ensures Backoff(Cheapest(rounds)) && !EndsWith(Cheapest(rounds), Exhausted)
    ensures Count(Cheapest(rounds)) == 4 * rounds && Total(Cheapest(rounds)) == 170 * rounds
    decreases rounds
  {
    if rounds > 0 {
      CheapestBackoff(rounds - 1);
      PowSteps();
      AddStreak(Cheapest(rounds - 1), Exhausted, 3);
      AddStreak(Streak(Cheapest(rounds - 1), Exhausted, 3), Unavailable, 1);
    }
  }

  /** Four exhausted replies, two unavailable ones, then nine exhausted ones. */
  function Dearest(): Log {
    Streak(Streak(Streak(Start, Exhausted, 4), Unavailable, 2), Exhausted, 9)
  }

  lemma DearestBackoff()
    ensures Backoff(Dearest()) && Total(Dearest()) == 5560
  {
    PowSteps();
    AddStreak(Start, Exhausted, 4);
    AddStreak(Streak(Start, Exhausted, 4), Unavailable, 2);
    AddStreak(Streak(Streak(Start, Exhausted, 4), Unavailable, 2), Exhausted, 9);
  }

  // ----- The log is determined by the replies -----

  /** The loop does not go on after these waits. */
  predicate Ends(l: Log, replies: nat -> Reply) {
    Transient(replies(Count(l))) ==> Total(l) > INVOKE_TIMEOUT
  }

  function Prefix(l: Log, n: nat): Log
    requires n <= Count(l)
    decreases l
  {
    if n == Count(l) then l else Prefix(l.before, n)
  }

  lemma {:induction false} PrefixGoesOn(l: Log, n: nat, replies: nat -> Reply)
    requires Backoff(l) && Follows(l, replies) && n < Count(l)
    ensures var p := Prefix(l, n);
            && Count(p) == n && Backoff(p) && Follows(p, replies)
            && !Ends(p, replies)
    decreases l
  {
    if n < Count(l.before) {
      PrefixGoesOn(l.before, n, replies);
    }
  }

  lemma {:induction false} SameLength(a: Log, b: Log, replies: nat -> Reply)
    requires Backoff(a) && Backoff(b) && Follows(a, replies) && Follows(b, replies)
    requires Count(a) == Count(b)
    ensures a == b
    decreases a
  {
    if a.Slept? {
      SameLength(a.before, b.before, replies);
    }
  }

  lemma LogIsDetermined(a: Log, b: Log, replies: nat -> Reply)
    requires Backoff(a) && Backoff(b) && Follows(a, replies) && Follows(b, replies)
    requires Ends(a, replies) && Ends(b, replies)
    ensures a == b
  {
    if Count(a) < Count(b) {
      PrefixGoesOn(b, Count(a), replies);
      SameLength(a, Prefix(b, Count(a)), replies);
    } else if Count(b) < Count(a) {
      PrefixGoesOn(a, Count(b), replies);
      SameLength(b, Prefix(a, Count(b)), replies);
    } else {
      SameLength(a, b, replies);
    }
  }

  /** The replies of a log, then success. */
  function ReplyAt(l: Log, i: nat): Reply {
    if l.Start? then Success else if i == Count(l.before) then l.reply else ReplyAt(l.before, i)
  }

  function RepliesOf(l: Log): nat -> Reply {
    (i: nat) => ReplyAt(l, i)
  }

  lemma {:induction false} ReplyPastEnd(l: Log, i: nat)
    requires i >= Count(l)
    ensures ReplyAt(l, i).Success?
    decreases l
  {
    if l.Slept? {
      ReplyPastEnd(l.before, i);
    }
  }

  lemma {:induction false} FollowsOwn(l: Log, part: Log)
    requires Count(part) <= Count(l) && Prefix(l, Count(part)) == part
    ensures Follows(part, RepliesOf(l))
    decreases part
  {
    if part.Slept? {
      PrefixStep(l, part);
      FollowsOwn(l, part.before);
    }
  }

  lemma {:induction false} PrefixStep(l: Log, part: Log)
    requires part.Slept? && Count(part) <= Count(l) && Prefix(l, Count(part)) == part
    ensures Prefix(l, Count(part.before)) == part.before
    ensures ReplyAt(l, Count(part.before)) == part.reply
    decreases l
  {
    if Count(part) < Count(l) {
      PrefixStep(l.before, part);
    }
  }

  /** Every series of waits that keeps to the backoff is what the loop does for some replies. */
  method Replay(l: Log) returns (outcome: Outcome, log: Log)
    requires Backoff(l)
    ensures outcome == Returned && log == l
  {
    var replies := RepliesOf(l);
    outcome, log := Run(replies);
    FollowsOwn(l, l);
    ReplyPastEnd(l, Count(l));
    LogIsDetermined(log, l, replies);
  }

  /** An error without status, or with a status other than the two, ends the call at once: the waits
      are those of the replies before it. */
  method FailAtOnce(replies: nat -> Reply, l: Log) returns (outcome: Outcome, log: Log)
    requires Backoff(l) && Follows(l, replies)
    requires replies(Count(l)).NoStatus? || replies(Count(l)).OtherCode?
    ensures log == l && outcome == FailedWith(replies(Count(l)))
  {
    outcome, log := Run(replies);
    LogIsDetermined(log, l, replies);
  }

  /** No smaller bounds hold: for some replies a call waits 72 times, for others 5560 ms. */
  method AttainBounds() returns (longest: Log, costliest: Log)
    ensures longest == Cheapest(18) && Count(longest) == 72
    ensures costliest == Dearest() && Total(costliest) == 5560
  {
    CheapestBackoff(18);
    DearestBackoff();
    var _, a := Replay(Cheapest(18));
    var _, b := Replay(Dearest());
    longest, costliest := a, b;
  }

  // ----- Shutdown -----

  /** Waiting for active calls on shutdown goes through the same loop, but its error carries no
      gRPC status: with calls in flight the loop fails at once, whatever happens later. */
  method AwaitIdle(busy: nat -> nat, ready: nat -> bool) returns (outcome: Outcome, log: Log)
    ensures log == Start
    ensures outcome.Returned? <==> ready(0) && busy(0) == 0
  {
    outcome, log := Run((i: nat) => if !ready(i) then NotReady else if busy(i) > 0 then NoStatus else Success);
  }
}
