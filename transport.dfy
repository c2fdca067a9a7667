/**
 * wiz_send_receive: send a datagram, wait for a reply with a growing
 * timeout, and retry up to MaxRetries times. The socket is replaced by an
 * oracle that says, for each attempt in turn, what the network did.
 */
module Transport {
  import opened Wrappers
  import opened CText
  import opened Cwiz

  /** What one attempt's sendto/recvfrom pair observed. */
  datatype Outcome =
    | SendFailed
    | NoReply
    | Reply(data: string, from: Endpoint)

  /** One sendto call: where the datagram went and what it carried. */
  datatype Datagram = Datagram(dest: Endpoint, payload: string)

  /**
   * The result of an exchange: the status, the received bytes (meaningful on
   * Ok), every datagram sent, the receive timeout set before each recvfrom,
   * how many oracle outcomes were consumed and the final peer address.
   */
  datatype Exchange = Exchange(status: Status, reply: string, sends: seq<Datagram>,
                               waits: seq<nat>, used: nat, addr: Endpoint)

  const InitialWaitUs := 750000
  const WaitStepUs := 3000000
  const MaxWaitUs := DefaultTimeout * 1000000

  /** The outcome of attempt k; an exhausted oracle never answers. */
  function OutcomeAt(script: seq<Outcome>, k: nat): Outcome
  {
    if k < |script| then script[k] else NoReply
  }

  /** recvfrom reads at most size - 1 bytes into the buffer. */
  function Received(o: Outcome, size: nat): (n: nat)
    requires size >= 1
    requires o.Reply?
    ensures n <= |o.data| && n < size
  {
    Min(|o.data|, size - 1)
  }

  /** An attempt after which the loop goes round again: a timeout or an empty datagram. */
  predicate Retries(o: Outcome, size: nat)
    requires size >= 1
  {
    o.NoReply? || (o.Reply? && Received(o, size) == 0)
  }

  /** The wait before the next attempt: three seconds more, capped at the default timeout. */
  function NextWait(w: nat): nat
  {
    if w + WaitStepUs > MaxWaitUs then MaxWaitUs else w + WaitStepUs
  }

  /** The closed form of the schedule: 0.75 s plus 3 s per earlier attempt, at most 13 s. */
  function WaitAt(k: nat): (w: nat)
    ensures InitialWaitUs <= w <= MaxWaitUs
  {
    Min(InitialWaitUs + WaitStepUs * k, MaxWaitUs)
  }

  /**
   * The attempts from k on, with the current peer address and wait: the
   * reference definition the loop is proved against.
   */
  function Run(script: seq<Outcome>, k: nat, addr: Endpoint, payload: string, wait: nat, size: nat): (x: Exchange)
    requires k <= MaxRetries && size >= 1
    decreases MaxRetries - k
  {
    if k == MaxRetries then Exchange(ErrTimeout, "", [], [], k, addr)
    else
      var sent := Datagram(addr, payload);
      match OutcomeAt(script, k)
      case SendFailed => Exchange(ErrSocket, "", [sent], [], k + 1, addr)
      case NoReply =>
        var rest := Run(script, k + 1, addr, payload, NextWait(wait), size);
        rest.(sends := [sent] + rest.sends, waits := [wait] + rest.waits)
      case Reply(data, from) =>
        var n := Min(|data|, size - 1);
        if n > 0 then Exchange(Ok, data[..n], [sent], [wait], k + 1, from)
        else
          var rest := Run(script, k + 1, from, payload, NextWait(wait), size);
          rest.(sends := [sent] + rest.sends, waits := [wait] + rest.waits)
  }

  /** The exchange for one call; a NULL message (or buffer, or address) sends nothing. */
  function ExchangeSpec(script: seq<Outcome>, addr: Endpoint, message: Option<string>, size: nat): Exchange
    requires size >= 1
  {
    if message.None? then Exchange(ErrInvalidParam, "", [], [], 0, addr)
    else Run(script, 0, addr, message.value, InitialWaitUs, size)
  }

  /** The exchange whole is the datagrams and waits logged so far followed by the exchange rest. */
  ghost predicate Continues(whole: Exchange, sends: seq<Datagram>, waits: seq<nat>, rest: Exchange)
  {
    whole == rest.(sends := sends + rest.sends, waits := waits + rest.waits)
  }

  /** One unfolding of Run, case by case. */
  lemma RunStep(script: seq<Outcome>, k: nat, addr: Endpoint, payload: string, wait: nat, size: nat)
    requires k < MaxRetries && size >= 1
    ensures var o := OutcomeAt(script, k);
            var x := Run(script, k, addr, payload, wait, size);
            var sent := Datagram(addr, payload);
            (o.SendFailed? ==> x == Exchange(ErrSocket, "", [sent], [], k + 1, addr)) &&
            (o.Reply? && Received(o, size) > 0 ==>
               x == Exchange(Ok, o.data[..Received(o, size)], [sent], [wait], k + 1, o.from)) &&
            (Retries(o, size) ==>
               var next := Run(script, k + 1, if o.Reply? then o.from else addr, payload, NextWait(wait), size);
               x == next.(sends := [sent] + next.sends, waits := [wait] + next.waits))
  {
  }

  /** Moving one retried attempt from the remaining exchange to the log keeps Continues. */
  lemma ContinuesStep(whole: Exchange, sends: seq<Datagram>, waits: seq<nat>, sent: Datagram, w: nat,
                      rest: Exchange, next: Exchange)
    requires Continues(whole, sends, waits, rest)
    requires rest == next.(sends := [sent] + next.sends, waits := [w] + next.waits)
    ensures Continues(whole, sends + [sent], waits + [w], next)
  {
    assert (sends + [sent]) + next.sends == sends + ([sent] + next.sends);
    assert (waits + [w]) + next.waits == waits + ([w] + next.waits);
  }

  /** The send-and-retry loop of wiz_send_receive. */
  method SendReceive(script: seq<Outcome>, addr: Endpoint, message: Option<string>, responseSize: nat)
    returns (x: Exchange)
    requires responseSize >= 1
    ensures x == ExchangeSpec(script, addr, message, responseSize)
  {
    if message.None? {
      return Exchange(ErrInvalidParam, "", [], [], 0, addr);
    }
    var payload := message.value;
    var attempts := 0;
    var waitUs: nat := InitialWaitUs;
    var peer := addr;
    var sends: seq<Datagram> := [];
    var waits: seq<nat> := [];
    ghost var whole := Run(script, 0, addr, payload, InitialWaitUs, responseSize);
    assert [] + whole.sends == whole.sends && [] + whole.waits == whole.waits;
    while attempts < MaxRetries
      invariant 0 <= attempts <= MaxRetries
      invariant |sends| == |waits| == attempts
      invariant Continues(whole, sends, waits, Run(script, attempts, peer, payload, waitUs, responseSize))
      decreases MaxRetries - attempts
    {
      ghost var rest := Run(script, attempts, peer, payload, waitUs, responseSize);
      RunStep(script, attempts, peer, payload, waitUs, responseSize);
      var sent := Datagram(peer, payload);
      var o := OutcomeAt(script, attempts);
      if o.SendFailed? {
        return Exchange(ErrSocket, "", sends + [sent], waits + [], attempts + 1, peer);
      }
      if o.Reply? {
        peer := o.from;
        var received := Min(|o.data|, responseSize - 1);
        if received > 0 {
          return Exchange(Ok, o.data[..received], sends + [sent], waits + [waitUs], attempts + 1, peer);
        }
      }
      ghost var next := Run(script, attempts + 1, peer, payload, NextWait(waitUs), responseSize);
      ContinuesStep(whole, sends, waits, sent, waitUs, rest, next);
      sends := sends + [sent];
      waits := waits + [waitUs];
      attempts := attempts + 1;
      waitUs := waitUs + WaitStepUs;
      if waitUs > MaxWaitUs {
        waitUs := MaxWaitUs;
      }
    }
    assert sends + [] == sends && waits + [] == waits;
    return Exchange(ErrTimeout, "", sends, waits, attempts, peer);
  }

  // ------------------------------------------------------------ properties

  /** The first attempt at or after k that ends the loop, or MaxRetries when none does. */
  function FirstStop(script: seq<Outcome>, k: nat, size: nat): (j: nat)
    requires k <= MaxRetries && size >= 1
    decreases MaxRetries - k
    ensures k <= j <= MaxRetries
    ensures j < MaxRetries ==> !Retries(OutcomeAt(script, j), size)
    ensures forall i :: k <= i < j ==> Retries(OutcomeAt(script, i), size)
  {
    if k == MaxRetries then k
    else if Retries(OutcomeAt(script, k), size) then FirstStop(script, k + 1, size)
    else k
  }

  /**
   * The loop's result in terms of the first attempt that does not retry:
   * OK with the truncated bytes when it is a non-empty reply, SOCKET when it
   * is a send failure, TIMEOUT when all six attempts retry. One datagram is
   * sent per attempt made, so never more than six.
   */
  lemma {:induction false} RunOutcome(script: seq<Outcome>, k: nat, addr: Endpoint, payload: string, wait: nat, size: nat)
    requires k <= MaxRetries && size >= 1
    decreases MaxRetries - k
    ensures var x := Run(script, k, addr, payload, wait, size);
            var j := FirstStop(script, k, size);
            |x.sends| == j + (if j < MaxRetries then 1 else 0) - k &&
            x.used == k + |x.sends| &&
            (j == MaxRetries <==> x.status == ErrTimeout) &&
            (j < MaxRetries && OutcomeAt(script, j).SendFailed? <==> x.status == ErrSocket) &&
            (j < MaxRetries && OutcomeAt(script, j).Reply? <==> x.status == Ok) &&
            (x.status == Ok ==>
               x.reply == OutcomeAt(script, j).data[..Received(OutcomeAt(script, j), size)] &&
               1 <= |x.reply| < size)
  {
    if k < MaxRetries {
      var o := OutcomeAt(script, k);
      if o.NoReply? {
        RunOutcome(script, k + 1, addr, payload, NextWait(wait), size);
      } else if o.Reply? && Min(|o.data|, size - 1) == 0 {
        RunOutcome(script, k + 1, o.from, payload, NextWait(wait), size);
      }
    }
  }

  /** Every datagram carries the message, and a receive timeout is set for each send that succeeded. */
  lemma {:induction false} RunSendsMessage(script: seq<Outcome>, k: nat, addr: Endpoint, payload: string, wait: nat, size: nat)
    requires k <= MaxRetries && size >= 1
    decreases MaxRetries - k
    ensures var x := Run(script, k, addr, payload, wait, size);
            (forall i :: 0 <= i < |x.sends| ==> x.sends[i].payload == payload) &&
            |x.waits| == |x.sends| - (if x.status == ErrSocket then 1 else 0)
  {
    if k < MaxRetries {
      var o := OutcomeAt(script, k);
      if o.NoReply? {
        RunSendsMessage(script, k + 1, addr, payload, NextWait(wait), size);
      } else if o.Reply? && Min(|o.data|, size - 1) == 0 {
        RunSendsMessage(script, k + 1, o.from, payload, NextWait(wait), size);
      }
    }
  }

  /** Each receive timeout in ws is the closed-form one for its attempt, counting from k. */
  predicate ScheduleFrom(ws: seq<nat>, k: nat)
  {
    forall i :: 0 <= i < |ws| ==> ws[i] == WaitAt(k + i)
  }

  /** Every datagram in ds went to addr. */
  predicate AllTo(ds: seq<Datagram>, addr: Endpoint)
  {
    forall i :: 0 <= i < |ds| ==> ds[i].dest == addr
  }

  /** Adding three seconds and capping, attempt after attempt, yields the closed-form schedule. */
  lemma NextWaitAt(k: nat)
    ensures NextWait(WaitAt(k)) == WaitAt(k + 1)
  {
  }

  /** The i-th receive timeout of an exchange that started at attempt k with wait WaitAt(k) is WaitAt(k + i). */
  lemma {:induction false} RunWaits(script: seq<Outcome>, k: nat, addr: Endpoint, payload: string, size: nat)
    requires k <= MaxRetries && size >= 1
    decreases MaxRetries - k
    ensures ScheduleFrom(Run(script, k, addr, payload, WaitAt(k), size).waits, k)
  {
    if k < MaxRetries {
      var o := OutcomeAt(script, k);
      NextWaitAt(k);
      if o.NoReply? || (o.Reply? && Min(|o.data|, size - 1) == 0) {
        var peer := if o.Reply? then o.from else addr;
        RunWaits(script, k + 1, peer, payload, size);
        var rest := Run(script, k + 1, peer, payload, WaitAt(k + 1), size);
        var x := Run(script, k, addr, payload, WaitAt(k), size);
        assert x.waits == [WaitAt(k)] + rest.waits;
        forall i | 1 <= i < |x.waits|
          ensures x.waits[i] == WaitAt(k + i)
        {
          assert x.waits[i] == rest.waits[i - 1];
        }
      }
    }
  }

  /** The six receive timeouts: 0.75, 3.75, 6.75, 9.75, 12.75 and 13 seconds, 46.75 s in all. */
  lemma WaitSchedule()
    ensures WaitAt(0) == 750000 && WaitAt(1) == 3750000 && WaitAt(2) == 6750000
    ensures WaitAt(3) == 9750000 && WaitAt(4) == 12750000 && WaitAt(5) == 13000000
    ensures WaitAt(0) + WaitAt(1) + WaitAt(2) + WaitAt(3) + WaitAt(4) + WaitAt(5) == 46750000
  {
  }

  /** The whole-call guarantees: at most six sends, the closed-form schedule, and the three-way verdict. */
  lemma ExchangeGuarantees(script: seq<Outcome>, addr: Endpoint, message: Option<string>, size: nat)
    requires size >= 1
    ensures var x := ExchangeSpec(script, addr, message, size);
            |x.sends| <= MaxRetries && x.used == |x.sends| &&
            (forall i :: 0 <= i < |x.waits| ==> x.waits[i] == WaitAt(i)) &&
            (message.None? <==> x.status == ErrInvalidParam) &&
            (message.None? ==> x.sends == []) &&
            (message.Some? ==> x.status in {Ok, ErrSocket, ErrTimeout})
  {
    if message.Some? {
      RunOutcome(script, 0, addr, message.value, InitialWaitUs, size);
      RunWaits(script, 0, addr, message.value, size);
    }
  }

  /** A send failure on the first attempt is reported at once, after a single datagram. */
  lemma SendFailureIsImmediate(rest: seq<Outcome>, addr: Endpoint, message: string, size: nat)
    requires size >= 1
    ensures var x := ExchangeSpec([SendFailed] + rest, addr, Some(message), size);
            x.status == ErrSocket && x.sends == [Datagram(addr, message)] && x.waits == []
  {
  }

  /** Silence on every attempt: six datagrams to the same address, then TIMEOUT. */
  lemma SilenceTimesOut(addr: Endpoint, message: string, size: nat)
    requires size >= 1
    ensures var x := ExchangeSpec([], addr, Some(message), size);
            x.status == ErrTimeout && |x.sends| == MaxRetries &&
            forall i :: 0 <= i < |x.sends| ==> x.sends[i] == Datagram(addr, message)
  {
    RunOutcome([], 0, addr, message, InitialWaitUs, size);
    RunSendsMessage([], 0, addr, message, InitialWaitUs, size);
    RunSameDest([], 0, addr, message, InitialWaitUs, size);
  }

  /** With no datagram arriving, every send goes to the original address. */
  lemma {:induction false} RunSameDest(script: seq<Outcome>, k: nat, addr: Endpoint, payload: string, wait: nat, size: nat)
    requires k <= MaxRetries && size >= 1
    requires forall i :: k <= i < MaxRetries ==> !OutcomeAt(script, i).Reply?
    decreases MaxRetries - k
    ensures AllTo(Run(script, k, addr, payload, wait, size).sends, addr)
  {
    if k < MaxRetries && OutcomeAt(script, k).NoReply? {
      RunSameDest(script, k + 1, addr, payload, NextWait(wait), size);
      var rest := Run(script, k + 1, addr, payload, NextWait(wait), size);
      var x := Run(script, k, addr, payload, wait, size);
      assert x.sends == [Datagram(addr, payload)] + rest.sends;
      forall i | 1 <= i < |x.sends|
        ensures x.sends[i].dest == addr
      {
        assert x.sends[i] == rest.sends[i - 1];
      }
    }
  }

  /**
   * Three silent attempts and then a reply: OK on the fourth send, after
   * waits of 0.75, 3.75, 6.75 and 9.75 seconds.
   */
  lemma ReplyOnFourthAttempt(data: string, from: Endpoint, addr: Endpoint, message: string, size: nat)
    requires size >= 2 && |data| >= 1
    ensures var x := ExchangeSpec([NoReply, NoReply, NoReply, Reply(data, from)], addr, Some(message), size);
            x.status == Ok && |x.sends| == 4 && x.waits == [750000, 3750000, 6750000, 9750000] &&
            x.addr == from && x.reply == data[..Min(|data|, size - 1)]
  {
  }

  /**
   * recvfrom overwrites the peer address even for an empty datagram, so the
   * retry after one goes to whoever sent it.
   */
  lemma EmptyReplyRedirects(from: Endpoint, addr: Endpoint, message: string, size: nat)
    requires size >= 1
    ensures var x := ExchangeSpec([Reply("", from), SendFailed], addr, Some(message), size);
            x.status == ErrSocket && x.sends == [Datagram(addr, message), Datagram(from, message)]
  {
  }
}
