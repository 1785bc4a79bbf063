/** The client's idempotent producer: sequence numbers that move only on success, and epoch claims. */
module IdempotentProducer {
  import opened Wrappers

  /** One request as the caller of the HTTP client sees it, retries of retryable failures included. */
  datatype Answer = Success | Forbidden(current: Option<nat>) | Conflict | OtherError

  datatype Client = Client(autoClaim: bool, epoch: nat, nextSeq: nat, closed: bool)

  predicate Claims(c: Client, a: Answer, retried: bool) {
    a.Forbidden? && c.autoClaim && !retried
  }

  /** Take over with the epoch after the one the server reported. */
  function Claim(c: Client, a: Answer): (c': Client)
    requires a.Forbidden?
  {
    c.(epoch := (if a.current.Some? then a.current.value else c.epoch) + 1, nextSeq := 0)
  }

  function Advanced(c: Client): (c': Client) { c.(nextSeq := c.nextSeq + 1) }

  /** What an append does to the client: at most one claim, then at most one step forward. */
  function AppendEffect(c: Client, first: Answer, second: Answer): (c': Client) {
    if first.Success? then Advanced(c)
    else if !Claims(c, first, false) then c
    else if second.Success? then Advanced(Claim(c, first))
    else Claim(c, first)
  }

  /** A close marks the client closed on success and leaves the sequence number where it is. */
  function CloseEffect(c: Client, first: Answer, second: Answer): (c': Client) {
    if c.closed then c
    else if first.Success? then c.(closed := true)
    else if !Claims(c, first, false) then c
    else if second.Success? then Claim(c, first).(closed := true)
    else Claim(c, first)
  }

  class Producer {
    const autoClaim: bool
    var epoch: nat
    var nextSeq: nat
    var closed: bool

    ghost function State(): (c: Client) reads this { Client(autoClaim, epoch, nextSeq, closed) }

    constructor (claim: bool, start: nat)
      ensures State() == Client(claim, start, 0, false)
    {
      autoClaim, epoch, nextSeq, closed := claim, start, 0, false;
    }

    /** The request loop of appends and closes; `answers` are the server's, in order, and `sent` what was sent. */
    method SendWithState(answers: seq<Answer>) returns (ok: bool, sent: seq<(nat, nat)>)
      requires |answers| == 2
      modifies this
      ensures 1 <= |sent| <= 2 && sent[0] == (old(epoch), old(nextSeq))
      ensures ok == answers[|sent| - 1].Success?
      ensures |sent| == 2 <==> Claims(old(State()), answers[0], false)
      ensures State() == if |sent| == 2 then Claim(old(State()), answers[0]) else old(State())
      ensures |sent| == 2 ==> sent[1] == (epoch, nextSeq)
    {
      var retried := false;
      sent := [];
      while true
        invariant |sent| == (if retried then 1 else 0)
        invariant retried ==> Claims(old(State()), answers[0], false) && State() == Claim(old(State()), answers[0])
                              && sent[0] == (old(epoch), old(nextSeq))
        invariant !retried ==> State() == old(State())
        decreases if retried then 0 else 1
      {
        var answer := answers[|sent|];
        sent := sent + [(epoch, nextSeq)];
        if answer.Success? {
          return true, sent;
        }
        if !(autoClaim && answer.Forbidden? && !retried) {
          return false, sent;
        }
        epoch := (if answer.current.Some? then answer.current.value else epoch) + 1;
        nextSeq := 0;
        retried := true;
      }
    }

    method Append(answers: seq<Answer>) returns (ok: bool)
      requires |answers| == 2
      modifies this
      ensures State() == AppendEffect(old(State()), answers[0], answers[1])
      ensures !ok && !answers[0].Forbidden? ==> State() == old(State())
    {
      var sent;
      ok, sent := SendWithState(answers);
      if ok {
        nextSeq := nextSeq + 1;
      }
    }

    /**
     The first successful close marks the producer closed; a later one sends its request
     once, takes a conflict for success, and changes nothing.
     */
    method Close(answers: seq<Answer>) returns (ok: bool)
      requires |answers| == 2
      modifies this
      ensures State() == CloseEffect(old(State()), answers[0], answers[1])
      ensures old(closed) ==> ok == (answers[0].Success? || answers[0].Conflict?)
      ensures !old(closed) ==> ok == closed
    {
      if closed {
        return answers[0].Success? || answers[0].Conflict?;
      }
      var sent;
      ok, sent := SendWithState(answers);
      if ok {
        closed := true;
      }
    }
  }
}
