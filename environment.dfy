/** What the node reaches outside itself: the transport that answers its
    requests, a monotonic clock, and the timer it sleeps on. The transport
    and the clock are modelled by a host whose replies are given in advance
    and whose clock only moves when a request, a sleep or the node's own
    work between two readings of the clock takes time. */
module Environment {
  import opened Protocol

  /** The largest delay a Node.js timer honours, in milliseconds. */
  const MaxTimerDelay: int := 0x7FFF_FFFF

  /** The delay a Node.js timer actually waits for `setTimeout(f, ms)`: a
      delay below 1 ms or above `MaxTimerDelay` is replaced by 1 ms. */
  function TimerDelay(ms: int): (d: int)
    ensures 1 <= d <= MaxTimerDelay
    ensures 1 <= ms <= MaxTimerDelay ==> d == ms
    ensures d != ms ==> d == 1
  {
    if 1 <= ms <= MaxTimerDelay then ms else 1
  }

  class Host {
    /** The reply to the n-th request issued, counting from 0. */
    const respond: nat -> Reply
    /** The monotonic clock, in milliseconds. */
    var now: int
    /** The number of requests issued so far. */
    var sent: nat
    /** Every request issued and every sleep taken, in order. */
    var trace: seq<Event>

    constructor (respond: nat -> Reply, start: int)
      ensures this.respond == respond && now == start && sent == 0 && trace == []
    {
      this.respond := respond;
      now := start;
      sent := 0;
      trace := [];
    }

    /** Issues `req` and waits for its answer, which takes the reply's latency. */
    method Request(req: Request) returns (a: Answer)
      modifies this
      ensures a == respond(old(sent)).answer
      ensures now == old(now) + respond(old(sent)).latency
      ensures sent == old(sent) + 1 && trace == old(trace) + [Issued(req)]
    {
      var reply := respond(sent);
      a := reply.answer;
      now := now + reply.latency;
      sent := sent + 1;
      trace := trace + [Issued(req)];
    }

    /** Lets the time after the reply to the last request pass before the
        clock is read again. */
    method Idle()
      requires sent > 0
      modifies this
      ensures sent == old(sent) && trace == old(trace)
      ensures now == old(now) + respond(sent - 1).idle
    {
      now := now + respond(sent - 1).idle;
    }

    /** Sleeps on a timer set for `ms` milliseconds. */
    method Sleep(ms: int)
      modifies this
      ensures now == old(now) + TimerDelay(ms)
      ensures sent == old(sent) && trace == old(trace) + [Slept(TimerDelay(ms))]
    {
      now := now + TimerDelay(ms);
      trace := trace + [Slept(TimerDelay(ms))];
    }
  }
}
