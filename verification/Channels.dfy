/** A queue as the threads of the pipeline see it: every operation is one atomic, guarded step. */
module Channels {
  import opened Wrappers
  import opened BlockingQueue

  datatype Channel<T> = Channel(items: seq<T>, closed: bool)

  /** push returns true; it blocks while neither this nor the refusal below holds. */
  predicate CanPush<T>(cap: nat, c: Channel<T>) {
    !c.closed && (cap == 0 || |c.items| < cap)
  }

  /** push returns false. */
  predicate Refuses<T>(c: Channel<T>) {
    c.closed
  }

  /** pop returns true; it blocks while neither this nor the next holds. */
  predicate CanPop<T>(c: Channel<T>) {
    c.items != []
  }

  /** pop returns false. */
  predicate Drained<T>(c: Channel<T>) {
    c.closed && c.items == []
  }

  function Enqueue<T>(c: Channel<T>, x: T): Channel<T> {
    c.(items := c.items + [x])
  }

  function Dequeue<T>(c: Channel<T>): Channel<T>
    requires CanPop(c)
  {
    c.(items := c.items[1..])
  }

  function Shut<T>(c: Channel<T>): Channel<T> {
    c.(closed := true)
  }

  function ChannelOf<T>(m: Monitor<T>): Channel<T> {
    Channel(m.queue, m.closed)
  }

  /** The monitor implements the channel: whatever a thread does inside it either leaves the channel as it
      is or is one of the guarded steps, with the matching reply. */
  lemma MonitorRefinesChannel<T(!new)>(cap: nat, m: Monitor<T>, t: nat, kind: StepKind, m': Monitor<T>)
    requires t < |m.threads| && StepBy(cap, m, t, kind, m')
    ensures
      var c, c' := ChannelOf(m), ChannelOf(m');
      if kind != Test || m'.threads[t].Waiting? then c' == c
      else
        && m'.threads[t].Leaving?
        && match m'.threads[t].reply
           case Pushed(ok) => m.threads[t].call.Push?
                              && if ok then CanPush(cap, c) && c' == Enqueue(c, m.threads[t].call.item)
                                 else Refuses(c) && c' == c
           case Popped(item) => m.threads[t].call.Pop?
                                && if item.Some? then CanPop(c) && item.value == c.items[0] && c' == Dequeue(c)
                                   else Drained(c) && c' == c
           case Closed => m.threads[t].call.Close? && c' == Shut(c)
  {
    if kind == Test && MayProceed(cap, m, m.threads[t].call) {
      match m.threads[t].call
      case Push(_) => if !m.closed { NotifyPopCounts(m.threads[t := Leaving(Pushed(true))], m'.threads); }
      case Pop => if m.queue != [] { NotifyPushCounts(m.threads[t := Leaving(Popped(Some(m.queue[0])))], m'.threads); }
      case Close =>
    }
  }
}
