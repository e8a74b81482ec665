/** The bounded blocking queue of the monolith as a monitor: one mutex, two condition variables,
    notify_one, and wakeups that may be spurious (section 33.5 of ISO/IEC 14882:2017). */
module BlockingQueue {
  import opened Wrappers
  import opened Sums

  datatype Call<T> = Push(item: T) | Pop | Close

  datatype Reply<T> = Pushed(ok: bool) | Popped(item: Option<T>) | Closed

  /** Where a thread is: outside; wanting the mutex for a new call; holding it, about to test the wait
      condition; blocked on the condition variable; woken and wanting the mutex back; done and about
      to release it. */
  datatype Thread<T> =
    | Outside
    | Entering(call: Call<T>)
    | Testing(call: Call<T>, woken: bool)
    | Waiting(call: Call<T>)
    | Woken(call: Call<T>)
    | Leaving(reply: Reply<T>)

  /** `pushed` and `popped` record everything that ever went in and out. */
  datatype Monitor<T> = Monitor(
    queue: seq<T>,
    closed: bool,
    holder: Option<nat>,
    threads: seq<Thread<T>>,
    pushed: seq<T>,
    popped: seq<T>)

  ghost predicate Start<T>(m: Monitor<T>) {
    && m.queue == [] && !m.closed && m.holder == None && m.pushed == [] && m.popped == []
    && forall t :: 0 <= t < |m.threads| ==> m.threads[t] == Outside
  }

  // ----- steps -----

  predicate IsWaitingPop<T>(th: Thread<T>) { th.Waiting? && th.call.Pop? }
  predicate IsWaitingPush<T>(th: Thread<T>) { th.Waiting? && th.call.Push? }

  /** The condition a call waits for. */
  predicate MayProceed<T>(maxSize: nat, m: Monitor<T>, call: Call<T>) {
    match call
    case Push(_) => m.closed || maxSize == 0 || |m.queue| < maxSize
    case Pop => m.closed || m.queue != []
    case Close => true
  }

  /** notify_one: some thread blocked on the condition variable is woken, if there is one. */
  ghost predicate NotifyOne<T>(before: seq<Thread<T>>, who: Thread<T> -> bool, after: seq<Thread<T>>) {
    if exists v :: 0 <= v < |before| && who(before[v]) then
      exists v :: 0 <= v < |before| && who(before[v]) && before[v].Waiting?
                  && after == before[v := Woken(before[v].call)]
    else after == before
  }

  function NotifyAll<T>(threads: seq<Thread<T>>): (r: seq<Thread<T>>)
    ensures |r| == |threads|
    ensures forall t :: 0 <= t < |threads| ==>
              r[t] == if threads[t].Waiting? then Woken(threads[t].call) else threads[t]
  {
    if threads == [] then []
    else
      var last := threads[|threads| - 1];
      NotifyAll(threads[..|threads| - 1]) + [if last.Waiting? then Woken(last.call) else last]
  }

  datatype StepKind = Arrive | Acquire | Test | Release | Spurious

  /** What a call does under the mutex once it need not wait. */
  ghost predicate Proceed<T>(m: Monitor<T>, t: nat, m': Monitor<T>)
    requires t < |m.threads| && m.threads[t].Testing?
  {
    match m.threads[t].call
    case Push(item) =>
      if m.closed then m' == m.(threads := m.threads[t := Leaving(Pushed(false))])
      else
        && m' == m.(queue := m.queue + [item], pushed := m.pushed + [item], threads := m'.threads)
        && NotifyOne(m.threads[t := Leaving(Pushed(true))], IsWaitingPop, m'.threads)
    case Pop =>
      if m.queue == [] then m' == m.(threads := m.threads[t := Leaving(Popped(None))])
      else
        && m' == m.(queue := m.queue[1..], popped := m.popped + [m.queue[0]], threads := m'.threads)
        && NotifyOne(m.threads[t := Leaving(Popped(Some(m.queue[0])))], IsWaitingPush, m'.threads)
    case Close =>
      m' == m.(closed := true, threads := NotifyAll(m.threads[t := Leaving(Closed)]))
  }

  ghost predicate StepBy<T>(maxSize: nat, m: Monitor<T>, t: nat, kind: StepKind, m': Monitor<T>)
    requires t < |m.threads|
  {
    var th := m.threads[t];
    match kind
    case Arrive =>
      && th.Outside? && |m'.threads| == |m.threads| && m'.threads[t].Entering?
      && m' == m.(threads := m.threads[t := m'.threads[t]])
    case Acquire =>
      && m.holder == None && (th.Entering? || th.Woken?)
      && m' == m.(holder := Some(t), threads := m.threads[t := Testing(th.call, th.Woken?)])
    case Test =>
      && th.Testing?
      && (if MayProceed(maxSize, m, th.call) then Proceed(m, t, m')
          else m' == m.(holder := None, threads := m.threads[t := Waiting(th.call)]))
    case Release => th.Leaving? && m' == m.(holder := None, threads := m.threads[t := Outside])
    case Spurious => th.Waiting? && m' == m.(threads := m.threads[t := Woken(th.call)])
  }

  ghost predicate Next<T(!new)>(maxSize: nat, m: Monitor<T>, m': Monitor<T>) {
    exists t, kind :: 0 <= t < |m.threads| && StepBy(maxSize, m, t, kind, m')
  }

  // ----- counting threads -----

  predicate IsWokenPop<T>(th: Thread<T>) {
    ((th.Testing? && th.woken) || th.Woken?) && th.call.Pop?
  }

  predicate IsWokenPush<T>(th: Thread<T>) {
    ((th.Testing? && th.woken) || th.Woken?) && th.call.Push?
  }

  // ----- the invariant -----

  /** The mutex is held by exactly the thread that is inside. */
  ghost predicate Exclusive<T>(m: Monitor<T>) {
    && (m.holder.Some? ==> m.holder.value < |m.threads|)
    && forall t :: 0 <= t < |m.threads| ==>
      (m.holder == Some(t) <==> m.threads[t].Testing? || m.threads[t].Leaving?)
  }

  /** While a consumer sleeps, every item in the queue has a woken consumer on its way to it. */
  ghost predicate ItemsCovered<T>(m: Monitor<T>) {
    Any(m.threads, IsWaitingPop) ==> |m.queue| <= Count(m.threads, IsWokenPop)
  }

  /** While a producer sleeps, every free slot has a woken producer on its way to it. */
  ghost predicate SlotsCovered<T>(maxSize: nat, m: Monitor<T>) {
    Any(m.threads, IsWaitingPush) ==> maxSize > 0 && maxSize - |m.queue| <= Count(m.threads, IsWokenPush)
  }

  ghost predicate NobodyWaitsOnClosed<T>(m: Monitor<T>) {
    forall t :: 0 <= t < |m.threads| && m.threads[t].Waiting? ==> !m.closed && !m.threads[t].call.Close?
  }

  ghost predicate Invariant<T>(maxSize: nat, m: Monitor<T>) {
    && Exclusive(m)
    && ItemsCovered(m)
    && SlotsCovered(maxSize, m)
    && NobodyWaitsOnClosed(m)
    && (maxSize > 0 ==> |m.queue| <= maxSize)
    && m.pushed == m.popped + m.queue
  }

  /** Replacing one thread moves the two counts by what the thread was and is. */
  lemma CountsAfter<T>(threads: seq<Thread<T>>, t: nat, th: Thread<T>)
    requires t < |threads|
    ensures Count(threads[t := th], IsWokenPop) + (if IsWokenPop(threads[t]) then 1 else 0)
         == Count(threads, IsWokenPop) + (if IsWokenPop(th) then 1 else 0)
    ensures Count(threads[t := th], IsWokenPush) + (if IsWokenPush(threads[t]) then 1 else 0)
         == Count(threads, IsWokenPush) + (if IsWokenPush(th) then 1 else 0)
  {
    CountUpdate(threads, IsWokenPop, t, th);
    CountUpdate(threads, IsWokenPush, t, th);
  }

  /** Steps that touch neither the queue nor the flag. */
  lemma PlainStepKeeps<T(!new)>(maxSize: nat, m: Monitor<T>, t: nat, kind: StepKind, m': Monitor<T>)
    requires Invariant(maxSize, m) && t < |m.threads| && StepBy(maxSize, m, t, kind, m')
    requires kind == Test ==> !MayProceed(maxSize, m, m.threads[t].call)
    ensures Invariant(maxSize, m')
  {
    CountsAfter(m.threads, t, m'.threads[t]);
    assert m'.threads == m.threads[t := m'.threads[t]];
  }

  /** Apart from the one it wakes, notify_one leaves every thread alone. */
  ghost predicate OthersUntouched<T>(before: seq<Thread<T>>, after: seq<Thread<T>>) {
    && |after| == |before|
    && forall t :: 0 <= t < |before| ==>
         after[t] == before[t] || (before[t].Waiting? && after[t] == Woken(before[t].call))
  }

  lemma NotifyPopCounts<T(!new)>(before: seq<Thread<T>>, after: seq<Thread<T>>)
    requires NotifyOne(before, IsWaitingPop, after)
    ensures OthersUntouched(before, after)
    ensures Count(after, IsWokenPop) == Count(before, IsWokenPop) + (if Any(before, IsWaitingPop) then 1 else 0)
    ensures Count(after, IsWokenPush) == Count(before, IsWokenPush)
  {
    if Any(before, IsWaitingPop) {
      var v :| 0 <= v < |before| && IsWaitingPop(before[v]) && after == before[v := Woken(before[v].call)];
      CountsAfter(before, v, Woken(before[v].call));
    }
  }

  lemma NotifyPushCounts<T(!new)>(before: seq<Thread<T>>, after: seq<Thread<T>>)
    requires NotifyOne(before, IsWaitingPush, after)
    ensures OthersUntouched(before, after)
    ensures Count(after, IsWokenPush) == Count(before, IsWokenPush) + (if Any(before, IsWaitingPush) then 1 else 0)
    ensures Count(after, IsWokenPop) == Count(before, IsWokenPop)
  {
    if Any(before, IsWaitingPush) {
      var v :| 0 <= v < |before| && IsWaitingPush(before[v]) && after == before[v := Woken(before[v].call)];
      CountsAfter(before, v, Woken(before[v].call));
    }
  }

  /** Nobody falls asleep when a thread leaves and others are merely woken. */
  lemma NoNewSleeper<T(!new)>(threads: seq<Thread<T>>, t: nat, th: Thread<T>, after: seq<Thread<T>>,
                              who: Thread<T> -> bool)
    requires t < |threads| && th.Leaving? && OthersUntouched(threads[t := th], after)
    requires forall x :: who(x) ==> x.Waiting?
    ensures Any(after, who) ==> Any(threads[t := th], who) && Any(threads, who)
  {
    if Any(after, who) {
      var u :| 0 <= u < |after| && who(after[u]);
      assert after[u] == threads[t := th][u] == threads[u];
    }
  }

  lemma ExclusiveAfter<T(!new)>(m: Monitor<T>, t: nat, th: Thread<T>, m': Monitor<T>)
    requires Exclusive(m) && NobodyWaitsOnClosed(m) && t < |m.threads| && m.threads[t].Testing? && th.Leaving?
    requires OthersUntouched(m.threads[t := th], m'.threads) && m'.holder == m.holder && m'.closed == m.closed
    ensures Exclusive(m') && NobodyWaitsOnClosed(m')
  {
    forall u | 0 <= u < |m.threads|
      ensures m'.threads[u] == m.threads[t := th][u]
              || (m.threads[u].Waiting? && m'.threads[u] == Woken(m.threads[u].call)) {}
  }

  lemma PushKeeps<T(!new)>(maxSize: nat, m: Monitor<T>, t: nat, m': Monitor<T>)
    requires Invariant(maxSize, m) && t < |m.threads| && m.threads[t].Testing? && m.threads[t].call.Push?
    requires !m.closed && (maxSize == 0 || |m.queue| < maxSize) && Proceed(m, t, m')
    ensures Invariant(maxSize, m')
  {
    var th := Leaving(Pushed(true));
    var mid := m.threads[t := th];
    CountsAfter(m.threads, t, th);
    NotifyPopCounts(mid, m'.threads);
    NoNewSleeper(m.threads, t, th, m'.threads, IsWaitingPop);
    NoNewSleeper(m.threads, t, th, m'.threads, IsWaitingPush);
    ExclusiveAfter(m, t, th, m');
  }

  lemma PopKeeps<T(!new)>(maxSize: nat, m: Monitor<T>, t: nat, m': Monitor<T>)
    requires Invariant(maxSize, m) && t < |m.threads| && m.threads[t].Testing? && m.threads[t].call.Pop?
    requires m.queue != [] && Proceed(m, t, m')
    ensures Invariant(maxSize, m')
  {
    var th := Leaving(Popped(Some(m.queue[0])));
    var mid := m.threads[t := th];
    CountsAfter(m.threads, t, th);
    NotifyPushCounts(mid, m'.threads);
    NoNewSleeper(m.threads, t, th, m'.threads, IsWaitingPop);
    NoNewSleeper(m.threads, t, th, m'.threads, IsWaitingPush);
    ExclusiveAfter(m, t, th, m');
    assert m.queue == [m.queue[0]] + m.queue[1..];
  }

  /** A push that is refused, and a pop that finds the closed queue empty. */
  lemma RefusalKeeps<T(!new)>(maxSize: nat, m: Monitor<T>, t: nat, reply: Reply<T>)
    requires Invariant(maxSize, m) && t < |m.threads| && m.threads[t].Testing? && m.closed
    ensures Invariant(maxSize, m.(threads := m.threads[t := Leaving(reply)]))
  {
    CountsAfter(m.threads, t, Leaving(reply));
  }

  lemma CloseKeeps<T(!new)>(maxSize: nat, m: Monitor<T>, t: nat, m': Monitor<T>)
    requires Invariant(maxSize, m) && t < |m.threads| && m.threads[t].Testing? && m.threads[t].call.Close?
    requires Proceed(m, t, m')
    ensures Invariant(maxSize, m')
  {
  }

  lemma StepKeeps<T(!new)>(maxSize: nat, m: Monitor<T>, m': Monitor<T>)
    requires Invariant(maxSize, m) && Next(maxSize, m, m')
    ensures Invariant(maxSize, m')
  {
    var t, kind :| 0 <= t < |m.threads| && StepBy(maxSize, m, t, kind, m');
    if kind == Test && MayProceed(maxSize, m, m.threads[t].call) {
      match m.threads[t].call
      case Push(_) =>
        if m.closed { RefusalKeeps(maxSize, m, t, Pushed(false)); } else { PushKeeps(maxSize, m, t, m'); }
      case Pop =>
        if m.queue == [] { RefusalKeeps(maxSize, m, t, Popped(None)); } else { PopKeeps(maxSize, m, t, m'); }
      case Close => CloseKeeps(maxSize, m, t, m');
    } else {
      PlainStepKeeps(maxSize, m, t, kind, m');
    }
  }

  ghost predicate Linked<T(!new)>(maxSize: nat, run: seq<Monitor<T>>, i: nat)
    requires i + 1 < |run|
  {
    Next(maxSize, run[i], run[i + 1])
  }

  ghost predicate Run<T(!new)>(maxSize: nat, run: seq<Monitor<T>>) {
    run != [] && Start(run[0]) && forall i :: 0 <= i < |run| - 1 ==> Linked(maxSize, run, i)
  }

  lemma StartOk<T(!new)>(maxSize: nat, m: Monitor<T>)
    requires Start(m)
    ensures Invariant(maxSize, m)
  {
  }

  /** No lost wakeup: in every state of every interleaving of any number of threads, spurious wakeups
      included, the invariant holds. */
  lemma {:induction false} NoLostWakeup<T(!new)>(maxSize: nat, run: seq<Monitor<T>>, n: nat)
    requires Run(maxSize, run) && n < |run|
    ensures Invariant(maxSize, run[n])
    decreases n
  {
    if n > 0 {
      NoLostWakeup(maxSize, run, n - 1);
      assert Linked(maxSize, run, n - 1);
      StepKeeps(maxSize, run[n - 1], run[n]);
    } else {
      StartOk(maxSize, run[0]);
    }
  }

  // ----- sleeping threads sleep for a reason -----

  /** Some thread can move without a new call arriving and without a spurious wakeup. */
  ghost predicate CanMove<T(!new)>(maxSize: nat, m: Monitor<T>) {
    exists t, kind, m' ::
      0 <= t < |m.threads| && kind in {Acquire, Test, Release} && StepBy(maxSize, m, t, kind, m')
  }

  lemma AcquireEnabled<T(!new)>(maxSize: nat, m: Monitor<T>, t: nat)
    requires t < |m.threads| && m.holder == None && (m.threads[t].Entering? || m.threads[t].Woken?)
    ensures CanMove(maxSize, m)
  {
    var m' := m.(holder := Some(t), threads := m.threads[t := Testing(m.threads[t].call, m.threads[t].Woken?)]);
    assert StepBy(maxSize, m, t, Acquire, m');
  }

  /** notify_one can always be carried out. */
  lemma NotifyPossible<T(!new)>(before: seq<Thread<T>>, who: Thread<T> -> bool) returns (after: seq<Thread<T>>)
    requires forall th :: who(th) ==> th.Waiting?
    ensures NotifyOne(before, who, after)
  {
    after := before;
    if v :| 0 <= v < |before| && who(before[v]) {
      after := before[v := Woken(before[v].call)];
    }
  }

  lemma TestEnabled<T(!new)>(maxSize: nat, m: Monitor<T>, t: nat)
    requires t < |m.threads| && m.threads[t].Testing?
    ensures CanMove(maxSize, m)
  {
    var call := m.threads[t].call;
    var m';
    if !MayProceed(maxSize, m, call) {
      m' := m.(holder := None, threads := m.threads[t := Waiting(call)]);
    } else {
      match call
      case Push(item) =>
        if m.closed {
          m' := m.(threads := m.threads[t := Leaving(Pushed(false))]);
        } else {
          var after := NotifyPossible(m.threads[t := Leaving(Pushed(true))], IsWaitingPop);
          m' := m.(queue := m.queue + [item], pushed := m.pushed + [item], threads := after);
        }
      case Pop =>
        if m.queue == [] {
          m' := m.(threads := m.threads[t := Leaving(Popped(None))]);
        } else {
          var after := NotifyPossible(m.threads[t := Leaving(Popped(Some(m.queue[0])))], IsWaitingPush);
          m' := m.(queue := m.queue[1..], popped := m.popped + [m.queue[0]], threads := after);
        }
      case Close =>
        m' := m.(closed := true, threads := NotifyAll(m.threads[t := Leaving(Closed)]));
    }
    assert StepBy(maxSize, m, t, Test, m');
  }

  lemma ReleaseEnabled<T(!new)>(maxSize: nat, m: Monitor<T>, t: nat)
    requires t < |m.threads| && m.threads[t].Leaving?
    ensures CanMove(maxSize, m)
  {
    var m' := m.(holder := None, threads := m.threads[t := Outside]);
    assert StepBy(maxSize, m, t, Release, m');
  }

  /** When nothing can move any more, every thread in a call is asleep, and rightly so: consumers
      because the open queue is empty, producers because it is full. */
  lemma StuckOnlyWhenBlocked<T(!new)>(maxSize: nat, m: Monitor<T>, t: nat)
    requires Invariant(maxSize, m) && !CanMove(maxSize, m)
    requires t < |m.threads| && !m.threads[t].Outside?
    ensures m.threads[t].Waiting? && !MayProceed(maxSize, m, m.threads[t].call)
  {
    if m.holder.Some? {
      var h := m.holder.value;
      if m.threads[h].Testing? { TestEnabled(maxSize, m, h); }
      if m.threads[h].Leaving? { ReleaseEnabled(maxSize, m, h); }
    }
    forall u | 0 <= u < |m.threads| ensures m.threads[u].Outside? || m.threads[u].Waiting? {
      if m.threads[u].Entering? || m.threads[u].Woken? { AcquireEnabled(maxSize, m, u); }
      if m.threads[u].Testing? { TestEnabled(maxSize, m, u); }
      if m.threads[u].Leaving? { ReleaseEnabled(maxSize, m, u); }
    }
    CountAny(m.threads, IsWokenPop);
    CountAny(m.threads, IsWokenPush);
    if m.threads[t].call.Pop? {
      assert IsWaitingPop(m.threads[t]);
    } else {
      assert IsWaitingPush(m.threads[t]);
    }
  }
}
