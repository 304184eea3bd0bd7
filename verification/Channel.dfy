/** A POSIX condition variable, as its waiting threads see it. */
module Conditions {
  type Thread = nat

  /** Threads blocked in pthread_cond_wait, and threads unblocked that have yet to take the mutex. */
  datatype Cond = Cond(asleep: set<Thread>, awake: set<Thread>) {
    function Threads(): set<Thread> {
      asleep + awake
    }

    /** A thread goes to sleep, whether it came from outside or had been unblocked. */
    function Sleep(t: Thread): Cond {
      Cond(asleep + {t}, awake - {t})
    }

    /** An unblocked thread takes the mutex and leaves its loop. */
    function Leave(t: Thread): Cond {
      Cond(asleep, awake - {t})
    }

    function Wake(woken: set<Thread>): Cond {
      Cond(asleep - woken, awake + woken)
    }

    /** What pthread_cond_signal may unblock: at least one thread when there is one. */
    predicate Signals(woken: set<Thread>) {
      woken <= asleep && (asleep != {} ==> woken != {})
    }

    function Broadcast(): Cond {
      Wake(asleep)
    }
  }

  const NOBODY := Cond({}, {})

  /** The two condition variables of a channel share no thread, and none both sleeps and runs. */
  predicate Apart(c: Cond, other: Cond) {
    c.asleep !! c.awake && other.asleep !! other.awake && c.Threads() !! other.Threads()
  }

  lemma ApartBothWays(c: Cond, other: Cond)
    requires Apart(c, other)
    ensures Apart(other, c)
  {}

  lemma SleepKeeps(c: Cond, other: Cond, t: Thread)
    requires Apart(c, other) && t !in c.asleep && t !in other.Threads()
    ensures Apart(c.Sleep(t), other) && c.Sleep(t).Threads() == c.Threads() + {t} && t in c.Sleep(t).asleep
  {}

  lemma LeaveKeeps(c: Cond, other: Cond, t: Thread)
    requires Apart(c, other) && t !in c.asleep
    ensures Apart(c.Leave(t), other) && c.Leave(t).asleep == c.asleep
    ensures |c.Leave(t).awake| >= |c.awake| - 1
    ensures c.Leave(t).Threads() == c.Threads() - {t}
  {
    assert |c.awake - {t}| >= |c.awake| - 1 by {
      if t !in c.awake {
        assert c.awake - {t} == c.awake;
      }
    }
  }

  lemma WakeKeeps(c: Cond, other: Cond, woken: set<Thread>)
    requires Apart(c, other) && woken <= c.asleep
    ensures Apart(c.Wake(woken), other) && c.Wake(woken).Threads() == c.Threads()
    ensures |c.Wake(woken).awake| == |c.awake| + |woken|
    ensures c.Signals(woken) && c.Wake(woken).asleep != {} ==> |c.Wake(woken).awake| >= |c.awake| + 1
    ensures c.asleep == {} ==> c.Wake(woken).asleep == {}
    ensures woken == c.asleep ==> c.Wake(woken).asleep == {}
  {
    assert c.awake !! woken;
    if woken != {} {
      var t :| t in woken;
      assert |woken| >= 1;
    }
  }

  lemma WakeNobody(c: Cond)
    ensures c.Wake({}) == c
  {}
}

/** Buffered channels: OP_SEND, OP_RECV and close() on a channel of capacity one or more. */
module Buffered {
  import opened Values
  import opened Conditions
  import opened Ring

  /** ObjChan, its two condition variables, and the value each thread inside OP_SEND holds. */
  datatype Chan = Chan(buffer: seq<Value>, head: nat, tail: nat, count: nat, closed: bool,
                       sendCond: Cond, recvCond: Cond, offers: map<Thread, Value>)

  /** One pass through a critical section: from taking the mutex to giving it up. */
  datatype Action =
    | Send(t: Thread, v: Value, woken: set<Thread>)
    | ResumeSend(t: Thread, woken: set<Thread>)
    | Recv(t: Thread, woken: set<Thread>)
    | ResumeRecv(t: Thread, woken: set<Thread>)
    | Close
    | Spurious(t: Thread)

  datatype Event = Accepted(v: Value) | Refused | Delivered(v: Value) | Drained | Waits | Quiet

  function Init(capacity: nat): Chan
    requires capacity > 0
  {
    Chan(seq(capacity, _ => VVoid), 0, 0, 0, false, NOBODY, NOBODY, map[])
  }

  predicate Outside(c: Chan, t: Thread) {
    t !in c.sendCond.Threads() && t !in c.recvCond.Threads()
  }

  predicate Enabled(c: Chan, a: Action) {
    match a
    case Send(t, _, woken) => Outside(c, t) && c.recvCond.Signals(woken)
    case ResumeSend(t, woken) => t in c.sendCond.awake && c.recvCond.Signals(woken)
    case Recv(t, woken) => Outside(c, t) && c.sendCond.Signals(woken)
    case ResumeRecv(t, woken) => t in c.recvCond.awake && c.sendCond.Signals(woken)
    case Close => true
    case Spurious(t) => t in c.sendCond.asleep || t in c.recvCond.asleep
  }

  /** The body of OP_SEND under the mutex, from the loop test on. */
  function SendBody(c: Chan, t: Thread, v: Value, woken: set<Thread>): (Chan, Event)
    requires |c.buffer| > 0 && c.tail < |c.buffer|
  {
    if c.count == |c.buffer| && !c.closed then
      (c.(sendCond := c.sendCond.Sleep(t), offers := c.offers[t := v]), Waits)
    else
      var left := c.(sendCond := c.sendCond.Leave(t), offers := c.offers - {t});
      if c.closed then (left, Refused)
      else
        (left.(buffer := c.buffer[c.tail := v], tail := (c.tail + 1) % |c.buffer|, count := c.count + 1,
               recvCond := c.recvCond.Wake(woken)),
         Accepted(v))
  }

  /** The body of OP_RECV under the mutex, from the loop test on. */
  function RecvBody(c: Chan, t: Thread, woken: set<Thread>): (Chan, Event)
    requires c.head < |c.buffer|
  {
    if c.count == 0 && !c.closed then
      (c.(recvCond := c.recvCond.Sleep(t)), Waits)
    else
      var left := c.(recvCond := c.recvCond.Leave(t));
      if c.count == 0 then (left, Drained)
      else
        (left.(head := (c.head + 1) % |c.buffer|, count := c.count - 1, sendCond := c.sendCond.Wake(woken)),
         Delivered(c.buffer[c.head]))
  }

  function CloseBody(c: Chan): Chan {
    c.(closed := true, sendCond := c.sendCond.Broadcast(), recvCond := c.recvCond.Broadcast())
  }

  predicate Shape(c: Chan) {
    WellFormed(c.buffer, c.head, c.tail, c.count) && c.tail < |c.buffer|
    && Apart(c.sendCond, c.recvCond) && c.offers.Keys == c.sendCond.Threads()
  }

  function Step(c: Chan, a: Action): (Chan, Event)
    requires Shape(c) && Enabled(c, a)
  {
    match a
    case Send(t, v, woken) => SendBody(c, t, v, woken)
    case ResumeSend(t, woken) => SendBody(c, t, c.offers[t], woken)
    case Recv(t, woken) => RecvBody(c, t, woken)
    case ResumeRecv(t, woken) => RecvBody(c, t, woken)
    case Close => (CloseBody(c), Quiet)
    case Spurious(t) =>
      if t in c.sendCond.asleep then (c.(sendCond := c.sendCond.Wake({t})), Quiet)
      else (c.(recvCond := c.recvCond.Wake({t})), Quiet)
  }

  /** While open, the awakened threads suffice for what is ready; once closed, nobody sleeps. */
  predicate Wakeful(c: Chan) {
    && (!c.closed && c.recvCond.asleep != {} ==> |c.recvCond.awake| >= c.count)
    && (!c.closed && c.sendCond.asleep != {} ==> |c.sendCond.awake| >= |c.buffer| - c.count)
    && (c.closed ==> c.sendCond.asleep == {} && c.recvCond.asleep == {})
  }

  predicate Good(c: Chan) {
    Shape(c) && Wakeful(c)
  }

  /** What the ring holds, oldest first. */
  function Held(c: Chan): seq<Value>
    requires Shape(c)
  {
    Window(c.buffer, c.head, c.count)
  }

  /** The queue as the events of one step change it. */
  function Moved(held: seq<Value>, e: Event): seq<Value> {
    match e
    case Accepted(v) => held + [v]
    case Delivered(v) => if held == [] then [] else held[1..]
    case _ => held
  }

  /** What each event says about the channel it happened on. */
  predicate Explains(c: Chan, e: Event)
    requires Shape(c)
  {
    match e
    case Accepted(_) => !c.closed && c.count < |c.buffer|
    case Refused => c.closed
    case Delivered(v) => c.count > 0 && Held(c)[0] == v
    case Drained => c.closed && c.count == 0
    case Waits => !c.closed
    case Quiet => true
  }

  predicate StepIsFine(c: Chan, r: (Chan, Event))
    requires Shape(c)
  {
    && Good(r.0) && |r.0.buffer| == |c.buffer|
    && (c.closed ==> r.0.closed)
    && Explains(c, r.1) && Held(r.0) == Moved(Held(c), r.1)
  }

  /** What became of a send of v by thread t: it took the next free slot and left, it was refused, or it
      waits inside with v in hand. */
  predicate SendIsAnswered(c: Chan, t: Thread, v: Value, r: (Chan, Event)) {
    && r.0.closed == c.closed && r.0.recvCond.Threads() == c.recvCond.Threads()
    && match r.1
       case Accepted(w) => w == v && !c.closed && c.count < |c.buffer| && SenderLeft(c, t, r.0)
       case Refused => c.closed && SenderLeft(c, t, r.0)
       case Waits =>
         && !c.closed && c.count == |c.buffer| && r.0.offers == c.offers[t := v]
         && t in r.0.sendCond.asleep && r.0.sendCond.Threads() == c.sendCond.Threads() + {t}
       case _ => false
  }

  predicate SenderLeft(c: Chan, t: Thread, next: Chan) {
    next.offers == c.offers - {t} && next.sendCond.Threads() == c.sendCond.Threads() - {t}
  }

  /** What became of a receive by thread t: it got the oldest value and left, it learned that the channel
      is closed and empty, or it waits inside. */
  predicate RecvIsAnswered(c: Chan, t: Thread, r: (Chan, Event))
    requires Shape(c)
  {
    && r.0.closed == c.closed && r.0.offers == c.offers && r.0.sendCond.Threads() == c.sendCond.Threads()
    && match r.1
       case Delivered(v) => c.count > 0 && Held(c)[0] == v && r.0.recvCond.Threads() == c.recvCond.Threads() - {t}
       case Drained => c.closed && c.count == 0 && r.0.recvCond.Threads() == c.recvCond.Threads() - {t}
       case Waits =>
         && !c.closed && c.count == 0
         && t in r.0.recvCond.asleep && r.0.recvCond.Threads() == c.recvCond.Threads() + {t}
       case _ => false
  }

  predicate NobodyMoved(c: Chan, r: (Chan, Event)) {
    && r.1 == Quiet && r.0.offers == c.offers
    && r.0.sendCond.Threads() == c.sendCond.Threads() && r.0.recvCond.Threads() == c.recvCond.Threads()
  }

  /** The answer that the thread of an action gets. */
  predicate IsAnswered(c: Chan, a: Action, r: (Chan, Event))
    requires Shape(c) && Enabled(c, a)
  {
    match a
    case Send(t, v, _) => SendIsAnswered(c, t, v, r)
    case ResumeSend(t, _) => SendIsAnswered(c, t, c.offers[t], r)
    case Recv(t, _) => RecvIsAnswered(c, t, r)
    case ResumeRecv(t, _) => RecvIsAnswered(c, t, r)
    case Close => NobodyMoved(c, r) && r.0.closed
    case Spurious(_) => NobodyMoved(c, r) && r.0.closed == c.closed
  }

  lemma SendIsFine(c: Chan, t: Thread, v: Value, woken: set<Thread>)
    requires Good(c) && c.recvCond.Signals(woken)
    requires t !in c.sendCond.asleep && t !in c.recvCond.Threads()
    ensures StepIsFine(c, SendBody(c, t, v, woken)) && SendIsAnswered(c, t, v, SendBody(c, t, v, woken))
  {
    hide WellFormed, Window, Apart, Cond.Threads, Cond.Sleep, Cond.Leave, Cond.Wake;
    if c.count == |c.buffer| && !c.closed {
      SendSleeps(c, t, v);
    } else {
      LeaveKeeps(c.sendCond, c.recvCond, t);
      assert (c.offers - {t}).Keys == c.offers.Keys - {t};
      if !c.closed {
        ApartBothWays(c.sendCond.Leave(t), c.recvCond);
        WakeKeeps(c.recvCond, c.sendCond.Leave(t), woken);
        ApartBothWays(c.recvCond.Wake(woken), c.sendCond.Leave(t));
        TailInside(c.buffer, c.head, c.tail, c.count);
        Append(c.buffer, c.head, c.tail, c.count, v);
        TailInside(c.buffer[c.tail := v], c.head, (c.tail + 1) % |c.buffer|, c.count + 1);
      }
    }
  }

  lemma SendSleeps(c: Chan, t: Thread, v: Value)
    requires Good(c) && c.count == |c.buffer| && !c.closed
    requires t !in c.sendCond.asleep && t !in c.recvCond.Threads()
    ensures Good(c.(sendCond := c.sendCond.Sleep(t), offers := c.offers[t := v]))
    ensures c.sendCond.Sleep(t).Threads() == c.sendCond.Threads() + {t} && t in c.sendCond.Sleep(t).asleep
  {
    hide WellFormed, Window, Apart, Cond.Threads, Cond.Sleep, Cond.Leave, Cond.Wake;
    SleepKeeps(c.sendCond, c.recvCond, t);
    assert c.offers[t := v].Keys == c.offers.Keys + {t};
  }

  lemma RecvIsFine(c: Chan, t: Thread, woken: set<Thread>)
    requires Good(c) && c.sendCond.Signals(woken)
    requires t !in c.recvCond.asleep && t !in c.sendCond.Threads()
    ensures StepIsFine(c, RecvBody(c, t, woken)) && RecvIsAnswered(c, t, RecvBody(c, t, woken))
  {
    hide WellFormed, Window, Apart, Cond.Threads, Cond.Sleep, Cond.Leave, Cond.Wake;
    ApartBothWays(c.sendCond, c.recvCond);
    if c.count == 0 && !c.closed {
      SleepKeeps(c.recvCond, c.sendCond, t);
      ApartBothWays(c.recvCond.Sleep(t), c.sendCond);
    } else {
      LeaveKeeps(c.recvCond, c.sendCond, t);
      ApartBothWays(c.recvCond.Leave(t), c.sendCond);
      if c.count > 0 {
        WakeKeeps(c.sendCond, c.recvCond.Leave(t), woken);
        RemoveFirst(c.buffer, c.head, c.tail, c.count);
        assert Held(c)[1..] == Window(c.buffer, (c.head + 1) % |c.buffer|, c.count - 1);
      }
    }
  }

  lemma WakingIsFine(c: Chan, senders: set<Thread>, receivers: set<Thread>, closed: bool)
    requires Good(c) && senders <= c.sendCond.asleep && receivers <= c.recvCond.asleep
    requires closed ==> senders == c.sendCond.asleep && receivers == c.recvCond.asleep
    requires c.closed ==> closed
    ensures StepIsFine(c, (c.(closed := closed, sendCond := c.sendCond.Wake(senders),
                              recvCond := c.recvCond.Wake(receivers)), Quiet))
    ensures c.sendCond.Wake(senders).Threads() == c.sendCond.Threads()
    ensures c.recvCond.Wake(receivers).Threads() == c.recvCond.Threads()
  {
    hide WellFormed, Window, Apart, Cond.Threads;
    WakeKeeps(c.sendCond, c.recvCond, senders);
    ApartBothWays(c.sendCond.Wake(senders), c.recvCond);
    WakeKeeps(c.recvCond, c.sendCond.Wake(senders), receivers);
    ApartBothWays(c.recvCond.Wake(receivers), c.sendCond.Wake(senders));
  }

  /** Every step keeps the ring and the threads in order, moves the queue as its event says, and answers
      the thread that acts: a send is accepted with the value that thread gave. */
  lemma EveryStepIsFine(c: Chan, a: Action)
    requires Good(c) && Enabled(c, a)
    ensures StepIsFine(c, Step(c, a)) && IsAnswered(c, a, Step(c, a))
  {
    hide StepIsFine, SendBody, RecvBody, CloseBody, WellFormed, SendIsAnswered, RecvIsAnswered, NobodyMoved;
    match a
    case Send(t, v, woken) => SendIsFine(c, t, v, woken);
    case ResumeSend(t, woken) => SendIsFine(c, t, c.offers[t], woken);
    case Recv(t, woken) => RecvIsFine(c, t, woken);
    case ResumeRecv(t, woken) => RecvIsFine(c, t, woken);
    case Close => CloseIsFine(c);
    case Spurious(t) => SpuriousIsFine(c, t);
  }

  lemma CloseIsFine(c: Chan)
    requires Good(c)
    ensures StepIsFine(c, (CloseBody(c), Quiet)) && NobodyMoved(c, (CloseBody(c), Quiet)) && CloseBody(c).closed
  {
    hide StepIsFine, WellFormed, Cond.Threads;
    WakingIsFine(c, c.sendCond.asleep, c.recvCond.asleep, true);
  }

  lemma SpuriousIsFine(c: Chan, t: Thread)
    requires Good(c) && Enabled(c, Spurious(t))
    ensures StepIsFine(c, Step(c, Spurious(t))) && NobodyMoved(c, Step(c, Spurious(t)))
    ensures Step(c, Spurious(t)).0.closed == c.closed
  {
    hide StepIsFine, WellFormed, Cond.Threads;
    WakeNobody(c.sendCond);
    WakeNobody(c.recvCond);
    if t in c.sendCond.asleep {
      WakingIsFine(c, {t}, {}, c.closed);
    } else {
      WakingIsFine(c, {}, {t}, c.closed);
    }
  }

  /** A run: each action was possible when it was taken. (Shape only makes Step meaningful; it always holds.) */
  ghost predicate Run(c: Chan, actions: seq<Action>, events: seq<Event>, last: Chan)
    decreases |actions|
  {
    if actions == [] then events == [] && last == c
    else Shape(c) && Enabled(c, actions[0]) && events != [] && events[0] == Step(c, actions[0]).1
         && Run(Step(c, actions[0]).0, actions[1..], events[1..], last)
  }

  function Sent(events: seq<Event>): seq<Value> {
    if events == [] then []
    else (if events[0].Accepted? then [events[0].v] else []) + Sent(events[1..])
  }

  function Received(events: seq<Event>): seq<Value> {
    if events == [] then []
    else (if events[0].Delivered? then [events[0].v] else []) + Received(events[1..])
  }

  lemma InitIsGood(capacity: nat)
    requires capacity > 0
    ensures Good(Init(capacity)) && Held(Init(capacity)) == []
    ensures Init(capacity).offers == map[] && |Init(capacity).buffer| == capacity
  {}

  /** What was held and what was accepted is what was delivered and what is held, in that order. */
  lemma {:induction false} RunIsFirstInFirstOut(c: Chan, actions: seq<Action>, events: seq<Event>, last: Chan)
    requires Good(c) && Run(c, actions, events, last)
    ensures Good(last) && |last.buffer| == |c.buffer|
    ensures Held(c) + Sent(events) == Received(events) + Held(last)
    decreases |actions|
  {
    hide IsAnswered;
    if actions == [] {
    } else {
      var next := Step(c, actions[0]).0;
      EveryStepIsFine(c, actions[0]);
      RunIsFirstInFirstOut(next, actions[1..], events[1..], last);
      OneMove(Held(c), events[0], Sent(events[1..]), Received(events[1..]), Held(last));
    }
  }

  lemma OneMove(held: seq<Value>, e: Event, sent: seq<Value>, received: seq<Value>, last: seq<Value>)
    requires Moved(held, e) + sent == received + last
    requires e.Delivered? ==> held != [] && held[0] == e.v
    ensures held + ((if e.Accepted? then [e.v] else []) + sent)
            == ((if e.Delivered? then [e.v] else []) + received) + last
  {
    if e.Accepted? {
      Regroup(held, [e.v], sent);
    } else if e.Delivered? {
      Regroup([e.v], held[1..], sent);
      Regroup([e.v], received, last);
      assert held == [e.v] + held[1..];
    }
    assert [] + sent == sent && [] + received == received;
  }

  lemma Regroup(a: seq<Value>, b: seq<Value>, c: seq<Value>)
    ensures (a + b) + c == a + (b + c)
  {}

  /** The sends that wait inside, after one more action: a thread keeps the value it gave to Send until its
      send ends. */
  function StillWaiting(waiting: map<Thread, Value>, a: Action, e: Event): map<Thread, Value> {
    match a
    case Send(t, v, _) => if e.Waits? then waiting[t := v] else waiting - {t}
    case ResumeSend(t, _) => if e.Waits? then waiting else waiting - {t}
    case _ => waiting
  }

  /** The value that the thread of an action gave to Send. */
  function Given(waiting: map<Thread, Value>, a: Action): seq<Value> {
    match a
    case Send(_, v, _) => [v]
    case ResumeSend(t, _) => if t in waiting then [waiting[t]] else []
    case _ => []
  }

  /** The values that the accepted sends were given, in the order of their acceptance. Only the Send
      actions supply values here; an event just tells which sends ended. */
  function GivenAndAccepted(waiting: map<Thread, Value>, actions: seq<Action>, events: seq<Event>): seq<Value>
    requires |actions| == |events|
    decreases |actions|
  {
    if actions == [] then []
    else (if events[0].Accepted? then Given(waiting, actions[0]) else [])
         + GivenAndAccepted(StillWaiting(waiting, actions[0], events[0]), actions[1..], events[1..])
  }

  lemma StepKeepsOffers(c: Chan, a: Action)
    requires Good(c) && Enabled(c, a)
    ensures Step(c, a).0.offers == StillWaiting(c.offers, a, Step(c, a).1)
    ensures Step(c, a).1.Accepted? ==> Given(c.offers, a) == [Step(c, a).1.v]
  {
    hide Step, StepIsFine, IsAnswered;
    EveryStepIsFine(c, a);
    AnsweredKeepsOffers(c, a, Step(c, a));
  }

  lemma AnsweredKeepsOffers(c: Chan, a: Action, r: (Chan, Event))
    requires Shape(c) && Enabled(c, a) && IsAnswered(c, a, r)
    ensures r.0.offers == StillWaiting(c.offers, a, r.1)
    ensures r.1.Accepted? ==> Given(c.offers, a) == [r.1.v]
  {
    hide WellFormed, Window;
    match a
    case ResumeSend(t, _) => assert c.offers[t := c.offers[t]] == c.offers;
    case _ =>
  }

  /** Whatever happens between, an accepted value is the one that its sender gave. */
  lemma {:induction false} AcceptedIsGiven(c: Chan, actions: seq<Action>, events: seq<Event>, last: Chan)
    requires Good(c) && Run(c, actions, events, last)
    ensures |actions| == |events| && Sent(events) == GivenAndAccepted(c.offers, actions, events)
    decreases |actions|
  {
    if actions == [] {
    } else {
      var next := Step(c, actions[0]).0;
      EveryStepIsFine(c, actions[0]);
      StepKeepsOffers(c, actions[0]);
      hide Step, StepIsFine, IsAnswered;
      AcceptedIsGiven(next, actions[1..], events[1..], last);
    }
  }

  /** The value of the last Send of a thread, if there is one. */
  function LastSent(actions: seq<Action>, t: Thread): seq<Value> {
    if actions == [] then []
    else
      var a := actions[|actions| - 1];
      if a.Send? && a.t == t then [a.v] else LastSent(actions[..|actions| - 1], t)
  }

  predicate OffersAreLastSent(c: Chan, done: seq<Action>) {
    forall t | t in c.offers :: LastSent(done, t) == [c.offers[t]]
  }

  /** The same for one acceptance: after any number of waits the value is that of the last Send of the
      thread that sends. */
  lemma {:induction false} AcceptedIsLastSent(c: Chan, done: seq<Action>, actions: seq<Action>, events: seq<Event>, last: Chan, i: nat)
    requires Good(c) && Run(c, actions, events, last) && OffersAreLastSent(c, done)
    requires i < |events| && events[i].Accepted?
    ensures i < |actions| && IsLastSent(done + actions[..i + 1], events[i].v)
    decreases |actions|
  {
    hide StepIsFine, IsAnswered, Step, Good, Shape, Enabled, OffersAreLastSent, IsLastSent;
    var next := Step(c, actions[0]).0;
    GoodAfter(c, actions[0]);
    LastSentSteps(c, done, actions[0]);
    if i == 0 {
      assert done + actions[..1] == done + [actions[0]];
    } else {
      AcceptedIsLastSent(next, done + [actions[0]], actions[1..], events[1..], last, i - 1);
      assert done + [actions[0]] + actions[1..][..i] == done + actions[..i + 1];
    }
  }

  /** The last of these actions sends, and v is what its thread gave to its last Send. */
  predicate IsLastSent(actions: seq<Action>, v: Value) {
    && actions != []
    && (actions[|actions| - 1].Send? || actions[|actions| - 1].ResumeSend?)
    && LastSent(actions, actions[|actions| - 1].t) == [v]
  }

  lemma GoodAfter(c: Chan, a: Action)
    requires Good(c) && Enabled(c, a)
    ensures Good(Step(c, a).0)
  {
    EveryStepIsFine(c, a);
    hide Step, IsAnswered;
  }

  lemma LastSentGrows(done: seq<Action>, a: Action, t: Thread)
    ensures LastSent(done + [a], t) == if a.Send? && a.t == t then [a.v] else LastSent(done, t)
  {
    assert (done + [a])[..|done|] == done;
  }

  lemma LastSentSteps(c: Chan, done: seq<Action>, a: Action)
    requires Good(c) && Enabled(c, a) && OffersAreLastSent(c, done)
    ensures OffersAreLastSent(Step(c, a).0, done + [a])
    ensures Step(c, a).1.Accepted? ==> IsLastSent(done + [a], Step(c, a).1.v)
  {
    StepKeepsOffers(c, a);
    hide Step, StepIsFine, Good, LastSent;
    var next := Step(c, a).0;
    forall t | t in next.offers
      ensures LastSent(done + [a], t) == [next.offers[t]]
    {
      LastSentGrows(done, a, t);
    }
    if Step(c, a).1.Accepted? {
      LastSentGrows(done, a, a.t);
    }
  }

  lemma LastIsInOrder(c: Chan)
    requires Good(c)
    ensures Shape(c) && c.count <= |c.buffer| && c.tail == (c.head + c.count) % |c.buffer|
  {}

  /** First in, first out, over every interleaving from a new channel: what the accepted sends were given is
      what was delivered and then what the ring holds, in that order. */
  lemma ChannelIsFirstInFirstOut(capacity: nat, actions: seq<Action>, events: seq<Event>, last: Chan)
    requires capacity > 0 && Run(Init(capacity), actions, events, last)
    ensures Shape(last) && last.count <= capacity && last.tail == (last.head + last.count) % capacity
    ensures |actions| == |events|
    ensures GivenAndAccepted(map[], actions, events) == Received(events) + Held(last)
    ensures forall i | 0 <= i < |events| && events[i].Accepted? :: IsLastSent(actions[..i + 1], events[i].v)
  {
    hide Init, Run, Good, IsLastSent, LastSent;
    InitIsGood(capacity);
    RunIsFirstInFirstOut(Init(capacity), actions, events, last);
    AcceptedIsGiven(Init(capacity), actions, events, last);
    assert [] + Sent(events) == Sent(events);
    LastIsInOrder(last);
    assert OffersAreLastSent(Init(capacity), []);
    forall i | 0 <= i < |events| && events[i].Accepted?
      ensures IsLastSent(actions[..i + 1], events[i].v)
    {
      AcceptedIsLastSent(Init(capacity), [], actions, events, last, i);
      assert [] + actions[..i + 1] == actions[..i + 1];
    }
  }

  /** Nothing is accepted after close, and after a receiver got void every later receive gets void. */
  lemma {:induction false} ClosedIsFinal(c: Chan, actions: seq<Action>, events: seq<Event>, last: Chan, i: nat)
    requires Good(c) && Run(c, actions, events, last) && i < |events|
    ensures |events| == |actions|
    ensures c.closed ==> last.closed && !events[i].Accepted? && !events[i].Waits?
    ensures c.closed && c.count == 0 ==> last.count == 0 && !events[i].Delivered?
    ensures events[i].Drained? ==> last.closed && last.count == 0
    ensures events[i].Drained? ==> forall k | i <= k < |events| :: !events[k].Delivered? && !events[k].Accepted?
    decreases |actions|
  {
    hide IsAnswered, Step, Enabled, WellFormed, Wakeful;
    var next := Step(c, actions[0]).0;
    EveryStepIsFine(c, actions[0]);
    if i > 0 {
      ClosedIsFinal(next, actions[1..], events[1..], last, i - 1);
      assert events[i] == events[1..][i - 1];
      assert |Held(next)| == next.count && |Held(c)| == c.count;
      if events[i].Drained? {
        forall k | i <= k < |events|
          ensures !events[k].Delivered? && !events[k].Accepted?
        {
          assert events[k] == events[1..][k - 1];
        }
      }
    } else {
      ClosedIsFinalFromHere(c, actions, events, last);
    }
  }

  lemma ClosedIsFinalFromHere(c: Chan, actions: seq<Action>, events: seq<Event>, last: Chan)
    requires Good(c) && Run(c, actions, events, last) && events != []
    ensures |events| == |actions|
    ensures c.closed ==> last.closed && !events[0].Accepted? && !events[0].Waits?
    ensures c.closed && c.count == 0 ==> last.count == 0
    ensures c.closed && c.count == 0 ==> forall k | 0 <= k < |events| :: !events[k].Delivered? && !events[k].Accepted?
    decreases |actions|, 0
  {
    hide IsAnswered, Step, Enabled, WellFormed, Wakeful;
    var next := Step(c, actions[0]).0;
    EveryStepIsFine(c, actions[0]);
    assert |Held(next)| == next.count && |Held(c)| == c.count;
    if events[1..] != [] {
      ClosedIsFinalFromHere(next, actions[1..], events[1..], last);
      forall k | 0 < k < |events|
        ensures events[k] == events[1..][k - 1]
      {}
    } else {
      RunEnds(next, actions[1..], last);
    }
  }

  lemma RunEnds(c: Chan, actions: seq<Action>, last: Chan)
    requires Run(c, actions, [], last)
    ensures actions == [] && last == c
  {}

  /** Once somebody is inside and could go on, somebody is awake. */
  lemma NoLostWakeup(capacity: nat, actions: seq<Action>, events: seq<Event>, last: Chan)
    requires capacity > 0 && Run(Init(capacity), actions, events, last)
    ensures !last.closed && last.recvCond.asleep != {} ==> |last.recvCond.awake| >= last.count
    ensures !last.closed && last.sendCond.asleep != {} ==> |last.sendCond.awake| >= capacity - last.count
    ensures last.closed ==> last.sendCond.asleep == {} && last.recvCond.asleep == {}
  {
    InitIsGood(capacity);
    RunIsFirstInFirstOut(Init(capacity), actions, events, last);
  }

  /** The thread that runs next leaves the channel: it sends, receives, or is told of the close. */
  predicate Finishes(c: Chan, a: Action)
    requires Shape(c)
  {
    (a.ResumeSend? || a.ResumeRecv?) && Enabled(c, a) && !Step(c, a).1.Waits?
  }

  /** A ready value with a receiver inside, or a free slot with a sender inside, or a closed channel
      with anybody inside: some awakened thread of that kind finishes as soon as it runs. */
  lemma ReadyMeansProgress(capacity: nat, actions: seq<Action>, events: seq<Event>, last: Chan)
    requires capacity > 0 && Run(Init(capacity), actions, events, last)
    ensures Good(last)
    ensures last.recvCond.Threads() != {} && (last.count > 0 || last.closed)
            ==> (exists t :: t in last.recvCond.awake && Finishes(last, ResumeRecv(t, last.sendCond.asleep)))
    ensures last.sendCond.Threads() != {} && (last.count < capacity || last.closed)
            ==> (exists t :: t in last.sendCond.awake && Finishes(last, ResumeSend(t, last.recvCond.asleep)))
  {
    InitIsGood(capacity);
    RunIsFirstInFirstOut(Init(capacity), actions, events, last);
    hide Good, Run, Finishes, Cond.Threads;
    if last.recvCond.Threads() != {} && (last.count > 0 || last.closed) {
      var t := ReceiverFinishes(last);
    }
    if last.sendCond.Threads() != {} && (last.count < capacity || last.closed) {
      var t := SenderFinishes(last);
    }
  }

  lemma ReceiverFinishes(c: Chan) returns (t: Thread)
    requires Good(c) && c.recvCond.Threads() != {} && (c.count > 0 || c.closed)
    ensures t in c.recvCond.awake && Finishes(c, ResumeRecv(t, c.sendCond.asleep))
  {
    hide WellFormed, Apart, Cond.Leave, Cond.Wake;
    assert c.recvCond.awake != {};
    t :| t in c.recvCond.awake;
  }

  lemma SenderFinishes(c: Chan) returns (t: Thread)
    requires Good(c) && c.sendCond.Threads() != {} && (c.count < |c.buffer| || c.closed)
    ensures t in c.sendCond.awake && Finishes(c, ResumeSend(t, c.recvCond.asleep))
  {
    hide WellFormed, Apart, Cond.Leave, Cond.Wake;
    assert c.sendCond.awake != {};
    t :| t in c.sendCond.awake;
  }

  /** A sender and a receiver inside the same channel are never both stuck. */
  lemma NeverBothStuck(capacity: nat, actions: seq<Action>, events: seq<Event>, last: Chan)
    requires capacity > 0 && Run(Init(capacity), actions, events, last)
    requires last.recvCond.Threads() != {} && last.sendCond.Threads() != {}
    ensures Good(last) && exists a :: Finishes(last, a)
  {
    ReadyMeansProgress(capacity, actions, events, last);
    InitIsGood(capacity);
    RunIsFirstInFirstOut(Init(capacity), actions, events, last);
    if last.count > 0 {
      var t :| t in last.recvCond.awake && Finishes(last, ResumeRecv(t, last.sendCond.asleep));
    } else {
      var t :| t in last.sendCond.awake && Finishes(last, ResumeSend(t, last.recvCond.asleep));
    }
  }

  /** The channel object: each method is one pass through a critical section. */
  class Channel {
    const ring: RingBuffer
    var closed: bool
    var sendCond: Cond
    var recvCond: Cond
    var offers: map<Thread, Value>

    ghost function State(): Chan
      reads this, ring, ring.buffer
    {
      Chan(ring.buffer[..], ring.head, ring.tail, ring.count, closed, sendCond, recvCond, offers)
    }

    constructor (capacity: nat)
      requires capacity > 0
      ensures fresh(ring) && fresh(ring.buffer) && State() == Init(capacity)
    {
      ring := new RingBuffer(capacity);
      closed, sendCond, recvCond, offers := false, NOBODY, NOBODY, map[];
      new;
      assert ring.buffer[..] == Init(capacity).buffer;
    }

    /** OP_SEND, from the loop test to the wait or the unlock. */
    method SendPass(t: Thread, v: Value, woken: set<Thread>) returns (e: Event)
      requires Good(State()) && recvCond.Signals(woken)
      requires t !in sendCond.asleep && t !in recvCond.Threads()
      modifies this, ring, ring.buffer
      ensures (State(), e) == SendBody(old(State()), t, v, woken) && Good(State())
      ensures SendIsAnswered(old(State()), t, v, (State(), e))
    {
      hide Wakeful, Apart, Cond.Threads, Cond.Sleep, Cond.Leave, Cond.Wake, Window;
      SendIsFine(State(), t, v, woken);
      if ring.count == ring.buffer.Length && !closed {
        sendCond, offers := sendCond.Sleep(t), offers[t := v];
        return Waits;
      }
      sendCond, offers := sendCond.Leave(t), offers - {t};
      if closed {
        return Refused;
      }
      ring.Put(v);
      recvCond := recvCond.Wake(woken);
      return Accepted(v);
    }

    /** OP_RECV, from the loop test to the wait or the unlock. */
    method RecvPass(t: Thread, woken: set<Thread>) returns (e: Event)
      requires Good(State()) && sendCond.Signals(woken)
      requires t !in recvCond.asleep && t !in sendCond.Threads()
      modifies this, ring
      ensures (State(), e) == RecvBody(old(State()), t, woken) && Good(State())
      ensures RecvIsAnswered(old(State()), t, (State(), e))
    {
      hide Wakeful, Apart, Cond.Threads, Cond.Sleep, Cond.Leave, Cond.Wake, Window;
      RecvIsFine(State(), t, woken);
      if ring.count == 0 && !closed {
        recvCond := recvCond.Sleep(t);
        return Waits;
      }
      recvCond := recvCond.Leave(t);
      if ring.count == 0 {
        return Drained;
      }
      var v := ring.Take();
      sendCond := sendCond.Wake(woken);
      return Delivered(v);
    }

    /** native_close. */
    method CloseAll()
      requires Good(State())
      modifies this
      ensures State() == CloseBody(old(State())) && Good(State())
    {
      WakingIsFine(State(), sendCond.asleep, recvCond.asleep, true);
      closed, sendCond, recvCond := true, sendCond.Broadcast(), recvCond.Broadcast();
    }
  }
}
