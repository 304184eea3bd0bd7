/** Unbuffered channels: OP_SEND, OP_RECV and close() on a channel of capacity zero. */
module HandOff {
  import opened Values
  import opened Conditions

  /** Where a thread inside OP_SEND waits: for a receiver, or for its value to be taken. */
  datatype Phase = Offering(v: Value) | Handing

  /** The one value between a sender and a receiver: has_unbuffered_value and unbuffered_value. */
  datatype Slot = Free | Full(v: Value)

  datatype Chan = Chan(closed: bool, waiting: nat, slot: Slot, sendCond: Cond, recvCond: Cond, senders: map<Thread, Phase>)

  /** One pass through a critical section. A receiver that comes in and takes a value signals twice. */
  datatype Action =
    | Send(t: Thread, v: Value, woken: set<Thread>)
    | ResumeSend(t: Thread, woken: set<Thread>)
    | Recv(t: Thread, arrival: set<Thread>, woken: set<Thread>)
    | ResumeRecv(t: Thread, woken: set<Thread>)
    | Close
    | Spurious(t: Thread)

  datatype Event = Placed(v: Value) | Refused | Returned | Taken(v: Value) | GotVoid | Waits | Quiet

  function Init(): Chan {
    Chan(false, 0, Free, NOBODY, NOBODY, map[])
  }

  predicate Outside(c: Chan, t: Thread) {
    t !in c.sendCond.Threads() && t !in c.recvCond.Threads()
  }

  predicate Enabled(c: Chan, a: Action) {
    match a
    case Send(t, _, woken) => Outside(c, t) && c.recvCond.Signals(woken)
    case ResumeSend(t, woken) => t in c.sendCond.awake && c.recvCond.Signals(woken)
    case Recv(t, arrival, woken) =>
      Outside(c, t) && c.sendCond.Signals(arrival) && c.sendCond.Wake(arrival).Signals(woken)
    case ResumeRecv(t, woken) => t in c.recvCond.awake && c.sendCond.Signals(woken)
    case Close => true
    case Spurious(t) => t in c.sendCond.asleep || t in c.recvCond.asleep
  }

  /** The loop test of the wait a sender is in. */
  predicate MustWait(c: Chan, phase: Phase) {
    !c.closed && match phase
    case Offering(_) => c.waiting == 0 || c.slot.Full?
    case Handing => c.slot.Full?
  }

  /** OP_SEND under the mutex, from the loop test of a wait on. */
  function SendBody(c: Chan, t: Thread, phase: Phase, woken: set<Thread>): (Chan, Event) {
    if MustWait(c, phase) then
      (c.(sendCond := c.sendCond.Sleep(t), senders := c.senders[t := phase]), Waits)
    else if phase.Offering? && !c.closed then
      // the value is now in the slot, so the second wait is entered at once
      (c.(slot := Full(phase.v), recvCond := c.recvCond.Wake(woken),
          sendCond := c.sendCond.Sleep(t), senders := c.senders[t := Handing]), Placed(phase.v))
    else
      (c.(sendCond := c.sendCond.Leave(t), senders := c.senders - {t}),
       if phase.Offering? then Refused else Returned)
  }

  /** A receiver comes in: it counts itself and signals. */
  function Arrive(c: Chan, arrival: set<Thread>): Chan {
    c.(waiting := c.waiting + 1, sendCond := c.sendCond.Wake(arrival))
  }

  /** OP_RECV under the mutex, from the loop test on. */
  function RecvBody(c: Chan, t: Thread, woken: set<Thread>): (Chan, Event)
    requires c.waiting > 0
  {
    if c.slot.Free? && !c.closed then
      (c.(recvCond := c.recvCond.Sleep(t)), Waits)
    else
      var left := c.(waiting := c.waiting - 1, recvCond := c.recvCond.Leave(t));
      if c.slot.Free? then (left, GotVoid)
      else (left.(slot := Free, sendCond := c.sendCond.Wake(woken)), Taken(c.slot.v))
  }

  function CloseBody(c: Chan): Chan {
    c.(closed := true, sendCond := c.sendCond.Broadcast(), recvCond := c.recvCond.Broadcast())
  }

  predicate Shape(c: Chan) {
    Apart(c.sendCond, c.recvCond) && c.senders.Keys == c.sendCond.Threads() && c.waiting == |c.recvCond.Threads()|
  }

  lemma ReceiverCounts(c: Chan, t: Thread)
    requires Shape(c) && t in c.recvCond.awake
    ensures c.waiting > 0
  {
    assert t in c.recvCond.Threads();
  }

  function Step(c: Chan, a: Action): (Chan, Event)
    requires Shape(c) && Enabled(c, a)
  {
    match a
    case Send(t, v, woken) => SendBody(c, t, Offering(v), woken)
    case ResumeSend(t, woken) => SendBody(c, t, c.senders[t], woken)
    case Recv(t, arrival, woken) => RecvBody(Arrive(c, arrival), t, woken)
    case ResumeRecv(t, woken) => ReceiverCounts(c, t); RecvBody(c, t, woken)
    case Close => (CloseBody(c), Quiet)
    case Spurious(t) =>
      if t in c.sendCond.asleep then (c.(sendCond := c.sendCond.Wake({t})), Quiet)
      else (c.(recvCond := c.recvCond.Wake({t})), Quiet)
  }

  /** A value in the slot has an awakened receiver to take it, and a closed channel puts nobody to sleep. */
  predicate Attended(c: Chan) {
    && (c.slot.Full? ==> c.recvCond.awake != {})
    && (c.closed ==> c.sendCond.asleep == {} && c.recvCond.asleep == {})
  }

  predicate Good(c: Chan) {
    Shape(c) && Attended(c)
  }

  /** The slot as a queue of at most one value. */
  function Flight(c: Chan): (r: seq<Value>)
    ensures |r| <= 1
  {
    if c.slot.Full? then [c.slot.v] else []
  }

  function Moved(flight: seq<Value>, e: Event): seq<Value> {
    match e
    case Placed(v) => flight + [v]
    case Taken(v) => if flight == [] then [] else flight[1..]
    case _ => flight
  }

  /** What each event says about the channel it happened on. */
  predicate Explains(c: Chan, e: Event) {
    match e
    case Placed(_) => !c.closed && Flight(c) == [] && c.waiting > 0
    case Refused => c.closed
    case Returned => c.closed || Flight(c) == []
    case Taken(v) => Flight(c) == [v]
    case GotVoid => c.closed && Flight(c) == []
    case Waits => !c.closed
    case Quiet => true
  }

  predicate StepIsFine(c: Chan, r: (Chan, Event)) {
    && Good(r.0)
    && (c.closed ==> r.0.closed)
    && Explains(c, r.1) && Flight(r.0) == Moved(Flight(c), r.1)
  }

  /** What became of a sender: its value lies in the slot and it waits for it to be taken, it was refused,
      it returned with its value taken, or it waits with its loop test true. */
  predicate SendIsAnswered(c: Chan, t: Thread, phase: Phase, r: (Chan, Event)) {
    && r.0.closed == c.closed && r.0.recvCond.Threads() == c.recvCond.Threads() && r.0.waiting == c.waiting
    && match r.1
       case Placed(v) =>
         phase == Offering(v) && !c.closed && c.waiting > 0 && Flight(c) == [] && SenderStays(c, t, Handing, r.0)
       case Refused => phase.Offering? && c.closed && SenderLeft(c, t, r.0)
       case Returned => phase.Handing? && (c.closed || Flight(c) == []) && SenderLeft(c, t, r.0)
       case Waits =>
         && !c.closed && (Flight(c) != [] || (phase.Offering? && c.waiting == 0))
         && SenderStays(c, t, phase, r.0)
       case _ => false
  }

  predicate SenderStays(c: Chan, t: Thread, phase: Phase, next: Chan) {
    && next.senders == c.senders[t := phase]
    && t in next.sendCond.asleep && next.sendCond.Threads() == c.sendCond.Threads() + {t}
  }

  predicate SenderLeft(c: Chan, t: Thread, next: Chan) {
    next.senders == c.senders - {t} && next.sendCond.Threads() == c.sendCond.Threads() - {t}
  }

  /** What became of a receiver that has been counted: it left with the value of the slot, it left with void
      from a closed channel, or it waits inside. */
  predicate RecvIsAnswered(c: Chan, t: Thread, r: (Chan, Event)) {
    && r.0.closed == c.closed && r.0.senders == c.senders && r.0.sendCond.Threads() == c.sendCond.Threads()
    && match r.1
       case Taken(v) => Flight(c) == [v] && r.0.recvCond.Threads() == c.recvCond.Threads() - {t}
       case GotVoid => c.closed && Flight(c) == [] && r.0.recvCond.Threads() == c.recvCond.Threads() - {t}
       case Waits =>
         && !c.closed && Flight(c) == []
         && t in r.0.recvCond.asleep && r.0.recvCond.Threads() == c.recvCond.Threads() + {t}
       case _ => false
  }

  predicate NobodyMoved(c: Chan, r: (Chan, Event)) {
    && r.1 == Quiet && r.0.senders == c.senders
    && r.0.sendCond.Threads() == c.sendCond.Threads() && r.0.recvCond.Threads() == c.recvCond.Threads()
  }

  /** The answer that the thread of an action gets. */
  predicate IsAnswered(c: Chan, a: Action, r: (Chan, Event))
    requires Shape(c) && Enabled(c, a)
  {
    match a
    case Send(t, v, _) => SendIsAnswered(c, t, Offering(v), r)
    case ResumeSend(t, _) => SendIsAnswered(c, t, c.senders[t], r)
    case Recv(t, arrival, _) => RecvIsAnswered(Arrive(c, arrival), t, r) && r.0.sendCond.Threads() == c.sendCond.Threads()
    case ResumeRecv(t, _) => RecvIsAnswered(c, t, r)
    case Close => NobodyMoved(c, r) && r.0.closed
    case Spurious(_) => NobodyMoved(c, r) && r.0.closed == c.closed
  }

  lemma SendIsFine(c: Chan, t: Thread, phase: Phase, woken: set<Thread>)
    requires Good(c) && c.recvCond.Signals(woken)
    requires t !in c.sendCond.asleep && t !in c.recvCond.Threads()
    ensures StepIsFine(c, SendBody(c, t, phase, woken))
    ensures SendIsAnswered(c, t, phase, SendBody(c, t, phase, woken))
  {
    hide Apart, Cond.Threads, Cond.Sleep, Cond.Leave, Cond.Wake;
    if MustWait(c, phase) {
      SleepKeeps(c.sendCond, c.recvCond, t);
      AddKey(c.senders, t, phase);
      SleepSleeps(c, t);
    } else if phase.Offering? && !c.closed {
      PlaceIsFine(c, t, phase.v, woken);
    } else {
      LeaveKeeps(c.sendCond, c.recvCond, t);
      assert (c.senders - {t}).Keys == c.senders.Keys - {t};
    }
  }

  lemma AddKey(m: map<Thread, Phase>, t: Thread, phase: Phase)
    ensures m[t := phase].Keys == m.Keys + {t}
  {}

  lemma SleepSleeps(c: Chan, t: Thread)
    ensures !c.closed ==> Attended(c) ==> Attended(c.(sendCond := c.sendCond.Sleep(t)))
  {}

  lemma PlaceIsFine(c: Chan, t: Thread, v: Value, woken: set<Thread>)
    requires Good(c) && c.recvCond.Signals(woken)
    requires t !in c.sendCond.asleep && t !in c.recvCond.Threads()
    requires !MustWait(c, Offering(v)) && !c.closed
    ensures StepIsFine(c, SendBody(c, t, Offering(v), woken))
    ensures SendIsAnswered(c, t, Offering(v), SendBody(c, t, Offering(v), woken))
  {
    hide Apart, Cond.Sleep, Cond.Leave, Cond.Wake;
    SleepKeeps(c.sendCond, c.recvCond, t);
    AddKey(c.senders, t, Handing);
    ApartBothWays(c.sendCond.Sleep(t), c.recvCond);
    WakeKeeps(c.recvCond, c.sendCond.Sleep(t), woken);
    ApartBothWays(c.recvCond.Wake(woken), c.sendCond.Sleep(t));
    SomebodyIsAwake(c.recvCond, woken);
  }

  /** A signal on a condition with a thread in it leaves one awake. */
  lemma SomebodyIsAwake(c: Cond, woken: set<Thread>)
    requires c.Signals(woken) && c.Threads() != {}
    ensures c.Wake(woken).awake != {}
  {
    if c.asleep != {} {
      var t :| t in woken;
      assert t in c.Wake(woken).awake;
    } else {
      var t :| t in c.awake;
      assert t in c.Wake(woken).awake;
    }
  }

  /** The receiver of a pass: counted, and either new or awakened. */
  predicate Counted(c: Chan, t: Thread) {
    && Apart(c.sendCond, c.recvCond) && c.senders.Keys == c.sendCond.Threads()
    && t !in c.recvCond.asleep && t !in c.sendCond.Threads()
    && c.waiting == |c.recvCond.Threads() + {t}|
    && (c.closed ==> c.sendCond.asleep == {} && c.recvCond.asleep == {})
  }

  lemma CountedIsPositive(c: Chan, t: Thread)
    requires Counted(c, t)
    ensures c.waiting > 0 && c.waiting - 1 == |c.recvCond.Threads() - {t}|
  {
    assert t in c.recvCond.Threads() + {t};
    assert c.recvCond.Threads() + {t} - {t} == c.recvCond.Threads() - {t};
  }

  lemma RecvIsFine(c: Chan, t: Thread, woken: set<Thread>)
    requires Counted(c, t) && c.sendCond.Signals(woken)
    ensures c.waiting > 0 && StepIsFine(c, RecvBody(c, t, woken)) && RecvIsAnswered(c, t, RecvBody(c, t, woken))
  {
    hide Good, Apart, Counted, Cond.Threads, Cond.Sleep, Cond.Leave, Cond.Wake, Cond.Signals;
    CountedIsPositive(c, t);
    if c.slot.Free? && !c.closed {
      ReceiverSleeps(c, t);
    } else {
      ReceiverLeaves(c, t, woken);
    }
  }

  lemma ReceiverSleeps(c: Chan, t: Thread)
    requires Counted(c, t) && c.slot.Free? && !c.closed
    ensures Good(c.(recvCond := c.recvCond.Sleep(t)))
    ensures c.recvCond.Sleep(t).Threads() == c.recvCond.Threads() + {t} && t in c.recvCond.Sleep(t).asleep
  {
    hide Apart, Cond.Threads, Cond.Sleep;
    ApartBothWays(c.sendCond, c.recvCond);
    SleepKeeps(c.recvCond, c.sendCond, t);
    ApartBothWays(c.recvCond.Sleep(t), c.sendCond);
  }

  lemma ReceiverLeaves(c: Chan, t: Thread, woken: set<Thread>)
    requires Counted(c, t) && c.sendCond.Signals(woken) && c.waiting > 0
    ensures c.slot.Free? && c.closed ==> Good(c.(waiting := c.waiting - 1, recvCond := c.recvCond.Leave(t)))
    ensures Good(c.(waiting := c.waiting - 1, recvCond := c.recvCond.Leave(t), slot := Free, sendCond := c.sendCond.Wake(woken)))
    ensures c.recvCond.Leave(t).Threads() == c.recvCond.Threads() - {t}
    ensures c.sendCond.Wake(woken).Threads() == c.sendCond.Threads()
  {
    CountedIsPositive(c, t);
    hide Apart, Cond.Threads, Cond.Leave, Cond.Wake;
    ApartBothWays(c.sendCond, c.recvCond);
    LeaveKeeps(c.recvCond, c.sendCond, t);
    ApartBothWays(c.recvCond.Leave(t), c.sendCond);
    WakeKeeps(c.sendCond, c.recvCond.Leave(t), woken);
  }

  lemma NewReceiverIsCounted(c: Chan, t: Thread, arrival: set<Thread>)
    requires Good(c) && Outside(c, t) && c.sendCond.Signals(arrival)
    ensures Counted(Arrive(c, arrival), t) && Arrive(c, arrival).sendCond.Threads() == c.sendCond.Threads()
  {
    hide Apart, Cond.Threads, Cond.Wake;
    WakeKeeps(c.sendCond, c.recvCond, arrival);
    assert t !in c.recvCond.asleep by {
      assert c.recvCond.Threads() >= c.recvCond.asleep by {
        AsleepIsInside(c.recvCond);
      }
    }
    assert t !in c.recvCond.Threads();
  }

  lemma AsleepIsInside(c: Cond)
    ensures c.asleep <= c.Threads() && c.awake <= c.Threads()
  {}

  lemma AwakeReceiverIsCounted(c: Chan, t: Thread)
    requires Good(c) && t in c.recvCond.awake
    ensures Counted(c, t)
  {
    assert c.recvCond.Threads() + {t} == c.recvCond.Threads();
  }

  lemma WakingIsFine(c: Chan, senders: set<Thread>, receivers: set<Thread>, closed: bool)
    requires Good(c) && senders <= c.sendCond.asleep && receivers <= c.recvCond.asleep
    requires closed ==> senders == c.sendCond.asleep && receivers == c.recvCond.asleep
    requires c.closed ==> closed
    ensures StepIsFine(c, (c.(closed := closed, sendCond := c.sendCond.Wake(senders),
                              recvCond := c.recvCond.Wake(receivers)), Quiet))
    ensures c.sendCond.Wake(senders).Threads() == c.sendCond.Threads()
    ensures c.recvCond.Wake(receivers).Threads() == c.recvCond.Threads()
  {
    hide Apart, Cond.Threads;
    WakeKeeps(c.sendCond, c.recvCond, senders);
    ApartBothWays(c.sendCond.Wake(senders), c.recvCond);
    WakeKeeps(c.recvCond, c.sendCond.Wake(senders), receivers);
    ApartBothWays(c.recvCond.Wake(receivers), c.sendCond.Wake(senders));
  }

  /** Every step keeps the receivers counted and awake for the slot, moves the slot as its event says, and
      answers the thread that acts: a sender places the value it offers. */
  lemma EveryStepIsFine(c: Chan, a: Action)
    requires Good(c) && Enabled(c, a)
    ensures match a
            case Recv(t, arrival, woken) => StepIsFine(Arrive(c, arrival), Step(c, a)) && Arrive(c, arrival).slot == c.slot
            case _ => StepIsFine(c, Step(c, a))
    ensures IsAnswered(c, a, Step(c, a))
  {
    hide StepIsFine, SendBody, RecvBody, CloseBody, Attended, SendIsAnswered, NobodyMoved;
    match a
    case Send(t, v, woken) => SendIsFine(c, t, Offering(v), woken);
    case ResumeSend(t, woken) => SendIsFine(c, t, c.senders[t], woken);
    case Recv(t, arrival, woken) =>
      NewReceiverIsCounted(c, t, arrival);
      RecvIsFine(Arrive(c, arrival), t, woken);
    case ResumeRecv(t, woken) =>
      AwakeReceiverIsCounted(c, t);
      RecvIsFine(c, t, woken);
    case Close => CloseIsFine(c);
    case Spurious(t) => SpuriousIsFine(c, t);
  }

  lemma CloseIsFine(c: Chan)
    requires Good(c)
    ensures StepIsFine(c, (CloseBody(c), Quiet)) && NobodyMoved(c, (CloseBody(c), Quiet)) && CloseBody(c).closed
  {
    hide StepIsFine, Apart, Cond.Threads;
    WakingIsFine(c, c.sendCond.asleep, c.recvCond.asleep, true);
  }

  lemma SpuriousIsFine(c: Chan, t: Thread)
    requires Good(c) && Enabled(c, Spurious(t))
    ensures StepIsFine(c, Step(c, Spurious(t))) && NobodyMoved(c, Step(c, Spurious(t)))
    ensures Step(c, Spurious(t)).0.closed == c.closed
  {
    hide StepIsFine, Apart, Cond.Threads;
    WakeNobody(c.sendCond);
    WakeNobody(c.recvCond);
    if t in c.sendCond.asleep {
      WakingIsFine(c, {t}, {}, c.closed);
    } else {
      WakingIsFine(c, {}, {t}, c.closed);
    }
  }

  /** A run: each action was possible when it was taken. (Shape only makes Step meaningful; it always holds.) */
  ghost predicate Run(c: Chan, actions: seq<Action>, events: seq<Event>, last: Chan)
    decreases |actions|
  {
    if actions == [] then events == [] && last == c
    else Shape(c) && Enabled(c, actions[0]) && events != [] && events[0] == Step(c, actions[0]).1
         && Run(Step(c, actions[0]).0, actions[1..], events[1..], last)
  }

  function AllPlaced(events: seq<Event>): seq<Value> {
    if events == [] then []
    else (if events[0].Placed? then [events[0].v] else []) + AllPlaced(events[1..])
  }

  function AllTaken(events: seq<Event>): seq<Value> {
    if events == [] then []
    else (if events[0].Taken? then [events[0].v] else []) + AllTaken(events[1..])
  }

  lemma InitIsGood()
    ensures Good(Init()) && Flight(Init()) == [] && Offers(Init().senders) == map[]
  {}

  lemma {:induction false} RunHandsOver(c: Chan, actions: seq<Action>, events: seq<Event>, last: Chan)
    requires Good(c) && Run(c, actions, events, last)
    ensures Good(last)
    ensures Flight(c) + AllPlaced(events) == AllTaken(events) + Flight(last)
    decreases |actions|
  {
    hide IsAnswered;
    if actions == [] {
    } else {
      var next := Step(c, actions[0]).0;
      EveryStepIsFine(c, actions[0]);
      RunHandsOver(next, actions[1..], events[1..], last);
      OneMove(Flight(c), events[0], AllPlaced(events[1..]), AllTaken(events[1..]), Flight(last));
    }
  }

  lemma OneMove(flight: seq<Value>, e: Event, placed: seq<Value>, taken: seq<Value>, last: seq<Value>)
    requires Moved(flight, e) + placed == taken + last
    requires e.Taken? ==> flight == [e.v]
    ensures flight + ((if e.Placed? then [e.v] else []) + placed)
            == ((if e.Taken? then [e.v] else []) + taken) + last
  {
    if e.Placed? {
      Regroup(flight, [e.v], placed);
    } else if e.Taken? {
      Regroup([e.v], taken, last);
      assert flight[1..] == [];
    }
    assert [] + placed == placed && [] + taken == taken;
  }

  lemma Regroup(a: seq<Value>, b: seq<Value>, c: seq<Value>)
    ensures (a + b) + c == a + (b + c)
  {}

  /** The sends that still wait for a receiver, after one more action: a thread keeps the value it gave to
      Send until it places it or is refused. */
  function StillOffering(waiting: map<Thread, Value>, a: Action, e: Event): map<Thread, Value> {
    match a
    case Send(t, v, _) => if e.Waits? then waiting[t := v] else waiting - {t}
    case ResumeSend(t, _) => if e.Waits? then waiting else waiting - {t}
    case _ => waiting
  }

  /** The value that the thread of an action gave to Send. */
  function Given(waiting: map<Thread, Value>, a: Action): seq<Value> {
    match a
    case Send(_, v, _) => [v]
    case ResumeSend(t, _) => if t in waiting then [waiting[t]] else []
    case _ => []
  }

  /** The values that the sends which found a receiver were given, in the order in which they found it. Only
      the Send actions supply values here. */
  function GivenAndPlaced(waiting: map<Thread, Value>, actions: seq<Action>, events: seq<Event>): seq<Value>
    requires |actions| == |events|
    decreases |actions|
  {
    if actions == [] then []
    else (if events[0].Placed? then Given(waiting, actions[0]) else [])
         + GivenAndPlaced(StillOffering(waiting, actions[0], events[0]), actions[1..], events[1..])
  }

  function Offers(senders: map<Thread, Phase>): map<Thread, Value> {
    map t | t in senders && senders[t].Offering? :: senders[t].v
  }

  lemma StepKeepsOffers(c: Chan, a: Action)
    requires Good(c) && Enabled(c, a)
    ensures Offers(Step(c, a).0.senders) == StillOffering(Offers(c.senders), a, Step(c, a).1)
    ensures Step(c, a).1.Placed? ==> Given(Offers(c.senders), a) == [Step(c, a).1.v]
  {
    hide Step, StepIsFine, IsAnswered;
    EveryStepIsFine(c, a);
    AnsweredKeepsOffers(c, a, Step(c, a));
  }

  lemma OffersOf(senders: map<Thread, Phase>, t: Thread, v: Value)
    ensures Offers(senders[t := Offering(v)]) == Offers(senders)[t := v]
    ensures Offers(senders[t := Handing]) == Offers(senders) - {t}
    ensures Offers(senders - {t}) == Offers(senders) - {t}
    ensures t in senders ==> senders[t := senders[t]] == senders
  {}

  lemma AnsweredKeepsOffers(c: Chan, a: Action, r: (Chan, Event))
    requires Shape(c) && Enabled(c, a) && IsAnswered(c, a, r)
    ensures Offers(r.0.senders) == StillOffering(Offers(c.senders), a, r.1)
    ensures r.1.Placed? ==> Given(Offers(c.senders), a) == [r.1.v]
  {
    hide Offers, Flight, Apart, Cond.Signals;
    match a
    case Send(t, v, _) => OffersOf(c.senders, t, v);
    case ResumeSend(t, _) => ResumeKeepsOffers(c, t, r);
    case _ =>
  }

  lemma ResumeKeepsOffers(c: Chan, t: Thread, r: (Chan, Event))
    requires t in c.senders && SendIsAnswered(c, t, c.senders[t], r)
    ensures Offers(r.0.senders) == if r.1.Waits? then Offers(c.senders) else Offers(c.senders) - {t}
    ensures r.1.Placed? ==> t in Offers(c.senders) && Offers(c.senders)[t] == r.1.v
  {
    hide Flight, Cond.Threads;
    OffersOf(c.senders, t, VVoid);
  }

  lemma GoodAfter(c: Chan, a: Action)
    requires Good(c) && Enabled(c, a)
    ensures Good(Step(c, a).0)
  {
    hide Step, IsAnswered;
    EveryStepIsFine(c, a);
  }

  /** Whatever happens between, a placed value is the one that its sender gave. */
  lemma {:induction false} PlacedIsGiven(c: Chan, actions: seq<Action>, events: seq<Event>, last: Chan)
    requires Good(c) && Run(c, actions, events, last)
    ensures |actions| == |events| && AllPlaced(events) == GivenAndPlaced(Offers(c.senders), actions, events)
    decreases |actions|
  {
    hide Step, Good, Shape, Enabled, Offers;
    if actions == [] {
    } else {
      GoodAfter(c, actions[0]);
      StepKeepsOffers(c, actions[0]);
      PlacedIsGiven(Step(c, actions[0]).0, actions[1..], events[1..], last);
    }
  }

  /** Exactly once and in order: what the placed sends were given is what was taken, then at most one value in flight,
      and that one has a counted receiver awake to take it, closed or not. */
  lemma HandOffIsExactlyOnce(actions: seq<Action>, events: seq<Event>, last: Chan)
    requires Run(Init(), actions, events, last)
    ensures |actions| == |events|
    ensures GivenAndPlaced(map[], actions, events) == AllTaken(events) + Flight(last) && |Flight(last)| <= 1
    ensures Shape(last) && (last.slot.Full? ==> last.waiting >= 1)
    ensures last.slot.Full? ==> exists t :: TakesNext(last, t)
    ensures last.closed ==> last.sendCond.asleep == {} && last.recvCond.asleep == {}
  {
    hide Init, Run, Shape, TakesNext, Step, GivenAndPlaced, AllPlaced, AllTaken, Flight;
    PlacedIsTaken(actions, events, last);
    InitIsGood();
    PlacedIsGiven(Init(), actions, events, last);
    if last.slot.Full? {
      var t := SomebodyTakes(last);
    }
  }

  lemma PlacedIsTaken(actions: seq<Action>, events: seq<Event>, last: Chan)
    requires Run(Init(), actions, events, last)
    ensures Good(last) && AllPlaced(events) == AllTaken(events) + Flight(last)
  {
    hide Init, Run;
    InitIsGood();
    RunHandsOver(Init(), actions, events, last);
    assert [] + AllPlaced(events) == AllPlaced(events);
  }

  lemma SomebodyTakes(c: Chan) returns (t: Thread)
    requires Good(c) && c.slot.Full?
    ensures c.waiting >= 1 && TakesNext(c, t)
  {
    t :| t in c.recvCond.awake;
    ReceiverCounts(c, t);
  }

  /** Receiver t, when it runs next, leaves with the value in the slot. */
  predicate TakesNext(c: Chan, t: Thread)
    requires Shape(c)
  {
    c.slot.Full? && t in c.recvCond.awake && Step(c, ResumeRecv(t, c.sendCond.asleep)).1 == Taken(c.slot.v)
  }

  /** A send that returns on an open channel has been received: nothing is left in flight. */
  lemma ReturnedMeansReceived(actions: seq<Action>, events: seq<Event>, last: Chan, a: Action)
    requires Run(Init(), actions, events, last) && Shape(last) && Enabled(last, a)
    requires Step(last, a).1.Returned? && !last.closed
    ensures |actions| == |events| && GivenAndPlaced(map[], actions, events) == AllTaken(events)
  {
    HandOffIsExactlyOnce(actions, events, last);
    PlacedIsTaken(actions, events, last);
    EveryStepIsFine(last, a);
    hide Run, Step, GivenAndPlaced, AllTaken;
  }

  // ----- senders asleep --------------------------------------------------------------------------

  /** No sender sleeps with its loop test false and nobody about to wake it. */
  predicate NoneStranded(c: Chan) {
    forall t | t in c.sendCond.asleep && t in c.senders :: MustWait(c, c.senders[t])
  }

  /** At no point of the run are there more than k threads inside OP_SEND. */
  ghost predicate AtMost(k: nat, c: Chan, actions: seq<Action>)
    decreases |actions|
  {
    |c.senders| <= k
    && (actions == [] || (Shape(c) && Enabled(c, actions[0]) && AtMost(k, Step(c, actions[0]).0, actions[1..])))
  }

  lemma OnlyOne(c: Chan, t: Thread, u: Thread)
    requires |c.senders| <= 1 && t in c.senders && u in c.senders
    ensures t == u
  {
    var rest := c.senders.Keys - {t};
    assert |rest| == |c.senders.Keys| - 1;
    assert u !in rest;
  }

  /** With one sender, a signal on send_cond leaves nobody asleep. */
  lemma SignalWakesTheOne(c: Chan, woken: set<Thread>)
    requires Shape(c) && |c.senders| <= 1 && c.sendCond.Signals(woken)
    ensures c.sendCond.Wake(woken).asleep == {}
  {
    if c.sendCond.asleep != {} {
      var t :| t in woken;
      forall u | u in c.sendCond.asleep
        ensures u == t
      {
        OnlyOne(c, t, u);
      }
    }
  }

  lemma SendStrandsNobody(c: Chan, t: Thread, phase: Phase, woken: set<Thread>)
    requires Good(c) && |c.senders| <= 1 && NoneStranded(c)
    requires t !in c.sendCond.asleep && t !in c.recvCond.Threads()
    requires |SendBody(c, t, phase, woken).0.senders| <= 1
    ensures NoneStranded(SendBody(c, t, phase, woken).0)
  {
    var r := SendBody(c, t, phase, woken).0;
    forall u | u in r.sendCond.asleep && u in r.senders
      ensures MustWait(r, r.senders[u])
    {
      if t in r.senders {
        OnlyOne(r, t, u);
      }
    }
  }

  lemma RecvStrandsNobody(c: Chan, t: Thread, woken: set<Thread>)
    requires Apart(c.sendCond, c.recvCond) && c.senders.Keys == c.sendCond.Threads() && c.waiting > 0
    requires |c.senders| <= 1 && NoneStranded(c) && c.sendCond.Signals(woken)
    ensures NoneStranded(RecvBody(c, t, woken).0)
  {
    if c.slot.Full? && c.sendCond.asleep != {} {
      var u :| u in woken;
      forall x | x in c.sendCond.asleep
        ensures x == u
      {
        OnlyOne(c, u, x);
      }
    }
  }

  lemma OneSenderStep(c: Chan, a: Action)
    requires Good(c) && Enabled(c, a) && |c.senders| <= 1 && NoneStranded(c)
    requires |Step(c, a).0.senders| <= 1
    ensures NoneStranded(Step(c, a).0)
  {
    match a
    case Send(t, v, woken) => SendStrandsNobody(c, t, Offering(v), woken);
    case ResumeSend(t, woken) => SendStrandsNobody(c, t, c.senders[t], woken);
    case Recv(t, arrival, woken) =>
      SignalWakesTheOne(c, arrival);
      NewReceiverIsCounted(c, t, arrival);
      RecvStrandsNobody(Arrive(c, arrival), t, woken);
    case ResumeRecv(t, woken) =>
      ReceiverCounts(c, t);
      RecvStrandsNobody(c, t, woken);
    case Close =>
    case Spurious(t) =>
  }

  lemma {:induction false} OneSenderIsNeverStranded(c: Chan, actions: seq<Action>, events: seq<Event>, last: Chan)
    requires Good(c) && Run(c, actions, events, last) && AtMost(1, c, actions) && NoneStranded(c)
    ensures NoneStranded(last)
    decreases |actions|
  {
    hide IsAnswered;
    if actions == [] {
    } else {
      EveryStepIsFine(c, actions[0]);
      OneSenderStep(c, actions[0]);
      OneSenderIsNeverStranded(Step(c, actions[0]).0, actions[1..], events[1..], last);
    }
  }

  /** Runs with at most k senders at a time never strand one. */
  ghost predicate SendersAreSafe(k: nat) {
    forall actions, events, last ::
      Run(Init(), actions, events, last) && AtMost(k, Init(), actions) ==> NoneStranded(last)
  }

  // Two senders and a receiver: 2 receives, 0 places and waits, 1 waits for a receiver, 2 takes and
  // its one signal goes to sender 1, which has nobody to send to; sender 0 sleeps on although its
  // value was received.
  const LOST := [Recv(2, {}, {}), Send(0, VInt(7), {2}), Send(1, VInt(8), {}), ResumeRecv(2, {1}), ResumeSend(1, {})]

  const LOST_EVENTS := [Waits, Placed(VInt(7)), Waits, Taken(VInt(7)), Waits]

  function Lost(i: nat): Chan
    requires i <= 5
  {
    match i
    case 0 => Init()
    case 1 => Chan(false, 1, Free, NOBODY, Cond({2}, {}), map[])
    case 2 => Chan(false, 1, Full(VInt(7)), Cond({0}, {}), Cond({}, {2}), map[0 := Handing])
    case 3 => Chan(false, 1, Full(VInt(7)), Cond({0, 1}, {}), Cond({}, {2}), map[0 := Handing, 1 := Offering(VInt(8))])
    case 4 => Chan(false, 0, Free, Cond({0}, {1}), NOBODY, map[0 := Handing, 1 := Offering(VInt(8))])
    case 5 => Chan(false, 0, Free, Cond({0, 1}, {}), NOBODY, map[0 := Handing, 1 := Offering(VInt(8))])
  }

  ghost predicate Leads(c: Chan, a: Action, e: Event, next: Chan) {
    Shape(c) && Enabled(c, a) && Step(c, a) == (next, e)
  }

  lemma Lost0()
    ensures Leads(Lost(0), Recv(2, {}, {}), Waits, Lost(1))
  {
    assert Step(Lost(0), Recv(2, {}, {})).0.recvCond.asleep == {2};
  }

  lemma Lost1()
    ensures Leads(Lost(1), Send(0, VInt(7), {2}), Placed(VInt(7)), Lost(2))
  {
    var r := Step(Lost(1), Send(0, VInt(7), {2})).0;
    assert r.recvCond.asleep == {} && r.recvCond.awake == {2};
    assert r.sendCond.asleep == {0} && r.sendCond.awake == {};
  }

  lemma Lost2()
    ensures Leads(Lost(2), Send(1, VInt(8), {}), Waits, Lost(3))
  {
    var r := Step(Lost(2), Send(1, VInt(8), {})).0;
    assert r.sendCond.asleep == {0, 1} && r.sendCond.awake == {};
  }

  lemma Lost3()
    ensures Leads(Lost(3), ResumeRecv(2, {1}), Taken(VInt(7)), Lost(4))
  {
    assert Lost(3).senders.Keys == Lost(3).sendCond.Threads();
    assert Shape(Lost(3));
    var r := Step(Lost(3), ResumeRecv(2, {1})).0;
    assert r.sendCond.asleep == {0} && r.sendCond.awake == {1};
    assert r.recvCond.awake == {};
  }

  lemma Lost4()
    ensures Leads(Lost(4), ResumeSend(1, {}), Waits, Lost(5))
  {
    assert Lost(4).senders.Keys == Lost(4).sendCond.Threads();
    var r := Step(Lost(4), ResumeSend(1, {})).0;
    assert r.sendCond.asleep == {0, 1} && r.sendCond.awake == {};
    assert r.senders == Lost(5).senders;
  }

  lemma LostStep(i: nat)
    requires i < 5
    ensures Leads(Lost(i), LOST[i], LOST_EVENTS[i], Lost(i + 1))
  {
    hide Leads, Lost;
    match i
    case 0 => Lost0();
    case 1 => Lost1();
    case 2 => Lost2();
    case 3 => Lost3();
    case 4 => Lost4();
  }

  lemma LostRun(i: nat)
    requires i <= 5
    ensures Run(Lost(i), LOST[i..], LOST_EVENTS[i..], Lost(5))
    ensures AtMost(2, Lost(i), LOST[i..])
    decreases 5 - i
  {
    hide Step, Shape, Enabled;
    assert |Lost(i).senders| <= 2;
    hide Lost;
    if i < 5 {
      LostStep(i);
      LostRun(i + 1);
      assert LOST[i..][1..] == LOST[i + 1..] && LOST_EVENTS[i..][1..] == LOST_EVENTS[i + 1..];
    }
  }

  lemma LostEvents()
    ensures AllPlaced(LOST_EVENTS) == [VInt(7)] && AllTaken(LOST_EVENTS) == [VInt(7)]
  {
    assert LOST_EVENTS[1..] == [Placed(VInt(7)), Waits, Taken(VInt(7)), Waits];
    assert LOST_EVENTS[1..][1..] == [Waits, Taken(VInt(7)), Waits];
    assert LOST_EVENTS[1..][1..][1..] == [Taken(VInt(7)), Waits];
    assert LOST_EVENTS[1..][1..][1..][1..] == [Waits];
  }

  /** Sender 0 sleeps with its test false, its value received, nobody awake and no receiver inside. */
  lemma TwoSendersCanStrand() returns (events: seq<Event>, last: Chan)
    ensures Run(Init(), LOST, events, last) && AtMost(2, Init(), LOST)
    ensures 0 in last.sendCond.asleep && 0 in last.senders && !MustWait(last, last.senders[0])
    ensures last.sendCond.awake == {} && last.recvCond.Threads() == {}
    ensures AllPlaced(events) == [VInt(7)] && AllTaken(events) == [VInt(7)]
  {
    hide Run, AtMost;
    events, last := LOST_EVENTS, Lost(5);
    LostRun(0);
    LostEvents();
    assert LOST[0..] == LOST && LOST_EVENTS[0..] == LOST_EVENTS;
  }

  lemma {:induction false} AtMostMore(k: nat, m: nat, c: Chan, actions: seq<Action>)
    requires k <= m && AtMost(k, c, actions)
    ensures AtMost(m, c, actions)
    decreases |actions|
  {
    if actions != [] {
      AtMostMore(k, m, Step(c, actions[0]).0, actions[1..]);
    }
  }

  /** Both waits of a sender share one condition variable with single signals: exactly the channels
      with at most one sender at a time never strand a sender. */
  lemma SendersAreSafeIffAlone(k: nat)
    ensures SendersAreSafe(k) <==> k <= 1
  {
    if k <= 1 {
      forall actions, events, last | Run(Init(), actions, events, last) && AtMost(k, Init(), actions)
        ensures NoneStranded(last)
      {
        AtMostMore(k, 1, Init(), actions);
        InitIsGood();
        OneSenderIsNeverStranded(Init(), actions, events, last);
      }
    } else {
      var events, last := TwoSendersCanStrand();
      AtMostMore(2, k, Init(), LOST);
      assert !NoneStranded(last);
    }
  }

  /** The channel object: each method is one pass through a critical section. */
  class Channel {
    var closed: bool
    var waiting: nat
    var slot: Slot
    var sendCond: Cond
    var recvCond: Cond
    var senders: map<Thread, Phase>

    ghost function State(): Chan
      reads this
    {
      Chan(closed, waiting, slot, sendCond, recvCond, senders)
    }

    constructor ()
      ensures State() == Init()
    {
      closed, waiting, slot, sendCond, recvCond, senders := false, 0, Free, NOBODY, NOBODY, map[];
    }

    /** OP_SEND, from the loop test of a wait to a wait or the unlock. */
    method SendPass(t: Thread, phase: Phase, woken: set<Thread>) returns (e: Event)
      requires Good(State()) && recvCond.Signals(woken)
      requires t !in sendCond.asleep && t !in recvCond.Threads()
      modifies this
      ensures (State(), e) == SendBody(old(State()), t, phase, woken) && Good(State())
      ensures SendIsAnswered(old(State()), t, phase, (State(), e))
    {
      hide Good;
      SendIsFine(State(), t, phase, woken);
      if phase.Offering? {
        if !closed && (waiting == 0 || slot.Full?) {
          sendCond, senders := sendCond.Sleep(t), senders[t := phase];
          return Waits;
        }
        if closed {
          sendCond, senders := sendCond.Leave(t), senders - {t};
          return Refused;
        }
        slot := Full(phase.v);
        recvCond := recvCond.Wake(woken);
        sendCond, senders := sendCond.Sleep(t), senders[t := Handing];
        return Placed(phase.v);
      }
      if !closed && slot.Full? {
        sendCond, senders := sendCond.Sleep(t), senders[t := phase];
        return Waits;
      }
      sendCond, senders := sendCond.Leave(t), senders - {t};
      return Returned;
    }

    /** A receiver comes in, before its loop. */
    method ArrivePass(arrival: set<Thread>)
      modifies this
      ensures State() == Arrive(old(State()), arrival)
    {
      waiting := waiting + 1;
      sendCond := sendCond.Wake(arrival);
    }

    /** OP_RECV, from the loop test to the wait or the unlock. */
    method RecvPass(t: Thread, woken: set<Thread>) returns (e: Event)
      requires Counted(State(), t) && sendCond.Signals(woken)
      modifies this
      ensures old(waiting) > 0 && (State(), e) == RecvBody(old(State()), t, woken) && Good(State())
      ensures RecvIsAnswered(old(State()), t, (State(), e))
    {
      hide Good, Counted;
      RecvIsFine(State(), t, woken);
      if slot.Free? && !closed {
        recvCond := recvCond.Sleep(t);
        return Waits;
      }
      waiting, recvCond := waiting - 1, recvCond.Leave(t);
      if slot.Free? {
        return GotVoid;
      }
      e := Taken(slot.v);
      slot := Free;
      sendCond := sendCond.Wake(woken);
    }

    /** native_close. */
    method CloseAll()
      requires Good(State())
      modifies this
      ensures State() == CloseBody(old(State())) && Good(State())
    {
      WakingIsFine(State(), sendCond.asleep, recvCond.asleep, true);
      closed, sendCond, recvCond := true, sendCond.Broadcast(), recvCond.Broadcast();
    }
  }
}
