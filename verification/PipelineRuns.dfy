// What the threads of the pipeline do over whole runs: why a worker stops, which
// packets a queue takes in, and what one round of each worker achieves.
module PipelineRuns {
  import opened Fifo
  import opened Pipeline

  // ---------------------------------------------------------------- why a worker stops

  /** An answer that ends a worker at this point: for the WinTun reader anything but
      a packet or "no more items", for the socket workers a call that failed. A send
      that would block is not among them. */
  predicate Final(pc: Worker, answer: Answer) {
    match pc
    case ReaderReceive(_) => !answer.Got? && !answer.Nothing?
    case Sending(_, _) => answer.Failed?
    case Select => answer.Failed?
    case Receive => answer.Failed?
    case _ => false
  }

  /** A step of the worker's own, with the driver told to stop or a final answer. */
  predicate StopsAt(s: State, e: Event, w: nat) {
    e.Work? && e.w == w && w < |s.workers| && (!s.isRunning || Final(s.workers[w], e.answer))
  }

  ghost predicate StopsIn(s: State, es: seq<Event>, w: nat)
    decreases |es|
  {
    es != [] && (StopsAt(s, es[0], w) || StopsIn(Step(s, es[0]), es[1..], w))
  }

  lemma StepStops(s: State, e: Event, w: nat)
    requires Enabled(s, e) && w < |s.workers| && !s.workers[w].Exited? && !StopsAt(s, e, w)
    ensures w < |Step(s, e).workers| && !Step(s, e).workers[w].Exited?
  {
    match e
    case Work(v, answer, pick) =>
      WorkFrame(s, v, answer, pick);
      if v == w {
        ActStops(s, w, answer, pick);
      }
    case Spurious(v) =>
    case Main =>
  }

  lemma ActStops(s: State, w: nat, answer: Answer, pick: nat)
    requires w < |s.workers| && s.isRunning && !Final(s.workers[w], answer) && !s.workers[w].Exited?
    ensures !Act(s, w, answer, pick).0.Exited?
  {
  }

  /** In every run a worker that has exited did so after the running flag was
      cleared, or on a final answer of its own. */
  lemma {:induction false} ExitHasCause(s: State, es: seq<Event>, w: nat)
    requires Run(s, es) && w < |s.workers| && !s.workers[w].Exited?
    requires w < |End(s, es).workers| && End(s, es).workers[w].Exited?
    ensures StopsIn(s, es, w)
    decreases |es|
  {
    if es != [] && !StopsAt(s, es[0], w) {
      StepStops(s, es[0], w);
      ExitHasCause(Step(s, es[0]), es[1..], w);
    }
  }

  /** No worker got a final answer. */
  ghost predicate Untroubled(s: State, es: seq<Event>)
    decreases |es|
  {
    es != [] ==>
      && (es[0].Work? && es[0].w < |s.workers| ==> !Final(s.workers[es[0].w], es[0].answer))
      && Untroubled(Step(s, es[0]), es[1..])
  }

  lemma {:induction false} StoppedStaysStopped(s: State, es: seq<Event>)
    requires Run(s, es) && !s.isRunning
    ensures !End(s, es).isRunning
    decreases |es|
  {
    if es != [] {
      if es[0].Work? {
        WorkFrame(s, es[0].w, es[0].answer, es[0].pick);
      }
      StoppedStaysStopped(Step(s, es[0]), es[1..]);
    }
  }

  lemma {:induction false} UntroubledNeverStops(s: State, es: seq<Event>, w: nat)
    requires Run(s, es) && Untroubled(s, es) && End(s, es).isRunning
    ensures !StopsIn(s, es, w)
    decreases |es|
  {
    if es != [] {
      if !s.isRunning {
        StoppedStaysStopped(s, es);
      }
      UntroubledNeverStops(Step(s, es[0]), es[1..], w);
    }
  }

  /** While the driver is marked running and no call has failed for good, every
      worker is alive, and what each consumer popped is what it is done with and
      what it holds: nothing is dropped on the way. */
  lemma NothingDroppedWhileRunning(pairs: nat, capacity: nat, es: seq<Event>, w: nat)
    requires var s := Init(pairs, capacity);
             Run(s, es) && Untroubled(s, es) && End(s, es).isRunning && w < |End(s, es).workers|
    ensures var t := End(Init(pairs, capacity), es);
            && !t.workers[w].Exited? && !t.workers[w].Crashed?
            && (Consumes(LaneOf(w), w) ==>
                  Through(LaneOf(w), TriesOf(t.tried, w)) + Held(t.workers[w]) == Share(t.Lane(LaneOf(w)).batches, w))
  {
    var s := Init(pairs, capacity);
    RunKeepsCount(s, es);
    UntroubledNeverStops(s, es, w);
    if End(s, es).workers[w].Exited? {
      ExitHasCause(s, es, w);
    }
    PacketsPassThrough(pairs, capacity, es, LaneOf(w), w);
    NeverCrashes(pairs, capacity, es, w);
  }

  // ---------------------------------------------------------------- what a queue takes in

  /** In any step a queue is offered at most one packet, which it takes in exactly
      when it holds fewer than `capacity - 1`, at its back. */
  lemma OfferIsKept(s: State, e: Event, lane: Lane)
    requires Enabled(s, e)
    ensures var q, q' := s.Lane(lane), Step(s, e).Lane(lane);
            || q'.offers == q.offers
            || (&& |q'.offers| == |q.offers| + 1 && q'.offers[..|q.offers|] == q.offers
                && var o := q'.offers[|q.offers|];
                   && (o.kept <==> |q.items| + 1 < s.capacity)
                   && q'.items == if o.kept then q.items + [o.packet] else q.items)
  {
    match e
    case Work(w, answer, pick) =>
      var (pc, effect) := Act(s, w, answer, pick);
      var mid := s.(workers := s.workers[w := pc]);
      match effect {
        case Push(l, p) => PushLane(mid, w, l, p, pick, lane);
        case Take(l, n) => TakeLane(mid, w, l, n, pick, lane);
        case _ =>
      }
    case Spurious(w) =>
    case Main =>
  }

  // ---------------------------------------------------------------- one round of each worker

  /** Steps of one worker alone, with nothing refused and nothing failing. */
  function Alone(w: nat, n: nat): seq<Event> {
    if n == 0 then [] else [Work(w, Ok, 0)] + Alone(w, n - 1)
  }

  /** One event leads from one state of a run to the next. */
  ghost predicate Linked(es: seq<Event>, states: seq<State>, i: nat)
    requires i < |es| && |states| == |es| + 1
  {
    Enabled(states[i], es[i]) && Step(states[i], es[i]) == states[i + 1]
  }

  ghost predicate IsRun(es: seq<Event>, states: seq<State>) {
    |states| == |es| + 1 && forall i: nat :: i < |es| ==> Linked(es, states, i)
  }

  /** Some run of these events goes from `s` to `t`. */
  ghost predicate Leads(s: State, es: seq<Event>, t: State) {
    exists states :: IsRun(es, states) && states[0] == s && states[|es|] == t
  }

  lemma {:induction false} LeadsIsRun(s: State, es: seq<Event>, t: State)
    requires Leads(s, es, t)
    ensures Run(s, es) && End(s, es) == t
    decreases |es|
  {
    var states :| IsRun(es, states) && states[0] == s && states[|es|] == t;
    if es != [] {
      assert Linked(es, states, 0);
      LaterRun(es, states);
      LeadsIsRun(states[1], es[1..], t);
    }
  }

  lemma LaterRun(es: seq<Event>, states: seq<State>)
    requires es != [] && IsRun(es, states)
    ensures IsRun(es[1..], states[1..])
  {
    forall i: nat | i < |es| - 1
      ensures Linked(es[1..], states[1..], i)
    {
      assert Linked(es, states, i + 1);
    }
  }

  lemma JoinRuns(es: seq<Event>, a: seq<State>, more: seq<Event>, b: seq<State>)
    requires IsRun(es, a) && IsRun(more, b) && a[|es|] == b[0]
    ensures IsRun(es + more, a + b[1..])
  {
    var all, states := es + more, a + b[1..];
    forall i: nat | i < |all|
      ensures Linked(all, states, i)
    {
      if i < |es| {
        assert Linked(es, a, i);
      } else {
        assert Linked(more, b, i - |es|);
        assert states[i] == b[i - |es|] && states[i + 1] == b[i - |es| + 1];
      }
    }
  }

  lemma LeadsAlong(s: State, es: seq<Event>, m: State, more: seq<Event>, t: State)
    requires Leads(s, es, m) && Leads(m, more, t)
    ensures Leads(s, es + more, t)
  {
    var a :| IsRun(es, a) && a[0] == s && a[|es|] == m;
    var b :| IsRun(more, b) && b[0] == m && b[|more|] == t;
    JoinRuns(es, a, more, b);
    var states := a + b[1..];
    assert states[0] == s && states[|es + more|] == t;
  }

  lemma OneStep(s: State, e: Event, t: State)
    requires Enabled(s, e) && Step(s, e) == t
    ensures Leads(s, [e], t)
  {
    assert Linked([e], [s, t], 0);
    assert IsRun([e], [s, t]);
  }

  lemma First(s: State, e: Event, m: State, es: seq<Event>, t: State)
    requires Enabled(s, e) && Step(s, e) == m && Leads(m, es, t)
    ensures Leads(s, [e] + es, t)
  {
    OneStep(s, e, m);
    LeadsAlong(s, [e], m, es, t);
  }

  lemma OneMore(s: State, w: nat, n: nat, t: State)
    requires Enabled(s, Work(w, Ok, 0)) && Leads(Step(s, Work(w, Ok, 0)), Alone(w, n), t)
    ensures Leads(s, Alone(w, n + 1), t)
  {
    First(s, Work(w, Ok, 0), Step(s, Work(w, Ok, 0)), Alone(w, n), t);
  }

  /** What a consumer's round changes besides the histories of its own lane. */
  ghost predicate SentMore(s: State, t: State, w: nat, pc: Worker, items: seq<Packet>) {
    && w < |s.workers| && t.workers == s.workers[w := pc]
    && t.outgoing == s.outgoing && t.incoming == s.incoming
    && t.isRunning == s.isRunning && t.socketsOpen == s.socketsOpen && t.sessionOpen == s.sessionOpen
    && Share(t.sent, w) == Share(s.sent, w) + items
  }

  lemma SentTwice(s: State, m: State, t: State, w: nat, from: Worker, pc: Worker, a: seq<Packet>, b: seq<Packet>)
    requires SentMore(s, m, w, from, a) && SentMore(m, t, w, pc, b)
    ensures SentMore(s, t, w, pc, a + b)
  {
    assert Share(s.sent, w) + (a + b) == (Share(s.sent, w) + a) + b;
  }

  lemma OneAlone(s: State, w: nat, t: State)
    requires Enabled(s, Work(w, Ok, 0)) && Step(s, Work(w, Ok, 0)) == t
    ensures Leads(s, Alone(w, 1), t)
  {
    LeadsNowhere(t, w);
    OneMore(s, w, 0, t);
  }

  lemma OneSend(s: State, w: nat, items: seq<Packet>, i: nat) returns (t: State)
    requires w < |s.workers| && s.workers[w] == Sending(Packets(items), i) && i < |items| && s.socketsOpen
    ensures Leads(s, Alone(w, 1), t) && SentMore(s, t, w, Sending(Packets(items), i + 1), [items[i]])
  {
    Append(s.sent, Taken(w, [items[i]]), w);
    t := Step(s, Work(w, Ok, 0));
    OneAlone(s, w, t);
  }

  lemma AllSent(s: State, w: nat, items: seq<Packet>) returns (t: State)
    requires w < |s.workers| && s.workers[w] == Sending(Packets(items), |items|)
    ensures Leads(s, Alone(w, 1), t) && SentMore(s, t, w, PopLoop, [])
  {
    t := Step(s, Work(w, Ok, 0));
    OneAlone(s, w, t);
    assert Share(s.sent, w) + [] == Share(s.sent, w);
  }

  lemma {:induction false} SendRest(s: State, w: nat, items: seq<Packet>, i: nat) returns (t: State)
    requires w < |s.workers| && s.workers[w] == Sending(Packets(items), i) && i <= |items| && s.socketsOpen
    ensures Leads(s, Alone(w, |items| - i + 1), t) && SentMore(s, t, w, PopLoop, items[i..])
    decreases |items| - i
  {
    if i == |items| {
      t := AllSent(s, w, items);
    } else {
      var m := OneSend(s, w, items, i);
      t := SendRest(m, w, items, i + 1);
      LeadsOn(s, w, m, t, 1, |items| - i);
      SentTwice(s, m, t, w, Sending(Packets(items), i + 1), PopLoop, [items[i]], items[i + 1..]);
      assert items[i..] == [items[i]] + items[i + 1..];
    }
  }

  /** The two steps of a consumer from its loop to the mutex. */
  lemma ReachMutex(s: State, w: nat) returns (t: State)
    requires w < |s.workers| && s.workers[w].PopLoop? && s.isRunning && !s.Lane(LaneOf(w)).released
    ensures t == s.(workers := s.workers[w := PopLock]) && Leads(s, Alone(w, 2), t)
  {
    var m := s.(workers := s.workers[w := PopEnter]);
    t := s.(workers := s.workers[w := PopLock]);
    SilentMove(s, w, 0);
    SilentMove(m, w, 0);
    LeadsNowhere(t, w);
    OneMore(m, w, 0, t);
    OneMore(s, w, 1, t);
  }

  lemma LeadsNowhere(s: State, w: nat)
    ensures Leads(s, Alone(w, 0), s)
  {
    assert IsRun([], [s]);
  }

  /** The step under the mutex. */
  lemma TakeBatch(s: State, w: nat, n: nat)
    requires w < |s.workers| && s.workers[w].PopLock?
    requires !s.Lane(LaneOf(w)).released && s.Lane(LaneOf(w)).items != []
    requires n == Limit(LaneOf(w), |s.Lane(LaneOf(w)).items|)
    ensures Enabled(s, Work(w, Ok, 0))
    ensures var t, items := Step(s, Work(w, Ok, 0)), s.Lane(LaneOf(w)).items;
            && t.workers == s.workers[w := AfterPop(w, Packets(items[..n]))]
            && t.Lane(LaneOf(w)).items == items[n..]
            && t.sent == s.sent && t.isRunning == s.isRunning
            && t.socketsOpen == s.socketsOpen && t.sessionOpen == s.sessionOpen
  {
    var lane, pc := LaneOf(w), AfterPop(w, Packets(s.Lane(LaneOf(w)).items[..n]));
    var mid := s.(workers := s.workers[w := pc]);
    TakeLane(mid, w, lane, n, 0, lane);
  }

  /** The steps of a sender up to its first send. */
  lemma PopForSending(s: State, w: nat, n: nat) returns (t: State)
    requires w < |s.workers| && Consumes(Outgoing, w) && s.workers[w].PopLoop?
    requires s.isRunning && !s.outgoing.released && s.outgoing.items != []
    requires n == if |s.outgoing.items| < 3 then |s.outgoing.items| else 3
    ensures Leads(s, Alone(w, 4), t)
    ensures t.workers == s.workers[w := Sending(Packets(s.outgoing.items[..n]), 0)]
    ensures t.outgoing.items == s.outgoing.items[n..] && t.sent == s.sent && t.socketsOpen == s.socketsOpen
  {
    var m := ReachMutex(s, w);
    TakeBatch(m, w, n);
    var m2 := Step(m, Work(w, Ok, 0));
    SilentMove(m2, w, 0);
    t := Step(m2, Work(w, Ok, 0));
    LeadsNowhere(t, w);
    OneMore(m2, w, 0, t);
    OneMore(m, w, 1, t);
    LeadsOn(s, w, m, t, 2, 2);
  }

  lemma {:induction false} AloneSum(w: nat, a: nat, b: nat)
    ensures Alone(w, a) + Alone(w, b) == Alone(w, a + b)
    decreases a
  {
    if a > 0 {
      AloneSum(w, a - 1, b);
      assert Alone(w, a) + Alone(w, b) == [Work(w, Ok, 0)] + (Alone(w, a - 1) + Alone(w, b));
    }
  }

  lemma LeadsOn(s: State, w: nat, m: State, t: State, a: nat, b: nat)
    requires Leads(s, Alone(w, a), m) && Leads(m, Alone(w, b), t)
    ensures Leads(s, Alone(w, a + b), t)
  {
    LeadsAlong(s, Alone(w, a), m, Alone(w, b), t);
    AloneSum(w, a, b);
  }

  /** A sender at its loop that finds packets takes the first three, or all of fewer,
      puts them out in order and is at its loop again. */
  lemma SenderRound(s: State, w: nat) returns (t: State, n: nat)
    requires w < |s.workers| && Consumes(Outgoing, w) && s.workers[w].PopLoop?
    requires s.isRunning && s.socketsOpen && !s.outgoing.released && s.outgoing.items != []
    ensures n == if |s.outgoing.items| < 3 then |s.outgoing.items| else 3
    ensures Leads(s, Alone(w, n + 5), t) && t.workers == s.workers
    ensures t.outgoing.items == s.outgoing.items[n..]
    ensures Share(t.sent, w) == Share(s.sent, w) + s.outgoing.items[..n]
  {
    n := if |s.outgoing.items| < 3 then |s.outgoing.items| else 3;
    var m := PopForSending(s, w, n);
    t := SendRest(m, w, s.outgoing.items[..n], 0);
    LeadsOn(s, w, m, t, 4, n + 1);
    assert s.outgoing.items[..n][0..] == s.outgoing.items[..n];
  }

  lemma WriteOutStep(s: State, items: seq<Packet>, i: nat) returns (t: State)
    requires 1 < |s.workers| && s.workers[1] == WriteOut(Packets(items), i) && i < |items| && s.sessionOpen
    ensures Leads(s, Alone(1, 1), t) && SentMore(s, t, 1, Writing(Packets(items), i + 1), [items[i]])
  {
    Append(s.sent, Taken(1, [items[i]]), 1);
    t := Step(s, Work(1, Ok, 0));
    OneAlone(s, 1, t);
  }

  lemma StartWrite(s: State, items: seq<Packet>, i: nat) returns (t: State)
    requires 1 < |s.workers| && s.workers[1] == Writing(Packets(items), i) && i < |items| && s.isRunning
    ensures Leads(s, Alone(1, 1), t) && t == s.(workers := s.workers[1 := WriteOut(Packets(items), i)])
  {
    t := s.(workers := s.workers[1 := WriteOut(Packets(items), i)]);
    SilentMove(s, 1, 0);
    OneAlone(s, 1, t);
  }

  lemma OneWrite(s: State, items: seq<Packet>, i: nat) returns (t: State)
    requires 1 < |s.workers| && s.workers[1] == Writing(Packets(items), i) && i < |items|
    requires s.isRunning && s.sessionOpen
    ensures Leads(s, Alone(1, 2), t) && SentMore(s, t, 1, Writing(Packets(items), i + 1), [items[i]])
  {
    var m := StartWrite(s, items, i);
    t := WriteOutStep(m, items, i);
    LeadsOn(s, 1, m, t, 1, 1);
  }

  lemma AllWritten(s: State, items: seq<Packet>) returns (t: State)
    requires 1 < |s.workers| && s.workers[1] == Writing(Packets(items), |items|)
    ensures Leads(s, Alone(1, 1), t) && SentMore(s, t, 1, PopLoop, [])
  {
    t := Step(s, Work(1, Ok, 0));
    OneAlone(s, 1, t);
    assert Share(s.sent, 1) + [] == Share(s.sent, 1);
  }

  lemma {:induction false} WriteRest(s: State, items: seq<Packet>, i: nat) returns (t: State)
    requires 1 < |s.workers| && s.workers[1] == Writing(Packets(items), i) && i <= |items|
    requires s.isRunning && s.sessionOpen
    ensures Leads(s, Alone(1, 2 * (|items| - i) + 1), t) && SentMore(s, t, 1, PopLoop, items[i..])
    decreases |items| - i
  {
    if i == |items| {
      t := AllWritten(s, items);
    } else {
      var m := OneWrite(s, items, i);
      t := WriteRest(m, items, i + 1);
      LeadsOn(s, 1, m, t, 2, 2 * (|items| - i) - 1);
      SentTwice(s, m, t, 1, Writing(Packets(items), i + 1), PopLoop, [items[i]], items[i + 1..]);
      assert items[i..] == [items[i]] + items[i + 1..];
    }
  }

  lemma PopForWriting(s: State) returns (t: State)
    requires 1 < |s.workers| && s.workers[1].PopLoop?
    requires s.isRunning && !s.incoming.released && s.incoming.items != []
    ensures Leads(s, Alone(1, 3), t)
    ensures t.workers == s.workers[1 := Writing(Packets(s.incoming.items), 0)]
    ensures t.incoming.items == [] && t.sent == s.sent
    ensures t.isRunning == s.isRunning && t.sessionOpen == s.sessionOpen
  {
    var m := ReachMutex(s, 1);
    TakeBatch(m, 1, |s.incoming.items|);
    t := Step(m, Work(1, Ok, 0));
    LeadsNowhere(t, 1);
    OneMore(m, 1, 0, t);
    LeadsOn(s, 1, m, t, 2, 1);
    assert s.incoming.items[..|s.incoming.items|] == s.incoming.items;
  }

  /** The WinTun writer at its loop that finds packets takes all of them, writes them
      out in order and is at its loop again. */
  lemma WriterRound(s: State) returns (t: State)
    requires 1 < |s.workers| && s.workers[1].PopLoop?
    requires s.isRunning && s.sessionOpen && !s.incoming.released && s.incoming.items != []
    ensures Leads(s, Alone(1, 2 * |s.incoming.items| + 4), t) && t.workers == s.workers
    ensures t.incoming.items == [] && Share(t.sent, 1) == Share(s.sent, 1) + s.incoming.items
  {
    var m := PopForWriting(s);
    t := WriteRest(m, s.incoming.items, 0);
    LeadsOn(s, 1, m, t, 3, 2 * |s.incoming.items| + 1);
    assert s.incoming.items[0..] == s.incoming.items;
  }

  /** Some waiter is picked whenever there is one. */
  ghost predicate Picks(s: State, lane: Lane, pick: nat) {
    (exists j :: WaitsOn(s, lane, j)) ==> WaitsOn(s, lane, pick)
  }

  /** The queue after an offer of the worker's. */
  ghost predicate Offers(q: Queue, q': Queue, w: nat, p: Packet, capacity: nat) {
    && |q'.offers| == |q.offers| + 1 && q'.offers[..|q.offers|] == q.offers
    && q'.offers[|q.offers|].worker == w && q'.offers[|q.offers|].packet == p
    && q'.items == if |q.items| + 1 < capacity then q.items + [p] else q.items
  }

  lemma SilentLeads(s: State, w: nat, pc: Worker)
    requires w < |s.workers| && !Blocked(s, w) && !s.workers[w].ReaderWait? && Act(s, w, Ok, 0) == (pc, Silent)
    ensures Leads(s, [Work(w, Ok, 0)], s.(workers := s.workers[w := pc]))
  {
    SilentMove(s, w, 0);
    OneStep(s, Work(w, Ok, 0), s.(workers := s.workers[w := pc]));
  }

  lemma SamePicks(s: State, t: State, w: nat, lane: Lane, pick: nat)
    requires Picks(s, lane, pick) && w < |s.workers| && !s.workers[w].Waiting?
    requires |t.workers| == |s.workers| && !t.workers[w].Waiting?
    requires forall j :: 0 <= j < |s.workers| && j != w ==> t.workers[j] == s.workers[j]
    ensures Picks(t, lane, pick)
  {
    forall j: nat
      ensures WaitsOn(t, lane, j) <==> WaitsOn(s, lane, j)
    {
    }
  }

  /** A packet comes in from the outside. */
  lemma GainStep(s: State, w: nat, p: Packet, pc: Worker) returns (t: State)
    requires w < |s.workers|
    requires (s.workers[w].ReaderReceive? && s.sessionOpen && pc == ReaderPush(s.workers[w].runFor, p))
             || (s.workers[w].Receive? && s.socketsOpen && pc == ReceivePush(p))
    ensures t == s.(workers := s.workers[w := pc], received := s.received + [Taken(w, [p])])
    ensures Leads(s, [Work(w, Got(p), 0)], t)
  {
    t := s.(workers := s.workers[w := pc], received := s.received + [Taken(w, [p])]);
    OneStep(s, Work(w, Got(p), 0), t);
  }

  /** It is offered to the queue. */
  lemma PushStep(s: State, w: nat, lane: Lane, p: Packet, pick: nat, pc: Worker) returns (t: State)
    requires w < |s.workers| && Picks(s, lane, pick)
    requires (s.workers[w].ReaderPush? && s.workers[w].packet == p && lane == Outgoing
              && pc == ReaderRelease(s.workers[w].runFor))
             || (s.workers[w] == ReceivePush(p) && lane == Incoming && pc == ReceiveCheck)
    ensures Leads(s, [Work(w, Ok, pick)], t)
    ensures |t.workers| == |s.workers| && t.workers[w] == pc
    ensures Offers(s.Lane(lane), t.Lane(lane), w, p, s.capacity)
    ensures t.received == s.received && t.isRunning == s.isRunning && t.sessionOpen == s.sessionOpen
  {
    var mid := s.(workers := s.workers[w := pc]);
    WorkFrame(s, w, Ok, pick);
    PushLane(mid, w, lane, p, pick, lane);
    ApplyHistories(mid, w, Push(lane, p), pick);
    assert mid.received + [] == mid.received;
    t := Step(s, Work(w, Ok, pick));
    OneStep(s, Work(w, Ok, pick), t);
  }

  lemma GainAndPush(s: State, w: nat, lane: Lane, p: Packet, pick: nat, got: Worker, pushed: Worker) returns (t: State)
    requires w < |s.workers| && Picks(s, lane, pick)
    requires (s.workers[w].ReaderReceive? && s.sessionOpen && lane == Outgoing
              && got == ReaderPush(s.workers[w].runFor, p) && pushed == ReaderRelease(s.workers[w].runFor))
             || (s.workers[w].Receive? && s.socketsOpen && lane == Incoming
                 && got == ReceivePush(p) && pushed == ReceiveCheck)
    ensures Leads(s, [Work(w, Got(p), 0)] + [Work(w, Ok, pick)], t)
    ensures |t.workers| == |s.workers| && t.workers[w] == pushed
    ensures Offers(s.Lane(lane), t.Lane(lane), w, p, s.capacity)
    ensures t.received == s.received + [Taken(w, [p])] && t.isRunning == s.isRunning && t.sessionOpen == s.sessionOpen
  {
    var m := GainStep(s, w, p, got);
    SamePicks(s, m, w, lane, pick);
    t := PushStep(m, w, lane, p, pick, pushed);
    LeadsAlong(s, [Work(w, Got(p), 0)], m, [Work(w, Ok, pick)], t);
  }

  /** The WinTun reader at its loop, given a packet, offers it to the senders and is
      at its loop again. */
  lemma ReaderRound(s: State, p: Packet, pick: nat) returns (t: State)
    requires 0 < |s.workers| && s.workers[0].ReaderLoop? && s.isRunning && s.sessionOpen && Picks(s, Outgoing, pick)
    ensures var ok := [Work(0, Ok, 0)];
            Leads(s, ok + (([Work(0, Got(p), 0)] + [Work(0, Ok, pick)]) + ok), t)
    ensures |t.workers| == |s.workers| && t.workers[0].ReaderLoop?
    ensures Offers(s.outgoing, t.outgoing, 0, p, s.capacity) && t.received == s.received + [Taken(0, [p])]
  {
    var r, ok := s.workers[0].runFor - 1, [Work(0, Ok, 0)];
    var s1 := s.(workers := s.workers[0 := ReaderReceive(r)]);
    SilentLeads(s, 0, ReaderReceive(r));
    SamePicks(s, s1, 0, Outgoing, pick);
    var s2 := GainAndPush(s1, 0, Outgoing, p, pick, ReaderPush(r, p), ReaderRelease(r));
    t := s2.(workers := s2.workers[0 := ReaderLoop(r)]);
    SilentLeads(s2, 0, ReaderLoop(r));
    LeadsAlong(s1, [Work(0, Got(p), 0)] + [Work(0, Ok, pick)], s2, ok, t);
    LeadsAlong(s, ok, s1, ([Work(0, Got(p), 0)] + [Work(0, Ok, pick)]) + ok, t);
  }

  /** A ready socket takes a receiver from its loop to the receiving call. */
  lemma SelectReady(s: State, w: nat) returns (t: State)
    requires w < |s.workers| && s.workers[w].SelectLoop? && s.isRunning && s.socketsOpen
    ensures t == s.(workers := s.workers[w := Receive])
    ensures Leads(s, [Work(w, Ok, 0)] + [Work(w, Ok, 0)], t)
  {
    var m := s.(workers := s.workers[w := Select]);
    t := s.(workers := s.workers[w := Receive]);
    SilentLeads(s, w, Select);
    SilentLeads(m, w, Receive);
    LeadsAlong(s, [Work(w, Ok, 0)], m, [Work(w, Ok, 0)], t);
  }

  lemma BackToSelect(s: State, w: nat) returns (t: State)
    requires w < |s.workers| && s.workers[w].ReceiveCheck? && s.isRunning
    ensures t == s.(workers := s.workers[w := SelectLoop]) && Leads(s, [Work(w, Ok, 0)], t)
  {
    t := s.(workers := s.workers[w := SelectLoop]);
    SilentLeads(s, w, SelectLoop);
  }

  /** A socket's receiver at its loop, its socket ready with a packet, offers it to
      the WinTun writer and is at its loop again. */
  lemma ReceiverRound(s: State, w: nat, p: Packet, pick: nat) returns (t: State)
    requires w < |s.workers| && s.workers[w].SelectLoop? && s.isRunning && s.socketsOpen && Picks(s, Incoming, pick)
    ensures var ok := [Work(w, Ok, 0)];
            Leads(s, (ok + ok) + (([Work(w, Got(p), 0)] + [Work(w, Ok, pick)]) + ok), t)
    ensures |t.workers| == |s.workers| && t.workers[w].SelectLoop?
    ensures Offers(s.incoming, t.incoming, w, p, s.capacity) && t.received == s.received + [Taken(w, [p])]
  {
    var ok, get := [Work(w, Ok, 0)], [Work(w, Got(p), 0)] + [Work(w, Ok, pick)];
    var s1 := SelectReady(s, w);
    SamePicks(s, s1, w, Incoming, pick);
    var s2 := GainAndPush(s1, w, Incoming, p, pick, ReceivePush(p), ReceiveCheck);
    t := BackToSelect(s2, w);
    LeadsAlong(s1, get, s2, ok, t);
    LeadsAlong(s, ok + ok, s1, get + ok, t);
  }
}
