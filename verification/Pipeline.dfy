// The running driver as a step relation: the WinTun reader and writer, any
// number of UDP sender/receiver pairs, the two packet queues between them, and
// the shutdown sequence. A step is one access to shared state: a read of a
// flag, one section under a queue's mutex, or one call on a socket or session.
module Pipeline {
  import opened Fifo

  datatype Packet = Packet(data: seq<bv8>)

  /** Outgoing is the queue from WinTun to the sockets, Incoming its opposite. */
  datatype Lane = Outgoing | Incoming

  /** What a pop hands back: a null list leaves the caller with some size. */
  datatype Batch = Null(size: nat) | Packets(items: seq<Packet>)
  {
    function Size(): nat {
      match this
      case Null(n) => n
      case Packets(items) => |items|
    }
  }

  /** Program counters. Crashed stands for the use of a null batch, a closed
      socket or an ended session. */
  datatype Worker =
    | ReaderLoop(runFor: int) | ReaderReceive(runFor: int) | ReaderPush(runFor: int, packet: Packet)
    | ReaderRelease(runFor: int) | ReaderWait
    | PopLoop | PopEnter | PopLock | Waiting | Woken
    | Popped(batch: Batch) | Sending(batch: Batch, next: nat)
    | Writing(batch: Batch, next: nat) | WriteOut(batch: Batch, next: nat)
    | SelectLoop | Select | SelectTimeout | Receive | ReceivePush(packet: Packet) | ReceiveCheck
    | Exited | Crashed

  datatype Taken = Taken(worker: nat, items: seq<Packet>)
  datatype Offer = Offer(worker: nat, packet: Packet, kept: bool)
  datatype Attempt = Attempt(worker: nat, packet: Packet, answer: Answer)

  /** `offers`, `accepted` and `batches` record the pushes, the packets let in and
      the pops, in the order in which the mutex admitted them. */
  datatype Queue = Queue(
    items: seq<Packet>, released: bool, offers: seq<Offer>, accepted: seq<Packet>, batches: seq<Taken>)

  datatype Stage =
    | ClearRunning | SignalQuit | ReleaseOutgoing | ReleaseIncoming | Join(next: nat)
    | CloseSockets | EndSession | Done

  /** `received`, `tried` and `sent` record what the workers got from the outside,
      every attempt to put something out, and what was put out. */
  datatype State = State(
    capacity: nat,
    isRunning: bool,
    quit: bool,
    outgoing: Queue,
    incoming: Queue,
    workers: seq<Worker>,
    received: seq<Taken>,
    tried: seq<Attempt>,
    sent: seq<Taken>,
    stage: Stage,
    socketsOpen: bool,
    sessionOpen: bool)
  {
    function Lane(lane: Lane): Queue {
      match lane
      case Outgoing => outgoing
      case Incoming => incoming
    }

    function WithLane(lane: Lane, q: Queue): State {
      match lane
      case Outgoing => this.(outgoing := q)
      case Incoming => this.(incoming := q)
    }
  }

  /** What the environment answers to the call a worker makes. */
  datatype Answer = Got(packet: Packet) | Nothing | WouldBlock | TimedOut | Failed | Ok

  /** A send that neither would block nor fails. */
  predicate Accepted(answer: Answer) {
    !answer.WouldBlock? && !answer.Failed?
  }

  /** `pick` is the waiter a notification wakes, or the value an unwritten size
      variable happens to hold. */
  datatype Event = Work(w: nat, answer: Answer, pick: nat) | Spurious(w: nat) | Main

  // ---------------------------------------------------------------- workers

  /** Workers[0] reads from WinTun, Workers[1] writes to it, and then come the
      socket workers, a sender and a receiver for each adapter. */
  predicate Consumes(lane: Lane, w: nat) {
    match lane
    case Outgoing => w >= 2 && w % 2 == 0
    case Incoming => w == 1
  }

  predicate WaitsIn(workers: seq<Worker>, lane: Lane, w: nat) {
    w < |workers| && Consumes(lane, w) && workers[w].Waiting?
  }

  predicate WaitsOn(s: State, lane: Lane, w: nat) {
    WaitsIn(s.workers, lane, w)
  }

  function Limit(lane: Lane, n: nat): nat {
    match lane
    case Outgoing => Min(3, n)
    case Incoming => n
  }

  /** What a worker's step does to the shared state. */
  datatype Effect =
    | Silent | Gain(packet: Packet) | Push(lane: Lane, packet: Packet) | Take(lane: Lane, n: nat)
    | Send(packet: Packet, answer: Answer)

  function LaneOf(w: nat): Lane {
    if w == 1 then Incoming else Outgoing
  }

  function AfterPop(w: nat, batch: Batch): Worker {
    if w == 1 then Writing(batch, 0) else Popped(batch)
  }

  /** A pop from the point where the mutex is held. */
  function PopStep(q: Queue, w: nat): (Worker, Effect) {
    match Pop(q.items, q.released, if w == 1 && q.released then 0 else Limit(LaneOf(w), |q.items|))
    case Wait => (Waiting, Silent)
    case Nothing(n) => (AfterPop(w, Null(n)), Silent)
    case Some(items, rest) => (AfterPop(w, Packets(items)), Take(LaneOf(w), |items|))
  }

  function Act(s: State, w: nat, answer: Answer, pick: nat): (Worker, Effect)
    requires w < |s.workers|
  {
    match s.workers[w]
    // ReceivePackets
    case ReaderLoop(r) => (if s.isRunning then ReaderReceive(r - 1) else Exited, Silent)
    case ReaderReceive(r) =>
      if !s.sessionOpen then (Crashed, Silent) else
      (match answer
       case Got(p) => (ReaderPush(r, p), Gain(p))
       case Nothing => (if r <= 0 then ReaderWait else ReaderLoop(r), Silent)
       case _ => (Exited, Silent))
    case ReaderPush(r, p) => (ReaderRelease(r), Push(Outgoing, p))
    case ReaderRelease(r) => (if s.sessionOpen then ReaderLoop(r) else Crashed, Silent)
    case ReaderWait => (if s.sessionOpen then ReaderLoop(11) else Crashed, Silent)
    // the pop of both consumers
    case PopLoop => (if s.isRunning then PopEnter else Exited, Silent)
    case PopEnter => (if s.Lane(LaneOf(w)).released then AfterPop(w, Null(pick)) else PopLock, Silent)
    case PopLock => PopStep(s.Lane(LaneOf(w)), w)
    case Woken => PopStep(s.Lane(LaneOf(w)), w)
    // WorkSocket, sending
    case Popped(b) => (if s.isRunning then Sending(b, 0) else Exited, Silent)
    case Sending(b, i) =>
      if i >= b.Size() then (PopLoop, Silent)
      else if b.Null? || !s.socketsOpen then (Crashed, Silent)
      else if answer.WouldBlock? then (Sending(b, i), Send(b.items[i], answer))
      else if answer.Failed? then (Exited, Send(b.items[i], answer))
      else (Sending(b, i + 1), Send(b.items[i], answer))
    // SendPackets
    case Writing(b, i) =>
      (if i >= b.Size() then PopLoop else if !s.isRunning then Exited else WriteOut(b, i), Silent)
    case WriteOut(b, i) =>
      if b.Null? || i >= b.Size() || !s.sessionOpen then (Crashed, Silent)
      else (Writing(b, i + 1), Send(b.items[i], answer))
    // WorkSocket, receiving
    case SelectLoop => (if s.isRunning then Select else Exited, Silent)
    case Select =>
      if !s.socketsOpen then (Crashed, Silent) else
      (match answer
       case Failed => Exited
       case WouldBlock => SelectLoop
       case TimedOut => SelectTimeout
       case _ => Receive, Silent)
    case SelectTimeout => (if s.isRunning then SelectLoop else Exited, Silent)
    case Receive =>
      if !s.socketsOpen then (Crashed, Silent) else
      (match answer
       case Got(p) => (ReceivePush(p), Gain(p))
       case Failed => (Exited, Silent)
       case _ => (SelectLoop, Silent))
    case ReceivePush(p) => (ReceiveCheck, Push(Incoming, p))
    case ReceiveCheck => (if s.isRunning then SelectLoop else Exited, Silent)
    case Waiting => (Waiting, Silent)
    case Exited => (Exited, Silent)
    case Crashed => (Crashed, Silent)
  }

  function Accept(q: Queue, capacity: nat, w: nat, p: Packet): Queue {
    q.(items := Put(q.items, capacity, p),
       offers := q.offers + [Offer(w, p, !Full(q.items, capacity))],
       accepted := if Full(q.items, capacity) then q.accepted else q.accepted + [p])
  }

  function Remove(q: Queue, w: nat, n: nat): Queue {
    var k := Min(n, |q.items|);
    q.(items := q.items[k..], batches := q.batches + [Taken(w, q.items[..k])])
  }

  /** notify_one: the picked waiter, if it is one, leaves the wait. */
  function Notify(workers: seq<Worker>, lane: Lane, pick: nat): (r: seq<Worker>)
    ensures |r| == |workers|
  {
    if pick < |workers| && Consumes(lane, pick) && workers[pick].Waiting? then workers[pick := Woken]
    else workers
  }

  function NotifyAll(workers: seq<Worker>, lane: Lane): (r: seq<Worker>)
    ensures |r| == |workers|
    ensures forall w :: 0 <= w < |workers| ==>
      r[w] == if Consumes(lane, w) && workers[w].Waiting? then Woken else workers[w]
  {
    seq(|workers|, w requires 0 <= w < |workers| =>
      if Consumes(lane, w) && workers[w].Waiting? then Woken else workers[w])
  }

  function Apply(s: State, w: nat, effect: Effect, pick: nat): State {
    match effect
    case Silent => s
    case Push(lane, p) =>
      var woken := if Full(s.Lane(lane).items, s.capacity) then s.workers else Notify(s.workers, lane, pick);
      s.WithLane(lane, Accept(s.Lane(lane), s.capacity, w, p)).(workers := woken)
    case Take(lane, n) => s.WithLane(lane, Remove(s.Lane(lane), w, n))
    case Gain(p) => s.(received := s.received + [Taken(w, [p])])
    case Send(p, answer) =>
      s.(tried := s.tried + [Attempt(w, p, answer)],
         sent := if Accepted(answer) then s.sent + [Taken(w, [p])] else s.sent)
  }

  // ---------------------------------------------------------------- steps

  predicate Blocked(s: State, w: nat)
    requires w < |s.workers|
  {
    s.workers[w].Waiting? || s.workers[w].Exited? || s.workers[w].Crashed?
  }

  /** notify_one picks among the waiters whenever there are any; the reader's
      wait returns on the quit event or on a packet. */
  ghost predicate Enabled(s: State, e: Event) {
    match e
    case Work(w, answer, pick) =>
      && w < |s.workers|
      && !Blocked(s, w)
      && (s.workers[w].ReaderWait? ==> s.quit || answer.Ok?)
      && var effect := Act(s, w, answer, pick).1;
         (effect.Push? && (exists j :: WaitsOn(s, effect.lane, j)) ==> WaitsOn(s, effect.lane, pick))
    case Spurious(w) => w < |s.workers| && s.workers[w].Waiting?
    case Main =>
      match s.stage
      case Join(k) => k < |s.workers| ==> s.workers[k].Exited?
      case Done => false
      case _ => true
  }

  /** shutdown, one access at a time. */
  function MainStep(s: State): State {
    match s.stage
    case ClearRunning => s.(isRunning := false, stage := SignalQuit)
    case SignalQuit => s.(quit := true, stage := ReleaseOutgoing)
    case ReleaseOutgoing =>
      s.(outgoing := s.outgoing.(released := true), workers := NotifyAll(s.workers, Outgoing), stage := ReleaseIncoming)
    case ReleaseIncoming =>
      s.(incoming := s.incoming.(released := true), workers := NotifyAll(s.workers, Incoming), stage := Join(0))
    case Join(k) => s.(stage := if k < |s.workers| then Join(k + 1) else CloseSockets)
    case CloseSockets => s.(socketsOpen := false, stage := EndSession)
    case EndSession => s.(sessionOpen := false, stage := Done)
    case Done => s
  }

  function Step(s: State, e: Event): State {
    match e
    case Work(w, answer, pick) =>
      if w >= |s.workers| then s else
      var (pc, effect) := Act(s, w, answer, pick);
      Apply(s.(workers := s.workers[w := pc]), w, effect, pick)
    case Spurious(w) => if w >= |s.workers| then s else s.(workers := s.workers[w := Woken])
    case Main => MainStep(s)
  }

  /** The state `run` leaves behind: every thread at its loop. */
  function Init(pairs: nat, capacity: nat): State {
    var q := Queue([], false, [], [], []);
    State(capacity, true, false, q, q,
      [ReaderLoop(11), PopLoop] + seq(2 * pairs, i => if i % 2 == 0 then PopLoop else SelectLoop),
      [], [], [], ClearRunning, true, true)
  }

  ghost predicate Run(s: State, es: seq<Event>)
    decreases |es|
  {
    es != [] ==> Enabled(s, es[0]) && Run(Step(s, es[0]), es[1..])
  }

  function End(s: State, es: seq<Event>): State
    decreases |es|
  {
    if es == [] then s else End(Step(s, es[0]), es[1..])
  }

  // ---------------------------------------------------------------- invariants

  ghost predicate KindOk(w: nat, pc: Worker) {
    match pc
    case Exited => true
    case Crashed => false
    case ReaderLoop(_) => w == 0
    case ReaderReceive(_) => w == 0
    case ReaderPush(_, _) => w == 0
    case ReaderRelease(_) => w == 0
    case ReaderWait => w == 0
    case PopLoop => w == 1 || Consumes(Outgoing, w)
    case PopEnter => w == 1 || Consumes(Outgoing, w)
    case PopLock => w == 1 || Consumes(Outgoing, w)
    case Waiting => w == 1 || Consumes(Outgoing, w)
    case Woken => w == 1 || Consumes(Outgoing, w)
    case Popped(_) => Consumes(Outgoing, w)
    case Sending(_, _) => Consumes(Outgoing, w)
    case Writing(_, _) => w == 1
    case WriteOut(_, _) => w == 1
    case _ => w >= 3 && w % 2 == 1
  }

  /** A null batch is only ever held once its queue has been released, and past
      the running test no null batch is left. */
  ghost predicate BatchOk(s: State, w: nat, pc: Worker) {
    match pc
    case Waiting => !s.Lane(LaneOf(w)).released
    case Popped(b) => if b.Null? then s.outgoing.released else |b.items| <= 3
    case Sending(b, i) => b.Packets? && i <= |b.items| <= 3
    case Writing(b, i) => if b.Null? then s.incoming.released else i <= |b.items|
    case WriteOut(b, i) => b.Packets? && i < |b.items|
    case _ => true
  }

  ghost predicate WorkersOk(s: State) {
    forall w: nat :: w < |s.workers| ==> KindOk(w, s.workers[w]) && BatchOk(s, w, s.workers[w])
  }

  function Rungs(stage: Stage): nat {
    match stage
    case ClearRunning => 0
    case SignalQuit => 1
    case ReleaseOutgoing => 2
    case ReleaseIncoming => 3
    case Join(_) => 4
    case CloseSockets => 5
    case EndSession => 6
    case Done => 7
  }

  ghost predicate FlagsOk(s: State) {
    var r := Rungs(s.stage);
    && s.isRunning == (r < 1)
    && s.quit == (r >= 2)
    && s.outgoing.released == (r >= 3)
    && s.incoming.released == (r >= 4)
    && s.socketsOpen == (r < 6)
    && s.sessionOpen == (r < 7)
  }

  ghost predicate JoinOk(s: State) {
    && (s.stage.Join? ==> s.stage.next <= |s.workers|)
    && (s.stage.Join? ==> forall w: nat :: w < s.stage.next ==> s.workers[w].Exited?)
    && (Rungs(s.stage) >= 5 ==> forall w: nat :: w < |s.workers| ==> s.workers[w].Exited?)
  }

  ghost predicate ControlOk(s: State) {
    WorkersOk(s) && FlagsOk(s) && JoinOk(s)
  }

  lemma InitControlOk(pairs: nat, capacity: nat)
    ensures ControlOk(Init(pairs, capacity))
  {
  }

  /** A worker's own move keeps its counter legal: the running test between a
      pop and the first use is what rules out a null batch. */
  lemma ActKeepsWorker(s: State, w: nat, answer: Answer, pick: nat)
    requires ControlOk(s) && w < |s.workers| && !Blocked(s, w)
    ensures var pc := Act(s, w, answer, pick).0; KindOk(w, pc) && BatchOk(s, w, pc)
  {
    if s.workers[w].PopLock? || s.workers[w].Woken? {
      assert KindOk(w, s.workers[w]);
      PopKeepsWorker(s, w);
    } else {
      OtherActKeepsWorker(s, w, answer, pick);
    }
  }

  lemma PopKeepsWorker(s: State, w: nat)
    requires w == 1 || Consumes(Outgoing, w)
    ensures var pc := PopStep(s.Lane(LaneOf(w)), w).0; KindOk(w, pc) && BatchOk(s, w, pc)
  {
  }

  lemma OtherActKeepsWorker(s: State, w: nat, answer: Answer, pick: nat)
    requires ControlOk(s) && w < |s.workers| && !Blocked(s, w)
    requires !s.workers[w].PopLock? && !s.workers[w].Woken?
    ensures var pc := Act(s, w, answer, pick).0; KindOk(w, pc) && BatchOk(s, w, pc)
  {
  }

  /** Beyond its own counter, a worker's step only wakes waiters, and it leaves
      every flag alone. */
  ghost predicate Framed(s: State, t: State) {
    && t == s.(outgoing := t.outgoing, incoming := t.incoming, workers := t.workers,
               received := t.received, tried := t.tried, sent := t.sent)
    && t.outgoing.released == s.outgoing.released
    && t.incoming.released == s.incoming.released
    && |t.workers| == |s.workers|
    && (forall j :: 0 <= j < |s.workers| ==>
          t.workers[j] == s.workers[j] || (s.workers[j].Waiting? && t.workers[j] == Woken))
  }

  lemma ApplyFrame(s: State, w: nat, effect: Effect, pick: nat)
    ensures Framed(s, Apply(s, w, effect, pick))
  {
    if effect.Push? {
      PushFrame(s, w, effect.lane, effect.packet, pick);
    } else if effect.Take? {
      TakeFrame(s, w, effect.lane, effect.n, pick);
    }
  }

  lemma PushFrame(s: State, w: nat, lane: Lane, packet: Packet, pick: nat)
    ensures Framed(s, Apply(s, w, Push(lane, packet), pick))
  {
  }

  lemma TakeFrame(s: State, w: nat, lane: Lane, n: nat, pick: nat)
    ensures Framed(s, Apply(s, w, Take(lane, n), pick))
  {
  }

  lemma WorkFrame(s: State, w: nat, answer: Answer, pick: nat)
    requires w < |s.workers| && !Blocked(s, w)
    ensures var pc := Act(s, w, answer, pick).0; var t := Step(s, Work(w, answer, pick));
            Framed(s.(workers := s.workers[w := pc]), t) && t.workers[w] == pc
  {
    var (pc, effect) := Act(s, w, answer, pick);
    ApplyFrame(s.(workers := s.workers[w := pc]), w, effect, pick);
    assert effect.Push? ==> !pc.Waiting?;
  }

  lemma FrameControlOk(s: State, w: nat, pc: Worker, t: State)
    requires ControlOk(s) && w < |s.workers| && !Blocked(s, w)
    requires KindOk(w, pc) && BatchOk(s, w, pc)
    requires Framed(s.(workers := s.workers[w := pc]), t) && t.workers[w] == pc
    ensures ControlOk(t)
  {
    forall j: nat | j < |t.workers|
      ensures KindOk(j, t.workers[j]) && BatchOk(t, j, t.workers[j])
    {
      assert KindOk(j, s.workers[j]) && BatchOk(s, j, s.workers[j]);
    }
  }

  lemma MainControlOk(s: State)
    requires ControlOk(s) && Enabled(s, Main)
    ensures ControlOk(MainStep(s))
  {
    var t := MainStep(s);
    forall j: nat | j < |t.workers|
      ensures KindOk(j, t.workers[j]) && BatchOk(t, j, t.workers[j])
    {
      assert KindOk(j, s.workers[j]) && BatchOk(s, j, s.workers[j]);
    }
  }

  lemma StepControlOk(s: State, e: Event)
    requires ControlOk(s) && Enabled(s, e)
    ensures ControlOk(Step(s, e))
  {
    match e
    case Work(w, answer, pick) =>
      WorkFrame(s, w, answer, pick);
      ActKeepsWorker(s, w, answer, pick);
      FrameControlOk(s, w, Act(s, w, answer, pick).0, Step(s, e));
    case Spurious(w) =>
      forall j: nat | j < |s.workers|
        ensures KindOk(j, Step(s, e).workers[j]) && BatchOk(Step(s, e), j, Step(s, e).workers[j])
      {
        assert KindOk(j, s.workers[j]) && BatchOk(s, j, s.workers[j]);
      }
    case Main =>
      MainControlOk(s);
  }

  // ---------------------------------------------------------------- packets

  ghost function Flatten(list: seq<Taken>): seq<Packet> {
    if list == [] then [] else Flatten(list[..|list| - 1]) + list[|list| - 1].items
  }

  /** The packets in `list` that belong to worker `w`, in order. */
  ghost function Share(list: seq<Taken>, w: nat): seq<Packet> {
    if list == [] then []
    else
      var last := list[|list| - 1];
      Share(list[..|list| - 1], w) + if last.worker == w then last.items else []
  }

  lemma Append(list: seq<Taken>, t: Taken, w: nat)
    ensures Flatten(list + [t]) == Flatten(list) + t.items
    ensures Share(list + [t], w) == Share(list, w) + if t.worker == w then t.items else []
  {
    assert (list + [t])[..|list|] == list;
  }

  /** The packets let in, and the packets a worker offered, in order. */
  ghost function Kept(offers: seq<Offer>): seq<Packet> {
    if offers == [] then []
    else
      var last := offers[|offers| - 1];
      Kept(offers[..|offers| - 1]) + if last.kept then [last.packet] else []
  }

  ghost function Offered(offers: seq<Offer>, w: nat): seq<Packet> {
    if offers == [] then []
    else
      var last := offers[|offers| - 1];
      Offered(offers[..|offers| - 1], w) + if last.worker == w then [last.packet] else []
  }

  lemma AppendOffer(offers: seq<Offer>, o: Offer, w: nat)
    ensures Kept(offers + [o]) == Kept(offers) + if o.kept then [o.packet] else []
    ensures Offered(offers + [o], w) == Offered(offers, w) + if o.worker == w then [o.packet] else []
  {
    assert (offers + [o])[..|offers|] == offers;
  }

  /** Popped batches, in lock order, followed by what is still queued are the
      accepted packets: none is lost, doubled or reordered. */
  ghost predicate QueueOk(q: Queue, capacity: nat, lane: Lane) {
    && q.accepted == Flatten(q.batches) + q.items
    && q.accepted == Kept(q.offers)
    && (q.items == [] || |q.items| + 1 <= capacity)
    && (forall i :: 0 <= i < |q.batches| ==> BatchSizeOk(lane, q.batches[i]))
  }

  predicate BatchSizeOk(lane: Lane, t: Taken) {
    Consumes(lane, t.worker) && 1 <= |t.items| && (lane.Outgoing? ==> |t.items| <= 3)
  }

  lemma SplitBack(front: seq<Packet>, back: seq<Packet>, k: nat)
    requires k <= |back|
    ensures front + back == (front + back[..k]) + back[k..]
  {
  }

  lemma RemoveKeepsQueue(q: Queue, capacity: nat, lane: Lane, w: nat)
    requires QueueOk(q, capacity, lane) && q.items != [] && Consumes(lane, w)
    ensures QueueOk(Remove(q, w, Limit(lane, |q.items|)), capacity, lane)
  {
    var k := Limit(lane, |q.items|);
    var t := Taken(w, q.items[..k]);
    assert BatchSizeOk(lane, t);
    Append(q.batches, t, w);
    SplitBack(Flatten(q.batches), q.items, k);
    forall i | 0 <= i < |q.batches + [t]|
      ensures BatchSizeOk(lane, (q.batches + [t])[i])
    {
    }
  }

  /** A worker takes only from the queue it consumes, and only when that queue
      is not empty. */
  lemma ActTakes(s: State, w: nat, answer: Answer, pick: nat)
    requires w < |s.workers| && KindOk(w, s.workers[w])
    ensures var (pc, effect) := Act(s, w, answer, pick);
            effect.Take? ==>
              && effect.lane == LaneOf(w) && Consumes(LaneOf(w), w)
              && s.Lane(LaneOf(w)).items != []
              && effect.n == Limit(LaneOf(w), |s.Lane(LaneOf(w)).items|)
              && pc == AfterPop(w, Packets(s.Lane(LaneOf(w)).items[..effect.n]))
  {
  }

  lemma StepQueueOk(s: State, e: Event, lane: Lane)
    requires ControlOk(s) && QueueOk(s.Lane(lane), s.capacity, lane) && Enabled(s, e)
    ensures QueueOk(Step(s, e).Lane(lane), s.capacity, lane)
  {
    match e
    case Work(w, answer, pick) =>
      assert KindOk(w, s.workers[w]);
      ActTakes(s, w, answer, pick);
      ApplyQueueOk(s.(workers := s.workers[w := Act(s, w, answer, pick).0]), w, Act(s, w, answer, pick).1, pick, lane);
    case Spurious(w) =>
    case Main =>
  }

  lemma AcceptKeepsQueue(q: Queue, capacity: nat, lane: Lane, w: nat, p: Packet)
    requires QueueOk(q, capacity, lane)
    ensures QueueOk(Accept(q, capacity, w, p), capacity, lane)
  {
    AppendOffer(q.offers, Offer(w, p, !Full(q.items, capacity)), w);
    assert Flatten(q.batches) + (q.items + [p]) == Flatten(q.batches) + q.items + [p];
  }

  lemma ApplyQueueOk(s: State, w: nat, effect: Effect, pick: nat, lane: Lane)
    requires QueueOk(s.Lane(lane), s.capacity, lane)
    requires effect.Take? && effect.lane == lane ==>
               s.Lane(lane).items != [] && effect.n == Limit(lane, |s.Lane(lane).items|) && Consumes(lane, w)
    ensures QueueOk(Apply(s, w, effect, pick).Lane(lane), s.capacity, lane)
  {
    var q := s.Lane(lane);
    if effect.Push? && effect.lane == lane {
      AcceptKeepsQueue(q, s.capacity, lane, w, effect.packet);
    } else if effect.Take? && effect.lane == lane {
      RemoveKeepsQueue(q, s.capacity, lane, w);
    } else {
      assert Apply(s, w, effect, pick).Lane(lane) == q;
    }
  }

  // ---------------------------------------------------------------- wake-ups

  ghost function WokenIn(workers: seq<Worker>, lane: Lane): set<nat> {
    set w: nat | w < |workers| && Consumes(lane, w) && workers[w].Woken?
  }

  /** As long as some consumer waits, every one of the `n` queued packets has
      its own woken consumer that has yet to look at the queue. */
  ghost predicate Signalled(workers: seq<Worker>, n: nat, lane: Lane) {
    (exists w :: WaitsIn(workers, lane, w)) ==> n <= |WokenIn(workers, lane)|
  }

  ghost predicate SignalOk(s: State, lane: Lane) {
    Signalled(s.workers, |s.Lane(lane).items|, lane)
  }

  lemma SubsetSize(a: set<nat>, b: set<nat>)
    requires a <= b
    ensures |a| <= |b|
  {
    assert b == a + (b - a);
  }

  /** A worker's own move: it goes to wait only on an empty queue, and spends a
      wake-up only if it takes a packet, finds nothing, or nobody waits. */
  lemma MoveSignal(ws: seq<Worker>, w: nat, pc: Worker, lane: Lane, n: nat, n': nat)
    requires Signalled(ws, n, lane) && n' <= n
    requires w < |ws| && !ws[w].Waiting? && !pc.Woken?
    requires Consumes(lane, w) && pc.Waiting? ==> n' == 0
    requires Consumes(lane, w) && ws[w].Woken? ==>
               n' == 0 || n' < n || (!pc.Waiting? && forall j :: !WaitsIn(ws, lane, j))
    ensures Signalled(ws[w := pc], n', lane)
  {
    var after := ws[w := pc];
    if v :| WaitsIn(after, lane, v) {
      if n' > 0 {
        assert WaitsIn(ws, lane, v);
        SubsetSize(WokenIn(ws, lane), WokenIn(after, lane) + {w});
        if !(Consumes(lane, w) && ws[w].Woken?) {
          assert WokenIn(ws, lane) == WokenIn(after, lane);
        }
      }
    }
  }

  /** A notification: it finds a waiter whenever there is one. */
  lemma NotifySignal(ws: seq<Worker>, lane: Lane, notified: Lane, pick: nat, n: nat)
    requires Signalled(ws, n, lane)
    requires (exists j :: WaitsIn(ws, notified, j)) ==> WaitsIn(ws, notified, pick)
    ensures Signalled(Notify(ws, notified, pick), if lane == notified then n + 1 else n, lane)
  {
    var after := Notify(ws, notified, pick);
    if v :| WaitsIn(after, lane, v) {
      assert WaitsIn(ws, lane, v);
      assert WokenIn(after, lane) == if lane == notified then WokenIn(ws, lane) + {pick} else WokenIn(ws, lane);
    }
  }

  /** A worker goes to wait only on an empty queue, and spends a wake-up
      without taking anything only if the queue is empty or released. */
  lemma ActWaits(s: State, w: nat, answer: Answer, pick: nat)
    requires w < |s.workers| && KindOk(w, s.workers[w]) && !Blocked(s, w)
    ensures var (pc, effect) := Act(s, w, answer, pick);
            var q := s.Lane(LaneOf(w));
            && !pc.Woken?
            && (pc.Waiting? ==> effect.Silent? && q.items == [])
            && (s.workers[w].Woken? && !effect.Take? ==> effect.Silent? && (q.released || q.items == []))
  {
  }

  lemma ApplySignal(s: State, w: nat, effect: Effect, pick: nat, lane: Lane)
    requires effect.Take? && effect.lane == lane ==>
               Signalled(s.workers, |s.Lane(lane).items| - Min(effect.n, |s.Lane(lane).items|), lane)
    requires !(effect.Take? && effect.lane == lane) ==> SignalOk(s, lane)
    requires effect.Push? && (exists j :: WaitsIn(s.workers, effect.lane, j)) ==> WaitsIn(s.workers, effect.lane, pick)
    ensures SignalOk(Apply(s, w, effect, pick), lane)
  {
    match effect
    case Push(l, p) => PushSignal(s, w, l, p, pick, lane);
    case Take(l, n) => TakeLane(s, w, l, n, pick, lane);
    case _ => assert Apply(s, w, effect, pick).Lane(lane) == s.Lane(lane);
  }

  lemma PushSignal(s: State, w: nat, l: Lane, p: Packet, pick: nat, lane: Lane)
    requires SignalOk(s, lane)
    requires (exists j :: WaitsIn(s.workers, l, j)) ==> WaitsIn(s.workers, l, pick)
    ensures SignalOk(Apply(s, w, Push(l, p), pick), lane)
  {
    PushLane(s, w, l, p, pick, lane);
    if !Full(s.Lane(l).items, s.capacity) {
      NotifySignal(s.workers, lane, l, pick, |s.Lane(lane).items|);
    }
  }

  lemma WorkSignal(s: State, w: nat, answer: Answer, pick: nat, lane: Lane)
    requires ControlOk(s) && SignalOk(s, lane) && Enabled(s, Work(w, answer, pick))
    ensures SignalOk(Step(s, Work(w, answer, pick)), lane)
  {
    var (pc, effect) := Act(s, w, answer, pick);
    var mid := s.(workers := s.workers[w := pc]);
    assert KindOk(w, s.workers[w]);
    ActWaits(s, w, answer, pick);
    ActTakes(s, w, answer, pick);
    var n := |s.Lane(lane).items|;
    var n' := if effect.Take? && effect.lane == lane then n - Min(effect.n, n) else n;
    ReleasedMeansNoWaiter(s, lane);
    MoveSignal(s.workers, w, pc, lane, n, n');
    if effect.Push? && exists j :: WaitsIn(mid.workers, effect.lane, j) {
      var j :| WaitsIn(mid.workers, effect.lane, j);
      assert WaitsOn(s, effect.lane, j) && WaitsOn(s, effect.lane, pick);
    }
    ApplySignal(mid, w, effect, pick, lane);
  }

  lemma ReleasedMeansNoWaiter(s: State, lane: Lane)
    requires WorkersOk(s)
    ensures s.Lane(lane).released ==> forall j :: !WaitsIn(s.workers, lane, j)
  {
    forall j: nat | WaitsIn(s.workers, lane, j)
      ensures !s.Lane(lane).released
    {
      assert BatchOk(s, j, s.workers[j]);
    }
  }

  lemma NotifyAllSignal(ws: seq<Worker>, notified: Lane, n: nat, lane: Lane)
    requires Signalled(ws, n, lane)
    ensures Signalled(NotifyAll(ws, notified), n, lane)
  {
    if v :| WaitsIn(NotifyAll(ws, notified), lane, v) {
      assert WaitsIn(ws, lane, v);
      SubsetSize(WokenIn(ws, lane), WokenIn(NotifyAll(ws, notified), lane));
    }
  }

  lemma SpuriousSignal(ws: seq<Worker>, w: nat, n: nat, lane: Lane)
    requires Signalled(ws, n, lane) && w < |ws| && ws[w].Waiting?
    ensures Signalled(ws[w := Woken], n, lane)
  {
    var after := ws[w := Woken];
    if v :| WaitsIn(after, lane, v) {
      assert WaitsIn(ws, lane, v);
      SubsetSize(WokenIn(ws, lane), WokenIn(after, lane));
    }
  }

  lemma StepSignalOk(s: State, e: Event, lane: Lane)
    requires ControlOk(s) && SignalOk(s, lane) && Enabled(s, e)
    ensures SignalOk(Step(s, e), lane)
  {
    match e
    case Work(w, answer, pick) =>
      WorkSignal(s, w, answer, pick, lane);
    case Spurious(w) =>
      SpuriousSignal(s.workers, w, |s.Lane(lane).items|, lane);
    case Main =>
      NotifyAllSignal(s.workers, Outgoing, |s.Lane(lane).items|, lane);
      NotifyAllSignal(s.workers, Incoming, |s.Lane(lane).items|, lane);
  }

  // ---------------------------------------------------------------- deliveries

  /** What a consumer still holds of its last batch. */
  ghost function Held(pc: Worker): seq<Packet> {
    match pc
    case Popped(b) => if b.Packets? then b.items else []
    case Sending(b, i) => if b.Packets? && i <= |b.items| then b.items[i..] else []
    case Writing(b, i) => if b.Packets? && i <= |b.items| then b.items[i..] else []
    case WriteOut(b, i) => if b.Packets? && i <= |b.items| then b.items[i..] else []
    case _ => []
  }

  /** What a producer has in its hand. */
  ghost function InHand(pc: Worker): seq<Packet> {
    match pc
    case ReaderPush(_, p) => [p]
    case ReceivePush(p) => [p]
    case _ => []
  }

  /** The attempts of one worker, in order. */
  ghost function TriesOf(list: seq<Attempt>, w: nat): seq<Attempt> {
    if list == [] then []
    else
      var last := list[|list| - 1];
      TriesOf(list[..|list| - 1], w) + if last.worker == w then [last] else []
  }

  /** All packets tried, and those put out: the refused and the failed are left out. */
  ghost function Tried(tries: seq<Attempt>): seq<Packet> {
    if tries == [] then [] else Tried(tries[..|tries| - 1]) + [tries[|tries| - 1].packet]
  }

  ghost function Succeeded(tries: seq<Attempt>): seq<Packet> {
    if tries == [] then []
    else
      var last := tries[|tries| - 1];
      Succeeded(tries[..|tries| - 1]) + if Accepted(last.answer) then [last.packet] else []
  }

  /** Every attempt is at the first popped packet that is not out yet. */
  ghost predicate InTurn(tries: seq<Attempt>, popped: seq<Packet>) {
    tries != [] ==>
      var before := tries[..|tries| - 1];
      && InTurn(before, popped)
      && |Succeeded(before)| < |popped| && tries[|tries| - 1].packet == popped[|Succeeded(before)|]
  }

  /** Only the last attempt may have failed, and then the worker has exited. */
  ghost predicate FailsLast(tries: seq<Attempt>, pc: Worker) {
    forall j :: 0 <= j < |tries| && tries[j].answer.Failed? ==> j == |tries| - 1 && pc.Exited?
  }

  /** What is done with: a UDP sender tries until a packet is out, the WinTun writer
      tries each packet once. */
  ghost function Through(lane: Lane, tries: seq<Attempt>): seq<Packet> {
    if lane.Outgoing? then Succeeded(tries) else Tried(tries)
  }

  /** What a consumer is done with, then what it still holds, is what it has popped;
      one that has exited may have dropped the rest. */
  ghost predicate Accounts(pc: Worker, done: seq<Packet>, popped: seq<Packet>) {
    if pc.Exited? then done <= popped else done + Held(pc) == popped
  }

  ghost predicate ConsumerOk(s: State, w: nat)
    requires w < |s.workers|
  {
    Balanced(s.workers[w], LaneOf(w), TriesOf(s.tried, w), Share(s.Lane(LaneOf(w)).batches, w), Share(s.sent, w))
  }

  /** The account of one consumer. */
  ghost predicate Balanced(
    pc: Worker, lane: Lane, tries: seq<Attempt>, popped: seq<Packet>, sent: seq<Packet>)
  {
    && sent == Succeeded(tries)
    && Accounts(pc, Through(lane, tries), popped)
    && (lane.Outgoing? ==> InTurn(tries, popped) && FailsLast(tries, pc))
  }

  predicate Produces(lane: Lane, w: nat) {
    match lane
    case Outgoing => w == 0
    case Incoming => w >= 3 && w % 2 == 1
  }

  function Feeds(w: nat): Lane {
    if w == 0 then Outgoing else Incoming
  }

  /** What a producer has received is what it has offered, then what it has in hand. */
  ghost predicate ProducerOk(s: State, w: nat)
    requires w < |s.workers|
  {
    Share(s.received, w) == Offered(s.Lane(Feeds(w)).offers, w) + InHand(s.workers[w])
  }

  ghost predicate WorkerDelivers(s: State, w: nat)
    requires w < |s.workers|
  {
    && (Consumes(LaneOf(w), w) ==> ConsumerOk(s, w))
    && (Produces(Feeds(w), w) ==> ProducerOk(s, w))
  }

  ghost predicate DeliveryOk(s: State) {
    forall w: nat :: w < |s.workers| ==> WorkerDelivers(s, w)
  }

  /** A consumer tries the head of what it holds, and holds what it took. */
  ghost predicate HeldMoves(held: seq<Packet>, held': seq<Packet>, effect: Effect, lane: Lane, items: seq<Packet>) {
    match effect
    case Silent => held' == held
    case Take(l, n) => l == lane && held == [] && n <= |items| && held' == items[..n]
    case Send(p, answer) =>
      && held != [] && held[0] == p
      && held' == (if Accepted(answer) || lane.Incoming? then held[1..] else held)
      && (lane.Outgoing? ==> !answer.Failed?)
    case _ => false
  }

  /** A send that fails for good. */
  ghost predicate GivesUp(held: seq<Packet>, effect: Effect) {
    effect.Send? && effect.answer.Failed? && held != [] && held[0] == effect.packet
  }

  ghost predicate Delivers(pc: Worker, pc': Worker, effect: Effect, lane: Lane, items: seq<Packet>) {
    if pc'.Exited? then effect.Silent? || (lane.Outgoing? && GivesUp(Held(pc), effect))
    else HeldMoves(Held(pc), Held(pc'), effect, lane, items)
  }

  /** A producer has in hand what it received until it offers it. */
  ghost predicate HandsOn(pc: Worker, pc': Worker, effect: Effect, lane: Lane) {
    match effect
    case Silent => InHand(pc') == InHand(pc)
    case Gain(p) => InHand(pc) == [] && InHand(pc') == [p]
    case Push(l, p) => l == lane && InHand(pc) == [p] && InHand(pc') == []
    case _ => false
  }

  lemma ActDelivers(s: State, w: nat, answer: Answer, pick: nat)
    requires ControlOk(s) && w < |s.workers| && !Blocked(s, w) && Consumes(LaneOf(w), w)
    ensures var (pc, effect) := Act(s, w, answer, pick);
            Delivers(s.workers[w], pc, effect, LaneOf(w), s.Lane(LaneOf(w)).items)
  {
    if w == 1 {
      WriterDelivers(s, answer, pick);
    } else {
      SenderDelivers(s, w, answer, pick);
    }
  }

  lemma HeadOfRest(items: seq<Packet>, i: nat)
    requires i <= |items|
    ensures items[i..] == if i == |items| then [] else [items[i]] + items[i + 1..]
  {
  }

  lemma SenderDelivers(s: State, w: nat, answer: Answer, pick: nat)
    requires ControlOk(s) && w < |s.workers| && !Blocked(s, w) && Consumes(Outgoing, w)
    ensures var (pc, effect) := Act(s, w, answer, pick); Delivers(s.workers[w], pc, effect, Outgoing, s.outgoing.items)
  {
    assert KindOk(w, s.workers[w]) && BatchOk(s, w, s.workers[w]);
    match s.workers[w]
    case Popped(b) => assert b.Packets? ==> b.items[0..] == b.items;
    case Sending(b, i) => HeadOfRest(b.items, i);
    case PopLock => PopDelivers(s.outgoing, w, PopLock);
    case Woken => PopDelivers(s.outgoing, w, Woken);
    case _ =>
  }

  lemma WriterDelivers(s: State, answer: Answer, pick: nat)
    requires ControlOk(s) && 1 < |s.workers| && !Blocked(s, 1)
    ensures var (pc, effect) := Act(s, 1, answer, pick); Delivers(s.workers[1], pc, effect, Incoming, s.incoming.items)
  {
    assert KindOk(1, s.workers[1]) && BatchOk(s, 1, s.workers[1]);
    match s.workers[1]
    case Writing(b, i) => WriterMoves(s, answer, pick, b, i);
    case WriteOut(b, i) => WriterMoves(s, answer, pick, b, i);
    case PopLock => PopDelivers(s.incoming, 1, PopLock);
    case Woken => PopDelivers(s.incoming, 1, Woken);
    case _ =>
  }

  lemma WriterMoves(s: State, answer: Answer, pick: nat, b: Batch, i: nat)
    requires 1 < |s.workers| && (s.workers[1] == Writing(b, i) || s.workers[1] == WriteOut(b, i))
    requires BatchOk(s, 1, s.workers[1]) && FlagsOk(s) && JoinOk(s)
    ensures var (pc, effect) := Act(s, 1, answer, pick); Delivers(s.workers[1], pc, effect, Incoming, s.incoming.items)
  {
    if b.Packets? {
      HeadOfRest(b.items, i);
    }
  }

  /** A pop holds what it took. */
  lemma PopDelivers(q: Queue, w: nat, from: Worker)
    requires from.PopLock? || from.Woken?
    ensures var (pc, effect) := PopStep(q, w); Delivers(from, pc, effect, LaneOf(w), q.items)
  {
    var n := Limit(LaneOf(w), |q.items|);
    assert q.items[..n][0..] == q.items[..n];
  }

  lemma ActHandsOn(s: State, w: nat, answer: Answer, pick: nat)
    requires ControlOk(s) && w < |s.workers| && !Blocked(s, w) && Produces(Feeds(w), w)
    ensures var (pc, effect) := Act(s, w, answer, pick); HandsOn(s.workers[w], pc, effect, Feeds(w))
  {
    assert KindOk(w, s.workers[w]);
  }

  lemma AccountsAfter(held: seq<Packet>, held': seq<Packet>, effect: Effect, lane: Lane, items: seq<Packet>,
                      w: nat, tries: seq<Attempt>, popped: seq<Packet>)
    requires Through(lane, tries) + held == popped && HeldMoves(held, held', effect, lane, items)
    ensures Through(lane, tries + TriedNow(w, effect)) + held'
         == popped + (if effect.Take? then items[..effect.n] else [])
  {
    var done := Through(lane, tries);
    if effect.Send? {
      TryAppend(tries, TriedNow(w, effect)[0]);
      assert done + held == (done + [held[0]]) + held[1..];
    } else {
      assert tries + [] == tries && popped + [] == popped;
    }
  }

  lemma TryAppend(tries: seq<Attempt>, a: Attempt)
    ensures Tried(tries + [a]) == Tried(tries) + [a.packet]
    ensures Succeeded(tries + [a]) == Succeeded(tries) + if Accepted(a.answer) then [a.packet] else []
  {
    assert (tries + [a])[..|tries|] == tries;
  }

  lemma {:induction false} InTurnMore(tries: seq<Attempt>, popped: seq<Packet>, more: seq<Packet>)
    requires InTurn(tries, popped)
    ensures InTurn(tries, popped + more)
    decreases |tries|
  {
    if tries != [] {
      InTurnMore(tries[..|tries| - 1], popped, more);
    }
  }

  /** The next attempt is in turn when it is at the head of what is held. */
  lemma InTurnNext(tries: seq<Attempt>, held: seq<Packet>, a: Attempt, popped: seq<Packet>)
    requires InTurn(tries, popped) && Succeeded(tries) + held == popped
    requires held != [] && held[0] == a.packet
    ensures InTurn(tries + [a], popped)
  {
    assert (tries + [a])[..|tries|] == tries;
    assert popped[|Succeeded(tries)|] == held[0];
  }

  /** What an effect adds to the histories. */
  function TriedNow(w: nat, effect: Effect): seq<Attempt> {
    if effect.Send? then [Attempt(w, effect.packet, effect.answer)] else []
  }

  function SentNow(w: nat, effect: Effect): seq<Taken> {
    if effect.Send? && Accepted(effect.answer) then [Taken(w, [effect.packet])] else []
  }

  function ReceivedNow(w: nat, effect: Effect): seq<Taken> {
    if effect.Gain? then [Taken(w, [effect.packet])] else []
  }

  function PoppedNow(s: State, w: nat, effect: Effect, lane: Lane): seq<Taken> {
    if effect.Take? && effect.lane == lane
    then [Taken(w, s.Lane(lane).items[..Min(effect.n, |s.Lane(lane).items|)])]
    else []
  }

  function OfferedNow(s: State, w: nat, effect: Effect, lane: Lane): seq<Offer> {
    if effect.Push? && effect.lane == lane then [Offer(w, effect.packet, !Full(s.Lane(lane).items, s.capacity))] else []
  }

  lemma ApplyHistories(s: State, w: nat, effect: Effect, pick: nat)
    ensures var t := Apply(s, w, effect, pick);
            && t.tried == s.tried + TriedNow(w, effect)
            && t.sent == s.sent + SentNow(w, effect)
            && t.received == s.received + ReceivedNow(w, effect)
  {
    match effect
    case Gain(p) =>
    case Send(p, answer) =>
    case Push(lane, p) => assert Apply(s, w, effect, pick).tried == s.tried;
    case Take(lane, n) => assert Apply(s, w, effect, pick).tried == s.tried;
    case Silent =>
  }

  lemma ApplyLaneHistories(s: State, w: nat, effect: Effect, pick: nat, lane: Lane)
    ensures var q, q' := s.Lane(lane), Apply(s, w, effect, pick).Lane(lane);
            && q'.batches == q.batches + PoppedNow(s, w, effect, lane)
            && q'.offers == q.offers + OfferedNow(s, w, effect, lane)
  {
    if effect.Push? || effect.Take? {
      QueueHistories(s, w, effect, pick, lane);
    } else {
      assert Apply(s, w, effect, pick).Lane(lane) == s.Lane(lane);
    }
  }

  lemma QueueHistories(s: State, w: nat, effect: Effect, pick: nat, lane: Lane)
    requires effect.Push? || effect.Take?
    ensures var q, q' := s.Lane(lane), Apply(s, w, effect, pick).Lane(lane);
            && q'.batches == q.batches + PoppedNow(s, w, effect, lane)
            && q'.offers == q.offers + OfferedNow(s, w, effect, lane)
  {
    match effect
    case Push(l, p) => PushLane(s, w, l, p, pick, lane);
    case Take(l, n) => TakeLane(s, w, l, n, pick, lane);
  }

  lemma PushLane(s: State, w: nat, l: Lane, p: Packet, pick: nat, lane: Lane)
    ensures Apply(s, w, Push(l, p), pick).Lane(lane)
         == if l == lane then Accept(s.Lane(lane), s.capacity, w, p) else s.Lane(lane)
  {
  }

  lemma TakeLane(s: State, w: nat, l: Lane, n: nat, pick: nat, lane: Lane)
    ensures Apply(s, w, Take(l, n), pick).Lane(lane)
         == if l == lane then Remove(s.Lane(lane), w, n) else s.Lane(lane)
  {
  }

  lemma ShareOfLonger(list: seq<Taken>, more: seq<Taken>, v: nat)
    requires |more| <= 1
    ensures Share(list + more, v) == Share(list, v) + if |more| == 1 && more[0].worker == v then more[0].items else []
  {
    if |more| == 1 {
      assert more == [more[0]];
      Append(list, more[0], v);
    } else {
      assert list + more == list;
    }
  }

  lemma TriesOfLonger(list: seq<Attempt>, more: seq<Attempt>, v: nat)
    requires |more| <= 1
    ensures TriesOf(list + more, v) == TriesOf(list, v) + if |more| == 1 && more[0].worker == v then more else []
  {
    if |more| == 1 {
      assert (list + more)[..|list|] == list && more == [more[0]];
    } else {
      assert list + more == list;
    }
  }

  lemma OfferedOfLonger(offers: seq<Offer>, more: seq<Offer>, v: nat)
    requires |more| <= 1
    ensures Offered(offers + more, v)
         == Offered(offers, v) + if |more| == 1 && more[0].worker == v then [more[0].packet] else []
  {
    if |more| == 1 {
      assert more == [more[0]];
      AppendOffer(offers, more[0], v);
    } else {
      assert offers + more == offers;
    }
  }

  /** The histories of `v` after `w` has had an effect on them. */
  ghost predicate HistoriesOf(s: State, t: State, w: nat, effect: Effect, v: nat) {
    && TriesOf(t.tried, v) == TriesOf(s.tried, v) + (if v == w then TriedNow(w, effect) else [])
    && Share(t.sent, v) == Share(s.sent, v)
         + (if effect.Send? && Accepted(effect.answer) && v == w then [effect.packet] else [])
    && Share(t.received, v) == Share(s.received, v) + (if effect.Gain? && v == w then [effect.packet] else [])
  }

  ghost predicate LaneHistoriesOf(s: State, t: State, w: nat, effect: Effect, v: nat, lane: Lane) {
    var q, q' := s.Lane(lane), t.Lane(lane);
    && Share(q'.batches, v) == Share(q.batches, v)
         + (if effect.Take? && effect.lane == lane && v == w then q.items[..Min(effect.n, |q.items|)] else [])
    && Offered(q'.offers, v) == Offered(q.offers, v)
         + (if effect.Push? && effect.lane == lane && v == w then [effect.packet] else [])
  }

  lemma ApplyShares(s: State, w: nat, effect: Effect, pick: nat, v: nat)
    ensures HistoriesOf(s, Apply(s, w, effect, pick), w, effect, v)
  {
    ApplyHistories(s, w, effect, pick);
    TriesOfLonger(s.tried, TriedNow(w, effect), v);
    ShareOfLonger(s.sent, SentNow(w, effect), v);
    ShareOfLonger(s.received, ReceivedNow(w, effect), v);
  }

  lemma ApplyLaneShares(s: State, w: nat, effect: Effect, pick: nat, v: nat, lane: Lane)
    ensures LaneHistoriesOf(s, Apply(s, w, effect, pick), w, effect, v, lane)
  {
    ApplyLaneHistories(s, w, effect, pick, lane);
    ShareOfLonger(s.Lane(lane).batches, PoppedNow(s, w, effect, lane), v);
    OfferedOfLonger(s.Lane(lane).offers, OfferedNow(s, w, effect, lane), v);
  }

  lemma WorkDelivery(s: State, w: nat, answer: Answer, pick: nat, v: nat)
    requires ControlOk(s) && Enabled(s, Work(w, answer, pick))
    requires v < |s.workers| && WorkerDelivers(s, v)
    ensures WorkerDelivers(Step(s, Work(w, answer, pick)), v)
  {
    var (pc, effect) := Act(s, w, answer, pick);
    var mid := s.(workers := s.workers[w := pc]);
    WorkFrame(s, w, answer, pick);
    ApplyShares(mid, w, effect, pick, v);
    ApplyLaneShares(mid, w, effect, pick, v, LaneOf(v));
    ApplyLaneShares(mid, w, effect, pick, v, Feeds(v));
    if v == w {
      if Consumes(LaneOf(w), w) {
        ActDelivers(s, w, answer, pick);
      }
      if Produces(Feeds(w), w) {
        ActHandsOn(s, w, answer, pick);
      }
      OwnDelivery(s, w, pc, effect, Apply(mid, w, effect, pick));
    } else {
      OtherDelivery(s, w, effect, Apply(mid, w, effect, pick), v);
    }
  }

  lemma OwnDelivery(s: State, w: nat, pc: Worker, effect: Effect, t: State)
    requires w < |s.workers| == |t.workers| && !Blocked(s, w) && t.workers[w] == pc && WorkerDelivers(s, w)
    requires Consumes(LaneOf(w), w) ==> Delivers(s.workers[w], pc, effect, LaneOf(w), s.Lane(LaneOf(w)).items)
    requires Produces(Feeds(w), w) ==> HandsOn(s.workers[w], pc, effect, Feeds(w))
    requires HistoriesOf(s, t, w, effect, w)
    requires LaneHistoriesOf(s, t, w, effect, w, LaneOf(w)) && LaneHistoriesOf(s, t, w, effect, w, Feeds(w))
    ensures WorkerDelivers(t, w)
  {
    if Consumes(LaneOf(w), w) {
      OwnConsumption(s, w, pc, effect, t, LaneOf(w));
    }
  }

  lemma OwnConsumption(s: State, w: nat, pc: Worker, effect: Effect, t: State, lane: Lane)
    requires w < |s.workers| == |t.workers| && !Blocked(s, w) && t.workers[w] == pc
    requires lane == LaneOf(w) && Consumes(lane, w) && ConsumerOk(s, w)
    requires Delivers(s.workers[w], pc, effect, lane, s.Lane(lane).items)
    requires HistoriesOf(s, t, w, effect, w) && LaneHistoriesOf(s, t, w, effect, w, lane)
    ensures ConsumerOk(t, w)
  {
    var tries, popped, sent := TriesOf(s.tried, w), Share(s.Lane(lane).batches, w), Share(s.sent, w);
    var tries', popped', sent' := TriesOf(t.tried, w), Share(t.Lane(lane).batches, w), Share(t.sent, w);
    if effect.Send? {
      assert popped' == popped;
      SendBalances(s.workers[w], pc, effect, lane, s.Lane(lane).items, w, tries, popped, sent);
    } else {
      assert tries' == tries && sent' == sent;
      if effect.Take? {
        assert popped' == popped + s.Lane(lane).items[..effect.n];
      } else {
        assert popped' == popped + [];
      }
      OtherBalances(s.workers[w], pc, effect, lane, s.Lane(lane).items, w, tries, popped, sent);
    }
  }

  lemma SendBalances(from: Worker, pc: Worker, effect: Effect, lane: Lane, items: seq<Packet>, w: nat,
                     tries: seq<Attempt>, popped: seq<Packet>, sent: seq<Packet>)
    requires Balanced(from, lane, tries, popped, sent) && !from.Exited? && effect.Send?
    requires Delivers(from, pc, effect, lane, items)
    ensures Balanced(pc, lane, tries + TriedNow(w, effect), popped,
                     sent + if Accepted(effect.answer) then [effect.packet] else [])
  {
    var a := TriedNow(w, effect)[0];
    TryAppend(tries, a);
    if lane.Outgoing? {
      InTurnNext(tries, Held(from), a, popped);
    }
    if !pc.Exited? {
      AccountsAfter(Held(from), Held(pc), effect, lane, items, w, tries, popped);
    }
  }

  lemma OtherBalances(from: Worker, pc: Worker, effect: Effect, lane: Lane, items: seq<Packet>, w: nat,
                      tries: seq<Attempt>, popped: seq<Packet>, sent: seq<Packet>)
    requires Balanced(from, lane, tries, popped, sent) && !from.Exited? && !effect.Send?
    requires Delivers(from, pc, effect, lane, items)
    ensures Balanced(pc, lane, tries, popped + (if effect.Take? then items[..effect.n] else []), sent)
  {
    if effect.Take? {
      InTurnTaken(tries, lane, popped, items[..effect.n]);
    } else {
      assert popped + [] == popped;
    }
    if !pc.Exited? {
      AccountsAfter(Held(from), Held(pc), effect, lane, items, w, tries, popped);
      assert tries + [] == tries;
    }
  }

  lemma InTurnTaken(tries: seq<Attempt>, lane: Lane, popped: seq<Packet>, more: seq<Packet>)
    requires lane.Outgoing? ==> InTurn(tries, popped)
    ensures lane.Outgoing? ==> InTurn(tries, popped + more)
  {
    if lane.Outgoing? {
      InTurnMore(tries, popped, more);
    }
  }

  lemma OtherDelivery(s: State, w: nat, effect: Effect, t: State, v: nat)
    requires v < |s.workers| == |t.workers| && v != w && WorkerDelivers(s, v)
    requires t.workers[v] == s.workers[v] || (s.workers[v].Waiting? && t.workers[v] == Woken)
    requires HistoriesOf(s, t, w, effect, v)
    requires LaneHistoriesOf(s, t, w, effect, v, LaneOf(v)) && LaneHistoriesOf(s, t, w, effect, v, Feeds(v))
    ensures WorkerDelivers(t, v)
  {
    assert TriesOf(t.tried, v) == TriesOf(s.tried, v) && Share(t.sent, v) == Share(s.sent, v);
    assert Share(t.Lane(LaneOf(v)).batches, v) == Share(s.Lane(LaneOf(v)).batches, v);
  }

  lemma StepDeliveryOk(s: State, e: Event)
    requires ControlOk(s) && DeliveryOk(s) && Enabled(s, e)
    ensures DeliveryOk(Step(s, e))
  {
    var t := Step(s, e);
    if e.Work? {
      WorkFrame(s, e.w, e.answer, e.pick);
    }
    forall v: nat | v < |t.workers|
      ensures WorkerDelivers(t, v)
    {
      assert WorkerDelivers(s, v);
      if e.Work? {
        WorkDelivery(s, e.w, e.answer, e.pick, v);
      }
    }
  }

  // ---------------------------------------------------------------- all runs

  ghost predicate Inv(s: State) {
    && ControlOk(s)
    && DeliveryOk(s)
    && LaneOk(s, Outgoing)
    && LaneOk(s, Incoming)
  }

  ghost predicate LaneOk(s: State, lane: Lane) {
    QueueOk(s.Lane(lane), s.capacity, lane) && SignalOk(s, lane)
  }

  lemma InitInv(pairs: nat, capacity: nat)
    ensures Inv(Init(pairs, capacity))
  {
    InitControlOk(pairs, capacity);
  }

  lemma {:induction false} RunInv(s: State, es: seq<Event>)
    requires Inv(s) && Run(s, es)
    ensures Inv(End(s, es))
    decreases |es|
  {
    if es != [] {
      StepControlOk(s, es[0]);
      StepDeliveryOk(s, es[0]);
      StepQueueOk(s, es[0], Outgoing);
      StepQueueOk(s, es[0], Incoming);
      StepSignalOk(s, es[0], Outgoing);
      StepSignalOk(s, es[0], Incoming);
      RunInv(Step(s, es[0]), es[1..]);
    }
  }

  /** In no run does a worker use a null batch, a closed socket or an ended
      session. */
  lemma NeverCrashes(pairs: nat, capacity: nat, es: seq<Event>, w: nat)
    requires Run(Init(pairs, capacity), es)
    ensures var s := End(Init(pairs, capacity), es); w < |s.workers| ==> !s.workers[w].Crashed?
  {
    InitInv(pairs, capacity);
    RunInv(Init(pairs, capacity), es);
    var s := End(Init(pairs, capacity), es);
    assert w < |s.workers| ==> KindOk(w, s.workers[w]);
  }

  /** Which worker popped position `k` of the packets popped so far. */
  ghost function Owner(list: seq<Taken>, k: nat): nat
    requires k < |Flatten(list)|
  {
    var before := list[..|list| - 1];
    if k < |Flatten(before)| then Owner(before, k) else list[|list| - 1].worker
  }

  /** The positions that worker `w` popped, in the order it popped them. */
  ghost function Positions(list: seq<Taken>, w: nat): (ps: seq<nat>)
  {
    if list == [] then []
    else
      var before, last := list[..|list| - 1], list[|list| - 1];
      Positions(before, w)
        + if last.worker == w then seq(|last.items|, i => |Flatten(before)| + i) else []
  }

  /** A worker's share is read off at strictly increasing positions, and these
      positions are exactly the ones it owns. */
  lemma {:induction false} ShareAtPositions(list: seq<Taken>, w: nat)
    ensures var ps := Positions(list, w);
            && |Share(list, w)| == |ps|
            && (forall i :: 0 <= i < |ps| ==> ps[i] < |Flatten(list)| && Share(list, w)[i] == Flatten(list)[ps[i]])
            && (forall i, j :: 0 <= i < j < |ps| ==> ps[i] < ps[j])
            && (forall k: nat :: k < |Flatten(list)| ==> (k in ps <==> Owner(list, k) == w))
  {
    if list != [] {
      var before, last := list[..|list| - 1], list[|list| - 1];
      ShareAtPositions(before, w);
      var own: seq<nat> := if last.worker == w then seq(|last.items|, i => |Flatten(before)| + i) else [];
      assert Positions(list, w) == Positions(before, w) + own;
      forall k: nat | k < |Flatten(list)|
        ensures k in Positions(list, w) <==> Owner(list, k) == w
      {
        if k < |Flatten(before)| {
          assert k !in own;
        } else if last.worker == w {
          assert own[k - |Flatten(before)|] == k;
        }
      }
    }
  }

  /** In every run, every accepted packet is either still queued, in order, or
      was popped by exactly one consumer; batches hold one to three packets on
      the way out; and each consumer popped its packets in the order of arrival. */
  lemma PacketsAreConserved(pairs: nat, capacity: nat, es: seq<Event>, lane: Lane, w: nat)
    requires Run(Init(pairs, capacity), es)
    ensures var s := End(Init(pairs, capacity), es);
            var q := s.Lane(lane);
            var popped := Flatten(q.batches);
            var ps := Positions(q.batches, w);
            && q.accepted == popped + q.items
            && (forall i :: 0 <= i < |q.batches| ==> BatchSizeOk(lane, q.batches[i]))
            && (forall i, j :: 0 <= i < j < |ps| ==> ps[i] < ps[j])
            && (forall k: nat :: k < |popped| ==> (k in ps <==> Owner(q.batches, k) == w))
            && |Share(q.batches, w)| == |ps|
            && (forall i :: 0 <= i < |ps| ==> ps[i] < |popped| && Share(q.batches, w)[i] == q.accepted[ps[i]])
  {
    var s := End(Init(pairs, capacity), es);
    InitInv(pairs, capacity);
    RunInv(Init(pairs, capacity), es);
    assert LaneOk(s, lane);
    ShareAtPositions(s.Lane(lane).batches, w);
  }

  /** In every run, on either way through the driver: what a producer received is
      what it offered to the queue and what it has in hand; the accepted packets
      are the offered ones that found room; what a consumer popped is what it is
      done with and what it holds, or dropped when it stopped. What it put out is
      what it tried without the refused and the failed attempts, and a UDP sender's
      attempts are each at the first popped packet that is not out yet; only its
      last can have failed for good. */
  lemma PacketsPassThrough(pairs: nat, capacity: nat, es: seq<Event>, lane: Lane, w: nat)
    requires Run(Init(pairs, capacity), es)
    requires w < |End(Init(pairs, capacity), es).workers|
    ensures var s := End(Init(pairs, capacity), es);
            var q, tries := s.Lane(lane), TriesOf(s.tried, w);
            && (Produces(lane, w) ==> Share(s.received, w) == Offered(q.offers, w) + InHand(s.workers[w]))
            && q.accepted == Kept(q.offers)
            && (Consumes(lane, w) ==>
                  && Through(lane, tries) <= Share(q.batches, w)
                  && (s.workers[w] != Exited ==> Through(lane, tries) + Held(s.workers[w]) == Share(q.batches, w))
                  && Share(s.sent, w) == Succeeded(tries)
                  && (lane.Outgoing? ==> InTurn(tries, Share(q.batches, w)) && FailsLast(tries, s.workers[w])))
  {
    var s := End(Init(pairs, capacity), es);
    InitInv(pairs, capacity);
    RunInv(Init(pairs, capacity), es);
    assert LaneOk(s, lane) && WorkerDelivers(s, w);
  }

  /** In every run: while anyone waits on a queue, at least as many consumers
      are awake on their way to it as it holds packets. */
  lemma NoLostWakeup(pairs: nat, capacity: nat, es: seq<Event>, lane: Lane, v: nat)
    requires Run(Init(pairs, capacity), es)
    requires WaitsOn(End(Init(pairs, capacity), es), lane, v)
    ensures var s := End(Init(pairs, capacity), es);
            && !s.Lane(lane).released
            && |s.Lane(lane).items| <= |WokenIn(s.workers, lane)|
            && (s.Lane(lane).items != [] ==>
                  exists u: nat :: u < |s.workers| && Consumes(lane, u) && s.workers[u].Woken?)
  {
    var s := End(Init(pairs, capacity), es);
    InitInv(pairs, capacity);
    RunInv(Init(pairs, capacity), es);
    assert LaneOk(s, lane) && BatchOk(s, v, s.workers[v]);
    if s.Lane(lane).items != [] {
      var u :| u in WokenIn(s.workers, lane);
    }
  }

  // ---------------------------------------------------------------- shutdown

  /** From the moment both queues have been released. */
  ghost predicate Stopping(s: State) {
    ControlOk(s) && Rungs(s.stage) >= 4
  }

  /** How many more steps a worker can make once the driver is stopping. */
  function Rank(pc: Worker): nat {
    match pc
    case Exited => 0
    case Crashed => 0
    case ReaderLoop(_) => 1
    case PopLoop => 1
    case SelectLoop => 1
    case Popped(_) => 1
    case SelectTimeout => 1
    case ReceiveCheck => 1
    case ReaderRelease(_) => 2
    case ReaderWait => 2
    case ReceivePush(_) => 2
    case Writing(_, _) => 2
    case ReaderPush(_, _) => 3
    case WriteOut(_, _) => 3
    case PopLock => 3
    case Woken => 3
    case Receive => 3
    case ReaderReceive(_) => 4
    case PopEnter => 4
    case Select => 4
    case Waiting => 4
    case Sending(b, i) => if i < b.Size() then 2 + b.Size() - i else 2
  }

  function MainRank(s: State): nat {
    match s.stage
    case Join(k) => if k < |s.workers| then 3 + |s.workers| - k else 3
    case stage => 7 - Rungs(stage)
  }

  /** The one step that makes no progress: a send that would block. */
  predicate Retries(s: State, e: Event, w: nat) {
    e.Work? && e.w == w && e.answer.WouldBlock? && w < |s.workers| && s.workers[w].Sending?
  }

  ghost function RetryCount(s: State, es: seq<Event>, w: nat): nat
    decreases |es|
  {
    if es == [] then 0
    else (if Retries(s, es[0], w) then 1 else 0) + RetryCount(Step(s, es[0]), es[1..], w)
  }

  ghost function StepCount(es: seq<Event>, w: nat): nat {
    if es == [] then 0
    else (if es[0].Work? && es[0].w == w then 1 else 0) + StepCount(es[1..], w)
  }

  ghost function MainCount(es: seq<Event>): nat {
    if es == [] then 0 else (if es[0].Main? then 1 else 0) + MainCount(es[1..])
  }

  lemma ActRank(s: State, w: nat, answer: Answer, pick: nat)
    requires w < |s.workers| && KindOk(w, s.workers[w]) && BatchOk(s, w, s.workers[w]) && !Blocked(s, w)
    requires !s.isRunning && s.outgoing.released && s.incoming.released
    ensures Rank(Act(s, w, answer, pick).0) + 1
         <= Rank(s.workers[w]) + if Retries(s, Work(w, answer, pick), w) then 1 else 0
  {
  }

  lemma StepRank(s: State, e: Event, w: nat)
    requires Stopping(s) && Enabled(s, e) && w < |s.workers|
    ensures var t := Step(s, e);
            && Stopping(t) && |t.workers| == |s.workers|
            && Rank(t.workers[w]) + (if e.Work? && e.w == w then 1 else 0)
                 <= Rank(s.workers[w]) + (if Retries(s, e, w) then 1 else 0)
            && MainRank(t) + (if e.Main? then 1 else 0) <= MainRank(s)
  {
    StepControlOk(s, e);
    NobodyWaits(s);
    match e
    case Work(v, answer, pick) =>
      assert KindOk(v, s.workers[v]) && BatchOk(s, v, s.workers[v]);
      WorkFrame(s, v, answer, pick);
      ActRank(s, v, answer, pick);
      assert KindOk(w, s.workers[w]) && !WaitsOn(s, Outgoing, w) && !WaitsOn(s, Incoming, w);
    case Spurious(v) =>
      WaiterConsumes(s, v);
      assert false;
    case Main =>
  }

  /** After the release every worker makes at most as many further steps as its
      counter ranks, plus one for each send that would block. */
  lemma {:induction false} WorkersRunOut(s: State, es: seq<Event>, w: nat)
    requires Stopping(s) && Run(s, es) && w < |s.workers|
    ensures var t := End(s, es);
            && Stopping(t) && |t.workers| == |s.workers|
            && StepCount(es, w) + Rank(t.workers[w]) <= Rank(s.workers[w]) + RetryCount(s, es, w)
            && MainCount(es) + MainRank(t) <= MainRank(s)
    decreases |es|
  {
    if es != [] {
      StepRank(s, es[0], w);
      WorkersRunOut(Step(s, es[0]), es[1..], w);
    }
  }

  lemma WaiterConsumes(s: State, w: nat)
    requires WorkersOk(s) && w < |s.workers| && s.workers[w].Waiting?
    ensures WaitsOn(s, LaneOf(w), w)
  {
    assert KindOk(w, s.workers[w]);
  }

  lemma NobodyWaits(s: State)
    requires Stopping(s)
    ensures forall lane, j: nat :: !WaitsOn(s, lane, j)
  {
    forall lane: Lane, j: nat
      ensures !WaitsOn(s, lane, j)
    {
      assert j < |s.workers| ==> KindOk(j, s.workers[j]) && BatchOk(s, j, s.workers[j]);
    }
  }

  // ---------------------------------------------------------------- the whole shutdown

  function TotalRank(workers: seq<Worker>): nat {
    if workers == [] then 0 else TotalRank(workers[..|workers| - 1]) + Rank(workers[|workers| - 1])
  }

  /** Only the step of `v` counts, and one refused send makes up for it. */
  lemma {:induction false} TotalRankDrops(before: seq<Worker>, after: seq<Worker>, v: nat, refused: bool)
    requires |before| == |after|
    requires forall w: nat :: w < |before| && w != v ==> Rank(after[w]) <= Rank(before[w])
    requires v < |before| ==> Rank(after[v]) + 1 <= Rank(before[v]) + if refused then 1 else 0
    ensures TotalRank(after) + (if v < |before| then 1 else 0)
         <= TotalRank(before) + if refused && v < |before| then 1 else 0
    decreases |before|
  {
    if before != [] {
      var n := |before| - 1;
      TotalRankDrops(before[..n], after[..n], v, refused);
    }
  }

  lemma {:induction false} TotalRankBound(workers: seq<Worker>)
    requires forall w: nat :: w < |workers| ==> Rank(workers[w]) <= 5
    ensures TotalRank(workers) <= 5 * |workers|
    decreases |workers|
  {
    if workers != [] {
      TotalRankBound(workers[..|workers| - 1]);
    }
  }

  /** A send that would block, by whichever sender. */
  predicate Refused(s: State, e: Event) {
    e.Work? && Retries(s, e, e.w)
  }

  ghost function Refusals(s: State, es: seq<Event>): nat
    decreases |es|
  {
    if es == [] then 0
    else (if Refused(s, es[0]) then 1 else 0) + Refusals(Step(s, es[0]), es[1..])
  }

  ghost function Distance(s: State): nat {
    TotalRank(s.workers) + MainRank(s)
  }

  lemma StepDistance(s: State, e: Event)
    requires Stopping(s) && Enabled(s, e)
    ensures var t := Step(s, e);
            Stopping(t) && Distance(t) + 1 <= Distance(s) + if Refused(s, e) then 1 else 0
  {
    var t := Step(s, e);
    StepKeepsCount(s, e);
    StepControlOk(s, e);
    var v := if e.Work? then e.w else |s.workers|;
    forall w: nat | w < |s.workers|
      ensures w != v ==> Rank(t.workers[w]) <= Rank(s.workers[w])
      ensures w == v ==> Rank(t.workers[w]) + 1 <= Rank(s.workers[w]) + if Refused(s, e) then 1 else 0
      ensures MainRank(t) + (if e.Main? then 1 else 0) <= MainRank(s)
    {
      StepRank(s, e, w);
    }
    TotalRankDrops(s.workers, t.workers, v, Refused(s, e));
    MainOrWork(s, e);
  }

  /** Nobody waits any more, so nothing wakes spuriously. */
  lemma MainOrWork(s: State, e: Event)
    requires Stopping(s) && Enabled(s, e)
    ensures !e.Spurious? && MainRank(Step(s, e)) + (if e.Main? then 1 else 0) <= MainRank(s)
  {
    NobodyWaits(s);
    match e
    case Work(w, answer, pick) => WorkFrame(s, w, answer, pick);
    case Spurious(w) => WaiterConsumes(s, w);
    case Main =>
  }

  lemma StepKeepsCount(s: State, e: Event)
    requires Enabled(s, e)
    ensures |Step(s, e).workers| == |s.workers|
  {
    if e.Work? {
      WorkFrame(s, e.w, e.answer, e.pick);
    }
  }

  lemma {:induction false} RunKeepsCount(s: State, es: seq<Event>)
    requires Run(s, es)
    ensures |End(s, es).workers| == |s.workers|
    decreases |es|
  {
    if es != [] {
      StepKeepsCount(s, es[0]);
      RunKeepsCount(Step(s, es[0]), es[1..]);
    }
  }

  lemma {:induction false} RunDistance(s: State, es: seq<Event>)
    requires Stopping(s) && Run(s, es)
    ensures Stopping(End(s, es)) && |es| + Distance(End(s, es)) <= Distance(s) + Refusals(s, es)
    decreases |es|
  {
    if es != [] {
      StepDistance(s, es[0]);
      RunDistance(Step(s, es[0]), es[1..]);
    }
  }

  lemma StoppingDistance(s: State)
    requires Stopping(s)
    ensures Distance(s) <= 6 * |s.workers| + 3
  {
    forall w: nat | w < |s.workers|
      ensures Rank(s.workers[w]) <= 5
    {
      assert BatchOk(s, w, s.workers[w]);
    }
    TotalRankBound(s.workers);
  }

  /** In every run from the start, once both queues have been released the driver
      makes at most 12 further steps for each pair of socket workers and 15 more,
      besides refused sends; and where it can go no further, all workers have exited
      and the sockets and the session are closed. */
  lemma ShutdownCompletes(pairs: nat, capacity: nat, es: seq<Event>, more: seq<Event>)
    requires Run(Init(pairs, capacity), es) && Rungs(End(Init(pairs, capacity), es).stage) >= 4
    requires Run(End(Init(pairs, capacity), es), more)
    ensures var s := End(Init(pairs, capacity), es);
            var t := End(s, more);
            && |more| <= 12 * pairs + 15 + Refusals(s, more)
            && ((forall e :: !Enabled(t, e)) ==>
                  && t.stage.Done? && !t.socketsOpen && !t.sessionOpen
                  && forall w: nat :: w < |t.workers| ==> t.workers[w].Exited?)
  {
    var s := End(Init(pairs, capacity), es);
    InitInv(pairs, capacity);
    RunInv(Init(pairs, capacity), es);
    RunKeepsCount(Init(pairs, capacity), es);
    StoppingDistance(s);
    RunDistance(s, more);
    if forall e :: !Enabled(End(s, more), e) {
      StuckOnlyWhenDone(End(s, more));
    }
  }

  /** And nothing can hang: a run stops only when all workers have exited and
      the resources are closed. */
  lemma StuckOnlyWhenDone(s: State)
    requires Stopping(s)
    requires forall e :: !Enabled(s, e)
    ensures s.stage.Done? && forall w: nat :: w < |s.workers| ==> s.workers[w].Exited?
  {
    forall w: nat | w < |s.workers|
      ensures s.workers[w].Exited?
    {
      assert KindOk(w, s.workers[w]) && BatchOk(s, w, s.workers[w]);
      assert !Enabled(s, Work(w, Ok, 0));
      NobodyWaits(s);
    }
    assert !Enabled(s, Main);
  }

  /** The order matters: were a queue released while the driver still runs, a
      sender at its loop could go on to use a null batch. */
  lemma EarlyReleaseCrashes(s: State, w: nat)
    requires w < |s.workers| && Consumes(Outgoing, w) && s.workers[w].PopLoop?
    requires s.isRunning && s.outgoing.released
    ensures exists es :: Run(s, es) && |End(s, es).workers| == |s.workers| && End(s, es).workers[w].Crashed?
  {
    var e := Work(w, Ok, 1);
    var s1 := s.(workers := s.workers[w := PopEnter]);
    var s2 := s.(workers := s.workers[w := Popped(Null(1))]);
    SilentMove(s, w, 1);
    SilentMove(s1, w, 1);
    NullBatchCrashes(s2, w);
    Prepend(s1, e, s2, [e] + [e]);
    Prepend(s, e, s1, [e] + ([e] + [e]));
  }

  lemma NullBatchCrashes(s: State, w: nat)
    requires w < |s.workers| && s.workers[w] == Popped(Null(1)) && s.isRunning
    ensures var e := Work(w, Ok, 1);
            Run(s, [e] + [e]) && End(s, [e] + [e]) == s.(workers := s.workers[w := Crashed])
  {
    var e := Work(w, Ok, 1);
    var s1 := s.(workers := s.workers[w := Sending(Null(1), 0)]);
    var s2 := s.(workers := s.workers[w := Crashed]);
    SilentMove(s, w, 1);
    SilentMove(s1, w, 1);
    Prepend(s1, e, s2, []);
    Prepend(s, e, s1, [e]);
  }

  lemma SilentMove(s: State, w: nat, pick: nat)
    requires w < |s.workers| && !Blocked(s, w) && !s.workers[w].ReaderWait?
    requires Act(s, w, Ok, pick).1.Silent?
    ensures Enabled(s, Work(w, Ok, pick))
    ensures Step(s, Work(w, Ok, pick)) == s.(workers := s.workers[w := Act(s, w, Ok, pick).0])
  {
  }

  lemma Prepend(s: State, e: Event, t: State, es: seq<Event>)
    requires Enabled(s, e) && Step(s, e) == t && Run(t, es)
    ensures Run(s, [e] + es) && End(s, [e] + es) == End(t, es)
  {
    assert ([e] + es)[1..] == es;
  }
}
