// What the daemon's replies say: the state that the client is told at the end of a
// session, the complaints about requests it does not know, and the updates while
// it stops itself.
module ControlReplies {
  import opened Wrappers
  import opened ControlMessages
  import opened ControlSession

  // ---------------------------------------------------------------- what the client is told

  /** At the end of a start or stop session the client has been told, just before
      the closed response, the state that the application is in after the request. */
  lemma ClientIsTold(app: Driver, state: string, sides: seq<Side>, s: State)
    requires state == "running" || state == "stopped"
    requires Reaches(HandlerOf(app), Start(Request("driver.state", state)), sides, s) && Stuck(s)
    ensures s.received != [] && StateOf(s.received[|s.received| - 1]) == Some("closed")
    ensures TellsState(app, state, s.received[..|s.received| - 1])
    ensures TellsFirst(app, state, s.received[..|s.received| - 1])
  {
    DriverSessionEnds(app, state, sides, s);
    DriverTells(app, state);
    StateOfMessage("Response", map["state" := Str("closed")], "closed");
    assert s.received[..|s.received| - 1] == DriverReplies(app, state);
  }

  // ---------------------------------------------------------------- which requests do what

  predicate Puts(doc: Json, on: string) {
    Text(doc, "type") == Some("Put") && Text(doc, "on") == Some(on)
  }

  /** A session is ended by two requests only. */
  lemma EndsOnlySo(app: Driver, line: Line)
    ensures Handle(app, line).ends <==>
            && line.Doc?
            && ((Puts(line.doc, "connection.state") && StateOf(line.doc) == Some("closed"))
                || (Puts(line.doc, "deamon.state") && StateOf(line.doc) == Some("stopped")))
  {
  }

  /** The requests that the daemon knows. */
  predicate Proper(doc: Json) {
    || Text(doc, "type") == Some("Delete")
    || (Text(doc, "type") == Some("Get") && Text(doc, "on") == Some("adapter.names"))
    || (Puts(doc, "driver.state") && (StateOf(doc) == Some("running") || StateOf(doc) == Some("stopped")))
    || (Puts(doc, "deamon.state") && StateOf(doc) == Some("stopped"))
    || (Puts(doc, "connection.state") && StateOf(doc).Some?)
    || (Puts(doc, "config") && Data(doc).Some?)
  }

  predicate IsComplaint(doc: Json) {
    Text(doc, "type") == Some("Response") && Data(doc).Some? && Text(Data(doc).value, "error").Some?
  }

  /** One complaint, after which the session goes on. */
  predicate OneComplaint(h: Handled) {
    !h.ends && |h.replies| == 1 && IsComplaint(h.replies[0])
  }

  lemma AnswerComplains(text: string)
    ensures OneComplaint(Answer(ErrorResponse(text)))
  {
    assert Data(ErrorResponse(text)) == Some(Obj(map["error" := Str(text)]));
  }

  lemma BadState(app: Driver, doc: Json)
    requires Complaint(doc).None? && StateOf(doc) != Some("running") && StateOf(doc) != Some("stopped")
    ensures OneComplaint(PutDriverState(app, doc)) && OneComplaint(PutDaemonState(app, doc))
  {
    AnswerComplains("unknown state");
    assert DriverReplies(app, StateOf(doc).value) == [ErrorResponse("unknown state")];
  }

  lemma RunningDaemon(app: Driver, doc: Json)
    requires Complaint(doc).None? && StateOf(doc) == Some("running")
    ensures OneComplaint(PutDaemonState(app, doc))
  {
    AnswerComplains("unknown state");
  }

  lemma BadData(app: Driver, doc: Json)
    requires Complaint(doc).Some?
    ensures OneComplaint(PutDriverState(app, doc)) && OneComplaint(PutDaemonState(app, doc))
    ensures OneComplaint(PutConnectionState(doc))
  {
    AnswerComplains(Complaint(doc).value);
  }

  lemma ComplaintIff(doc: Json)
    ensures Complaint(doc).None? <==> StateOf(doc).Some?
  {
  }

  lemma BadPut(app: Driver, doc: Json)
    requires Text(doc, "type") == Some("Put") && !Proper(doc)
    ensures OneComplaint(Put(app, doc))
  {
    match Text(doc, "on")
    case None =>
      AnswerComplains("no on");
      AnswerComplains("on");
    case Some(on) =>
      if on == "config" {
        BadConfig(doc);
      } else if on == "driver.state" || on == "deamon.state" || on == "connection.state" {
        BadStatePut(app, doc, on);
      } else {
        AnswerComplains("resource");
      }
  }

  lemma BadConfig(doc: Json)
    requires Data(doc).None?
    ensures OneComplaint(PutConfig(doc))
  {
    AnswerComplains("no data");
    AnswerComplains("data");
  }

  lemma BadStatePut(app: Driver, doc: Json, on: string)
    requires Puts(doc, on) && !Proper(doc)
    requires on == "driver.state" || on == "deamon.state" || on == "connection.state"
    ensures on == "driver.state" ==> OneComplaint(PutDriverState(app, doc))
    ensures on == "deamon.state" ==> OneComplaint(PutDaemonState(app, doc))
    ensures on == "connection.state" ==> OneComplaint(PutConnectionState(doc))
  {
    ComplaintIff(doc);
    if Complaint(doc).Some? {
      BadData(app, doc);
    } else if StateOf(doc) == Some("running") {
      RunningDaemon(app, doc);
    } else if StateOf(doc) != Some("stopped") {
      BadState(app, doc);
    }
  }

  lemma BadGet(doc: Json)
    requires Text(doc, "on") != Some("adapter.names")
    ensures OneComplaint(Get(doc))
  {
    AnswerComplains("no on");
    AnswerComplains("on");
    AnswerComplains("resource");
  }

  /** To every other line it answers with one complaint and goes on. */
  lemma OthersAreComplainedAbout(app: Driver, line: Line)
    requires line.Doc? ==> !Proper(line.doc)
    ensures OneComplaint(Handle(app, line))
  {
    AnswerComplains("json");
    AnswerComplains("no type");
    AnswerComplains("type");
    AnswerComplains("unknown type");
    if line.Doc? && Text(line.doc, "type") == Some("Put") {
      BadPut(app, line.doc);
    } else if line.Doc? && Text(line.doc, "type") == Some("Get") {
      BadGet(line.doc);
    }
  }

  // ---------------------------------------------------------------- stopping the daemon

  function Occurrences(docs: seq<Json>, doc: Json): nat {
    if docs == [] then 0 else (if docs[0] == doc then 1 else 0) + Occurrences(docs[1..], doc)
  }

  /** How many polls are looked at: up to the first after which the application no
      longer runs. */
  function Looked(polls: seq<Poll>): (n: nat)
    ensures n <= |polls|
    ensures forall i :: 0 <= i < n - 1 ==> polls[i].running && polls[i].survives
    ensures n < |polls| ==> n > 0 && !(polls[n - 1].running && polls[n - 1].survives)
  {
    if polls == [] then 0
    else if polls[0].running && polls[0].survives then 1 + Looked(polls[1..])
    else 1
  }

  function RunningAmong(polls: seq<Poll>, n: nat): nat
    requires n <= |polls|
  {
    if n == 0 then 0 else (if polls[0].running then 1 else 0) + RunningAmong(polls[1..], n - 1)
  }

  lemma {:induction false} OccurrencesOfSum(a: seq<Json>, b: seq<Json>, doc: Json)
    ensures Occurrences(a + b, doc) == Occurrences(a, doc) + Occurrences(b, doc)
    decreases |a|
  {
    if a == [] {
      assert a + b == b;
    } else {
      assert (a + b)[1..] == a[1..] + b;
      OccurrencesOfSum(a[1..], b, doc);
    }
  }

  lemma UpdatesDiffer()
    ensures StateUpdate("worker.startup") != StateUpdate("worker.running")
    ensures StateUpdate("worker.stopped") != StateUpdate("worker.running")
  {
    StateOfMessage("Update", map["state" := Str("worker.startup")], "worker.startup");
    StateOfMessage("Update", map["state" := Str("worker.running")], "worker.running");
    StateOfMessage("Update", map["state" := Str("worker.stopped")], "worker.stopped");
  }

  /** The client is told "worker.running" once for each look that found it running,
      and "worker.stopped" last. */
  lemma {:induction false} RunningIsTold(polls: seq<Poll>)
    ensures Occurrences(PollUpdates(polls), StateUpdate("worker.running")) == RunningAmong(polls, Looked(polls))
    ensures var r := PollUpdates(polls); r[|r| - 1] == StateUpdate("worker.stopped")
    decreases |polls|
  {
    UpdatesDiffer();
    if polls == [] {
      OneUpdate();
    } else {
      PollTold(polls[0]);
      OccurrencesOfSum(PollReplies(polls[0]), AfterPoll(polls), StateUpdate("worker.running"));
      if polls[0].running && polls[0].survives {
        RunningIsTold(polls[1..]);
      } else {
        OneUpdate();
      }
    }
  }

  lemma OneUpdate()
    ensures Occurrences([StateUpdate("worker.stopped")], StateUpdate("worker.running")) == 0
  {
    UpdatesDiffer();
    assert [StateUpdate("worker.stopped")][1..] == [];
  }

  lemma PollTold(p: Poll)
    ensures Occurrences(PollReplies(p), StateUpdate("worker.running")) == if p.running then 1 else 0
  {
    UpdatesDiffer();
    var a := if p.startingUp then [StateUpdate("worker.startup")] else [];
    var b := if p.running then [StateUpdate("worker.running")] else [];
    OccurrencesOfSum(a, b, StateUpdate("worker.running"));
    if p.startingUp { assert a[1..] == []; }
    if p.running { assert b[1..] == []; }
  }
}
