// The control messages between the command line client and the daemon, and how
// each side reacts to one of them.
module ControlMessages {

  import opened Wrappers

  /** As much of a JSON document as either side looks at. */
  datatype Json = Obj(members: map<string, Json>) | Str(text: string) | Other

  /** A received line: empty when the peer has closed, otherwise parsed or not. */
  datatype Line = Empty | Malformed | Doc(doc: Json)

  function Member(doc: Json, key: string): Option<Json> {
    if doc.Obj? && key in doc.members then Some(doc.members[key]) else None
  }

  function Text(doc: Json, key: string): Option<string> {
    match Member(doc, key)
    case Some(Str(text)) => Some(text)
    case _ => None
  }

  function Data(doc: Json): Option<Json> {
    match Member(doc, "data")
    case Some(Obj(members)) => Some(Obj(members))
    case _ => None
  }

  function StateOf(doc: Json): Option<string> {
    match Data(doc)
    case Some(data) => Text(data, "state")
    case None => None
  }

  // ---------------------------------------------------------------- builders

  function Request(on: string, state: string): Json {
    Obj(map["type" := Str("Put"), "on" := Str(on), "data" := Obj(map["state" := Str(state)])])
  }

  const STOP_CONNECTION: Json := Request("connection.state", "closed")

  function Message(kind: string, data: map<string, Json>): Json {
    Obj(map["type" := Str(kind), "data" := Obj(data)])
  }

  function StateResponse(state: string): Json {
    Message("Response", map["state" := Str(state)])
  }

  function StateUpdate(state: string): Json {
    Message("Update", map["state" := Str(state)])
  }

  function CrashResponse(reason: string): Json {
    Message("Response", map["state" := Str("crashed"), "crashReason" := Str(reason)])
  }

  /** The daemon's complaints, each under a short label for its wording. */
  function ErrorResponse(text: string): Json {
    Message("Response", map["error" := Str(text)])
  }

  // ---------------------------------------------------------------- the client

  predicate IsValidResponse(doc: Json) {
    Text(doc, "type").Some? && Data(doc).Some?
  }

  predicate IsConnectionCloseResponse(doc: Json) {
    StateOf(doc) == Some("closed")
  }

  predicate IsResponse(doc: Json) {
    Text(doc, "type") == Some("Response")
  }

  /** What one received document makes the client do. */
  datatype Reaction = Leave | Ignore | AskToClose

  function React(doc: Json): (r: Reaction)
    ensures r == Leave <==> Text(doc, "type").None? || StateOf(doc).None? || StateOf(doc) == Some("closed")
    ensures r == AskToClose <==> r != Leave && Text(doc, "type") == Some("Response")
  {
    if !IsValidResponse(doc) then Leave
    else if IsConnectionCloseResponse(doc) then Leave
    else if StateOf(doc).None? then Leave
    else if IsResponse(doc) then AskToClose
    else Ignore
  }

  /** How many of the documents ask the client to send a close request. */
  function Asks(docs: seq<Json>): (n: nat)
    ensures n <= |docs|
    ensures n > 0 <==> exists i :: 0 <= i < |docs| && React(docs[i]) == AskToClose
  {
    if docs == [] then 0
    else Asks(docs[..|docs| - 1]) + if React(docs[|docs| - 1]) == AskToClose then 1 else 0
  }

  /** Some document makes the client leave. */
  predicate Leaves(docs: seq<Json>) {
    exists i :: 0 <= i < |docs| && React(docs[i]) == Leave
  }

  lemma AsksOneMore(docs: seq<Json>, doc: Json)
    ensures Asks(docs + [doc]) == Asks(docs) + if React(doc) == AskToClose then 1 else 0
    ensures Leaves(docs + [doc]) <==> Leaves(docs) || React(doc) == Leave
  {
    var longer := docs + [doc];
    assert longer[..|docs|] == docs && longer[|docs|] == doc;
    if Leaves(docs) {
      var i :| 0 <= i < |docs| && React(docs[i]) == Leave;
      assert React(longer[i]) == Leave;
    }
  }

  function Closes(n: nat): (s: seq<Json>)
    ensures |s| == n && forall i :: 0 <= i < n ==> s[i] == STOP_CONNECTION
  {
    if n == 0 then [] else Closes(n - 1) + [STOP_CONNECTION]
  }

  /** The opening request and the close requests that `docs` made the client send. */
  function Asked(request: Json, docs: seq<Json>): (s: seq<Json>)
    ensures |s| == 1 + Asks(docs) && s[0] == request
    ensures forall i :: 0 < i < |s| ==> s[i] == STOP_CONNECTION
  {
    [request] + Closes(Asks(docs))
  }

  lemma AskedOneMore(request: Json, docs: seq<Json>, doc: Json)
    ensures Asked(request, docs + [doc]) ==
            if React(doc) == AskToClose then Asked(request, docs) + [STOP_CONNECTION] else Asked(request, docs)
  {
    AsksOneMore(docs, doc);
    var n := Asks(docs);
    assert [request] + (Closes(n) + [STOP_CONNECTION]) == ([request] + Closes(n)) + [STOP_CONNECTION];
  }

  /** What the client listens to: everything before the line that makes it leave. */
  function Heard(lines: seq<Line>): (docs: seq<Json>)
    ensures |docs| <= |lines| && !Leaves(docs)
    ensures forall i :: 0 <= i < |docs| ==> lines[i] == Doc(docs[i])
    ensures |docs| < |lines| ==> lines[|docs|].Doc? ==> React(lines[|docs|].doc) == Leave
  {
    if lines == [] || !lines[0].Doc? || React(lines[0].doc) == Leave then []
    else
      [lines[0].doc] + Heard(lines[1..])
  }

  lemma HeardStep(lines: seq<Line>, before: seq<Json>)
    requires lines != []
    ensures before + Heard(lines) ==
            if lines[0].Doc? && React(lines[0].doc) != Leave then (before + [lines[0].doc]) + Heard(lines[1..])
            else before
  {
    if lines[0].Doc? && React(lines[0].doc) != Leave {
      assert before + ([lines[0].doc] + Heard(lines[1..])) == (before + [lines[0].doc]) + Heard(lines[1..]);
    }
  }

  /** A put of the connection's state, to "closed". */
  predicate AsksToEnd(doc: Json) {
    && Text(doc, "type") == Some("Put") && Text(doc, "on") == Some("connection.state")
    && StateOf(doc) == Some("closed")
  }

  lemma CloseRequestAsks()
    ensures AsksToEnd(STOP_CONNECTION)
  {
    assert Text(STOP_CONNECTION, "type") == Some("Put");
    assert Text(STOP_CONNECTION, "on") == Some("connection.state");
    assert STOP_CONNECTION.members["data"] == Obj(map["state" := Str("closed")]);
  }

  /** The client's whole session: sends its request, then answers every response
      with a close request until told to leave or the lines end. */
  method DriverSession(request: Json, lines: seq<Line>) returns (sent: seq<Json>)
    ensures sent == Asked(request, Heard(lines))
    ensures |sent| > 0 && sent[0] == request
    ensures forall i :: 0 < i < |sent| ==> AsksToEnd(sent[i])
  {
    CloseRequestAsks();
    sent := [request];
    var i := 0;
    ghost var docs: seq<Json> := [];
    while i < |lines|
      invariant i <= |lines| && docs + Heard(lines[i..]) == Heard(lines)
      invariant sent == Asked(request, docs)
    {
      HeardStep(lines[i..], docs);
      if !lines[i].Doc? || React(lines[i].doc) == Leave { return; }
      AskedOneMore(request, docs, lines[i].doc);
      docs := docs + [lines[i].doc];
      if React(lines[i].doc) == AskToClose {
        sent := sent + [STOP_CONNECTION];
      }
      i := i + 1;
      assert lines[i - 1..][1..] == lines[i..];
    }
    assert docs + Heard([]) == docs;
  }

  // ---------------------------------------------------------------- the daemon

  /** What the application answers while one request is handled: its state when
      asked, whether it comes up, and whether it still runs after a shutdown. */
  datatype Driver = Driver(
    startingUp: bool, running: bool, comesUp: bool, crashReason: string, survives: bool, polls: seq<Poll>)

  /** One look at the application while the daemon is told to stop: whether it
      starts up, runs, and still runs after a shutdown. */
  datatype Poll = Poll(startingUp: bool, running: bool, survives: bool)

  /** The replies to one document, and whether it ends the session. */
  datatype Handled = Handled(replies: seq<Json>, ends: bool)

  function Answer(reply: Json): Handled {
    Handled([reply], false)
  }

  function DriverReplies(app: Driver, state: string): seq<Json> {
    if state == "running" then
      if app.startingUp then [StateResponse("startup")]
      else if app.running then [StateResponse("running")]
      else [StateUpdate("startup"), if app.comesUp then StateResponse("running") else CrashResponse(app.crashReason)]
    else if state == "stopped" then
      if app.startingUp then [StateResponse("startup")]
      else if app.running then [StateResponse("running"), StateResponse(if app.survives then "running" else "stopped")]
      else [StateResponse("stopped")]
    else [ErrorResponse("unknown state")]
  }

  /** The complaint about a request whose data has no state to put. */
  function Complaint(doc: Json): Option<string> {
    match Member(doc, "data")
    case None => Some("no data")
    case Some(Obj(members)) =>
      (match Member(Obj(members), "state")
       case None => Some("no state")
       case Some(Str(text)) => None
       case Some(_) => Some("state"))
    case Some(_) => Some("data")
  }

  function PutDriverState(app: Driver, doc: Json): Handled {
    match Complaint(doc)
    case Some(text) => Answer(ErrorResponse(text))
    case None => Handled(DriverReplies(app, StateOf(doc).value), false)
  }

  function PollReplies(p: Poll): seq<Json> {
    (if p.startingUp then [StateUpdate("worker.startup")] else [])
    + if p.running then [StateUpdate("worker.running")] else []
  }

  /** What the daemon sends while it looks at the application until this no longer
      runs, which is after all polls at the latest. */
  function PollUpdates(polls: seq<Poll>): (r: seq<Json>)
    ensures r != [] && r[|r| - 1] == StateUpdate("worker.stopped")
    decreases |polls|, 1
  {
    if polls == [] then [StateUpdate("worker.stopped")]
    else
      PollReplies(polls[0]) + AfterPoll(polls)
  }

  /** What is sent after the replies of the first poll. */
  function AfterPoll(polls: seq<Poll>): (r: seq<Json>)
    requires polls != []
    ensures r != [] && r[|r| - 1] == StateUpdate("worker.stopped")
    decreases |polls|, 0
  {
    if polls[0].running && polls[0].survives then PollUpdates(polls[1..]) else [StateUpdate("worker.stopped")]
  }

  lemma PollStep(sent: seq<Json>, polls: seq<Poll>)
    requires polls != []
    ensures sent + PollUpdates(polls) == (sent + PollReplies(polls[0])) + AfterPoll(polls)
  {
    SumOfThree(sent, PollReplies(polls[0]), AfterPoll(polls));
  }

  lemma SumOfThree(a: seq<Json>, b: seq<Json>, c: seq<Json>)
    ensures a + (b + c) == (a + b) + c
  {
  }

  /** The daemon's own state can only be put to stopped, which ends the process. */
  function PutDaemonState(app: Driver, doc: Json): Handled {
    match Complaint(doc)
    case Some(text) => Answer(ErrorResponse(text))
    case None =>
      if StateOf(doc).value == "stopped" then Handled(PollUpdates(app.polls) + [StateResponse("stopped")], true)
      else Answer(ErrorResponse("unknown state"))
  }

  /** A configuration is stored without a reply. */
  function PutConfig(doc: Json): Handled {
    match Member(doc, "data")
    case None => Answer(ErrorResponse("no data"))
    case Some(Obj(members)) => Handled([], false)
    case Some(_) => Answer(ErrorResponse("data"))
  }

  /** The names of the adapters are collected but never sent. */
  function Get(doc: Json): Handled {
    match Member(doc, "on")
    case None => Answer(ErrorResponse("no on"))
    case Some(Str(on)) => if on == "adapter.names" then Handled([], false) else Answer(ErrorResponse("resource"))
    case Some(_) => Answer(ErrorResponse("on"))
  }

  function PutConnectionState(doc: Json): Handled {
    match Complaint(doc)
    case Some(text) => Answer(ErrorResponse(text))
    case None =>
      if StateOf(doc).value == "closed" then Handled([StateResponse("closed")], true) else Handled([], false)
  }

  function Put(app: Driver, doc: Json): Handled {
    match Member(doc, "on")
    case None => Answer(ErrorResponse("no on"))
    case Some(Str(on)) =>
      if on == "driver.state" then PutDriverState(app, doc)
      else if on == "connection.state" then PutConnectionState(doc)
      else if on == "deamon.state" then PutDaemonState(app, doc)
      else if on == "config" then PutConfig(doc)
      else Answer(ErrorResponse("resource"))
    case Some(_) => Answer(ErrorResponse("on"))
  }

  function Handle(app: Driver, line: Line): Handled {
    match line
    case Doc(doc) =>
      (match Member(doc, "type")
       case None => Answer(ErrorResponse("no type"))
       case Some(Str(kind)) =>
         if kind == "Put" then Put(app, doc)
         else if kind == "Get" then Get(doc)
         else if kind == "Delete" then Handled([], false)
         else Answer(ErrorResponse("unknown type"))
       case Some(_) => Answer(ErrorResponse("type")))
    case _ => Answer(ErrorResponse("json"))
  }

  /** The replies of a whole session and whether a request ended it: lines are
      handled until one is empty or ends the session. */
  function Session(apps: seq<Driver>, lines: seq<Line>): Handled
    requires |apps| == |lines|
  {
    if lines == [] || lines[0].Empty? then Handled([], false)
    else
      var first := Handle(apps[0], lines[0]);
      if first.ends then first
      else
        var rest := Session(apps[1..], lines[1..]);
        Handled(first.replies + rest.replies, rest.ends)
  }

  function After(sent: seq<Json>, h: Handled): Handled {
    Handled(sent + h.replies, h.ends)
  }

  /** One line of a session after `sent`. */
  lemma SessionStep(apps: seq<Driver>, lines: seq<Line>, sent: seq<Json>)
    requires |apps| == |lines| > 0
    ensures var first := Handle(apps[0], lines[0]);
            After(sent, Session(apps, lines)) ==
            if lines[0].Empty? then Handled(sent, false)
            else if first.ends then Handled(sent + first.replies, true)
            else After(sent + first.replies, Session(apps[1..], lines[1..]))
  {
    if !lines[0].Empty? && !Handle(apps[0], lines[0]).ends {
      var first, rest := Handle(apps[0], lines[0]).replies, Session(apps[1..], lines[1..]).replies;
      assert sent + (first + rest) == (sent + first) + rest;
    }
  }

  // ---------------------------------------------------------------- what the client is told

  /** Whether the application runs once a start or stop request has been handled. */
  predicate RunsAfter(app: Driver, state: string) {
    if state == "running" then app.running || app.comesUp else app.running && app.survives
  }

  lemma StateOfMessage(kind: string, data: map<string, Json>, state: string)
    requires "state" in data && data["state"] == Str(state)
    ensures StateOf(Message(kind, data)) == Some(state) && Text(Message(kind, data), "type") == Some(kind)
    ensures Data(Message(kind, data)) == Some(Obj(data))
  {
  }

  /** The last state in `replies` is that of the application after the request:
      "startup" while it starts up, else "running" exactly when it runs then, else
      "stopped" after a stop and "crashed", with the reason, after a start. */
  ghost predicate TellsState(app: Driver, state: string, replies: seq<Json>) {
    replies != [] &&
    var last := replies[|replies| - 1];
    && (app.startingUp <==> StateOf(last) == Some("startup"))
    && (!app.startingUp && RunsAfter(app, state) <==> StateOf(last) == Some("running"))
    && (!app.startingUp && !RunsAfter(app, state) && state == "stopped" <==> StateOf(last) == Some("stopped"))
    && (!app.startingUp && !RunsAfter(app, state) && state == "running" <==> StateOf(last) == Some("crashed"))
    && (StateOf(last) == Some("crashed") ==>
          Data(last).Some? && Text(Data(last).value, "crashReason") == Some(app.crashReason))
    && Text(last, "type") == Some("Response")
  }

  /** Where there are two replies the first says what was found: a driver about to
      be stopped that runs, or one about to be started. */
  ghost predicate TellsFirst(app: Driver, state: string, replies: seq<Json>) {
    && (|replies| == 2 <==> !app.startingUp && (app.running <==> state == "stopped"))
    && (|replies| == 2 ==> StateOf(replies[0]) == Some(if state == "stopped" then "running" else "startup"))
    && 1 <= |replies| <= 2
  }

  lemma DriverTells(app: Driver, state: string)
    requires state == "running" || state == "stopped"
    ensures TellsState(app, state, DriverReplies(app, state)) && TellsFirst(app, state, DriverReplies(app, state))
  {
    StateOfMessage("Response", map["state" := Str("startup")], "startup");
    StateOfMessage("Response", map["state" := Str("running")], "running");
    StateOfMessage("Response", map["state" := Str("stopped")], "stopped");
    StateOfMessage("Update", map["state" := Str("startup")], "startup");
    CrashTells(app.crashReason);
  }

  lemma CrashTells(reason: string)
    ensures var doc := CrashResponse(reason);
            && StateOf(doc) == Some("crashed") && Text(doc, "type") == Some("Response")
            && Data(doc).Some? && Text(Data(doc).value, "crashReason") == Some(reason)
  {
    StateOfMessage("Response", map["state" := Str("crashed"), "crashReason" := Str(reason)], "crashed");
  }

  /** A start or stop request is answered so. */
  lemma DriverAnswered(app: Driver, doc: Json, before: seq<Json>)
    requires Complaint(doc).None? && (StateOf(doc) == Some("running") || StateOf(doc) == Some("stopped"))
    ensures var sent := before + PutDriverState(app, doc).replies;
            && TellsState(app, StateOf(doc).value, sent[|before|..])
            && TellsFirst(app, StateOf(doc).value, sent[|before|..])
  {
    DriverTells(app, StateOf(doc).value);
    var replies := PutDriverState(app, doc).replies;
    assert (before + replies)[|before|..] == replies;
  }

  /** One end of a connection: `sent` is what was written to it. */
  class ConfigurationWorker {
    var running: bool
    var sent: seq<Json>

    constructor ()
      ensures running && sent == []
    {
      running, sent := true, [];
    }

    method SendLine(doc: Json)
      modifies this`sent
      ensures sent == old(sent) + [doc]
    {
      sent := sent + [doc];
    }

    method ParseConnectionStatePut(doc: Json)
      modifies this
      ensures sent == old(sent) + PutConnectionState(doc).replies
      ensures running == (old(running) && !PutConnectionState(doc).ends)
    {
      var complaint := Complaint(doc);
      if complaint.Some? {
        SendLine(ErrorResponse(complaint.value));
      } else if StateOf(doc) == Some("closed") {
        running := false;
        SendLine(StateResponse("closed"));
      }
    }

    method ParseDriverStatePut(app: Driver, doc: Json)
      modifies this`sent
      ensures sent == old(sent) + PutDriverState(app, doc).replies
      ensures Complaint(doc).None? && (StateOf(doc) == Some("running") || StateOf(doc) == Some("stopped")) ==>
                && TellsState(app, StateOf(doc).value, sent[|old(sent)|..])
                && TellsFirst(app, StateOf(doc).value, sent[|old(sent)|..])
    {
      var complaint := Complaint(doc);
      if complaint.None? && (StateOf(doc) == Some("running") || StateOf(doc) == Some("stopped")) {
        DriverAnswered(app, doc, sent);
      }
      if complaint.Some? {
        SendLine(ErrorResponse(complaint.value));
        return;
      }
      var state := StateOf(doc).value;
      if state == "running" {
        if app.startingUp {
          SendLine(StateResponse("startup"));
        } else if app.running {
          SendLine(StateResponse("running"));
        } else {
          SendLine(StateUpdate("startup"));
          if app.comesUp {
            SendLine(StateResponse("running"));
          } else {
            SendLine(CrashResponse(app.crashReason));
          }
        }
      } else if state == "stopped" {
        if app.startingUp {
          SendLine(StateResponse("startup"));
        } else if app.running {
          SendLine(StateResponse("running"));
          SendLine(StateResponse(if app.survives then "running" else "stopped"));
        } else {
          SendLine(StateResponse("stopped"));
        }
      } else {
        SendLine(ErrorResponse("unknown state"));
      }
    }

    /** The process exits after its last reply, so the session is over. */
    method ParseDaemonStatePut(app: Driver, doc: Json)
      modifies this
      ensures sent == old(sent) + PutDaemonState(app, doc).replies
      ensures running == (old(running) && !PutDaemonState(app, doc).ends)
    {
      var complaint := Complaint(doc);
      if complaint.Some? {
        SendLine(ErrorResponse(complaint.value));
      } else if StateOf(doc) == Some("stopped") {
        PollUntilStopped(app.polls);
        SendLine(StateResponse("stopped"));
        running := false;
      } else {
        SendLine(ErrorResponse("unknown state"));
      }
    }

    method PollUntilStopped(polls: seq<Poll>)
      modifies this`sent
      ensures sent == old(sent) + PollUpdates(polls)
    {
      var i := 0;
      while i < |polls|
        invariant i <= |polls| && sent + PollUpdates(polls[i..]) == old(sent) + PollUpdates(polls)
        decreases |polls| - i
      {
        PollStep(sent, polls[i..]);
        Poll(polls[i]);
        if !(polls[i].running && polls[i].survives) {
          break;
        }
        i := i + 1;
        assert polls[i - 1..][1..] == polls[i..];
      }
      SendLine(StateUpdate("worker.stopped"));
    }

    method Poll(p: Poll)
      modifies this`sent
      ensures sent == old(sent) + PollReplies(p)
    {
      if p.startingUp {
        SendLine(StateUpdate("worker.startup"));
      }
      if p.running {
        SendLine(StateUpdate("worker.running"));
      }
    }

    method ParseConfigPut(doc: Json)
      modifies this`sent
      ensures sent == old(sent) + PutConfig(doc).replies
    {
      match Member(doc, "data") {
        case None => SendLine(ErrorResponse("no data"));
        case Some(Obj(_)) =>
        case Some(_) => SendLine(ErrorResponse("data"));
      }
    }

    method ParseGet(doc: Json)
      modifies this`sent
      ensures sent == old(sent) + Get(doc).replies
    {
      match Member(doc, "on") {
        case None => SendLine(ErrorResponse("no on"));
        case Some(Str(on)) =>
          if on != "adapter.names" {
            SendLine(ErrorResponse("resource"));
          }
        case Some(_) => SendLine(ErrorResponse("on"));
      }
    }

    method ParsePut(app: Driver, doc: Json)
      modifies this
      ensures sent == old(sent) + Put(app, doc).replies
      ensures running == (old(running) && !Put(app, doc).ends)
    {
      match Member(doc, "on") {
        case None => SendLine(ErrorResponse("no on"));
        case Some(Str(on)) =>
          if on == "driver.state" {
            ParseDriverStatePut(app, doc);
          } else if on == "connection.state" {
            ParseConnectionStatePut(doc);
          } else if on == "deamon.state" {
            ParseDaemonStatePut(app, doc);
          } else if on == "config" {
            ParseConfigPut(doc);
          } else {
            SendLine(ErrorResponse("resource"));
          }
        case Some(_) => SendLine(ErrorResponse("on"));
      }
    }

    method ParseMessage(app: Driver, line: Line)
      modifies this
      ensures sent == old(sent) + Handle(app, line).replies
      ensures running == (old(running) && !Handle(app, line).ends)
    {
      if !line.Doc? {
        SendLine(ErrorResponse("json"));
        return;
      }
      match Member(line.doc, "type") {
        case None => SendLine(ErrorResponse("no type"));
        case Some(Str(kind)) =>
          if kind == "Put" {
            ParsePut(app, line.doc);
          } else if kind == "Get" {
            ParseGet(line.doc);
          } else if kind != "Delete" {
            SendLine(ErrorResponse("unknown type"));
          }
        case Some(_) => SendLine(ErrorResponse("type"));
      }
    }

    /** The loop over the lines received; `apps` is what the application answers
        at each of them. */
    method Run(apps: seq<Driver>, lines: seq<Line>)
      requires |apps| == |lines| && running && sent == []
      modifies this
      ensures Handled(sent, !running) == Session(apps, lines)
    {
      var i := 0;
      while running && i < |lines|
        invariant i <= |lines|
        invariant running ==> Session(apps, lines) == After(sent, Session(apps[i..], lines[i..]))
        invariant !running ==> Session(apps, lines) == Handled(sent, true)
      {
        SessionStep(apps[i..], lines[i..], sent);
        if lines[i].Empty? { break; }
        assert apps[i..][1..] == apps[i + 1..] && lines[i..][1..] == lines[i + 1..];
        ParseMessage(apps[i], lines[i]);
        i := i + 1;
      }
    }
  }
}
