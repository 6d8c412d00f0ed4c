// A session between the command line client and the daemon: two processes and
// two channels that keep the order of messages. The daemon is given by what it
// answers to a request, the client by its reactions.
module ControlSession {
  import opened Wrappers
  import opened ControlMessages

  type Handler = Json -> Handled

  /** The daemon answers the opening request with `script` and a close request
      with the closed response, which ends the session. */
  predicate Serves(h: Handler, request: Json, script: seq<Json>) {
    && request != STOP_CONNECTION
    && h(request) == Handled(script, false)
    && h(STOP_CONNECTION) == Handled([StateResponse("closed")], true)
  }

  /** `pending` are replies the daemon has not written yet; `handled` and
      `received` are the histories of the two sides. */
  datatype State = State(
    running: bool, pending: seq<Json>, handled: seq<Json>, requests: seq<Json>,
    replies: seq<Json>, clientLive: bool, received: seq<Json>)

  datatype Side = Daemon | Client

  function Start(request: Json): State {
    State(true, [], [], [request], [], true, [])
  }

  /** The daemon has left its loop and closed the connection. */
  predicate DaemonDone(s: State) {
    !s.running && s.pending == []
  }

  predicate Enabled(s: State, side: Side) {
    match side
    case Daemon => s.pending != [] || (s.running && (s.requests != [] || !s.clientLive))
    case Client => s.clientLive && (s.replies != [] || DaemonDone(s))
  }

  /** The daemon writes the next reply, or reads the next request, or finds the
      connection closed by the client. The client reads the next reply, or finds
      the connection closed. */
  function Step(h: Handler, s: State, side: Side): State
    requires Enabled(s, side)
  {
    match side
    case Daemon =>
      if s.pending != [] then s.(pending := s.pending[1..], replies := s.replies + [s.pending[0]])
      else if s.requests != [] then
        var r := h(s.requests[0]);
        s.(running := !r.ends, pending := r.replies,
           handled := s.handled + [s.requests[0]], requests := s.requests[1..])
      else s.(running := false)
    case Client =>
      if s.replies != [] then
        var doc := s.replies[0];
        s.(replies := s.replies[1..], received := s.received + [doc],
           clientLive := React(doc) != Leave,
           requests := s.requests + if React(doc) == AskToClose then [STOP_CONNECTION] else [])
      else s.(clientLive := false)
  }

  ghost predicate Reaches(h: Handler, s: State, sides: seq<Side>, t: State)
    decreases |sides|
  {
    if sides == [] then s == t
    else Enabled(s, sides[0]) && Reaches(h, Step(h, s, sides[0]), sides[1..], t)
  }

  // ---------------------------------------------------------------- invariant

  const CLOSED: Json := StateResponse("closed")

  /** Everything the daemon owes after handling so many requests. */
  function Owed(script: seq<Json>, handled: nat): seq<Json> {
    if handled == 0 then [] else if handled == 1 then script else script + [CLOSED]
  }

  ghost predicate Inv(request: Json, script: seq<Json>, s: State) {
    && |s.handled| <= 2
    && s.handled + s.requests == Asked(request, s.received)
    && s.received + s.replies + s.pending == Owed(script, |s.handled|)
    && (s.clientLive <==> !Leaves(s.received))
    && (s.running ==> |s.handled| < 2)
    && (!s.running ==> |s.handled| == 2 || (!s.clientLive && s.requests == [] && s.pending == []))
  }

  lemma StartInv(request: Json, script: seq<Json>)
    ensures Inv(request, script, Start(request))
  {
    assert Asks([]) == 0;
  }

  lemma ClosedMakesLeave()
    ensures React(CLOSED) == Leave
  {
    assert StateOf(CLOSED) == Some("closed");
  }

  /** While the client listens, the daemon has not finished unless a reply is on
      its way: the client never finds the connection closed. */
  lemma ReplyOnItsWay(request: Json, script: seq<Json>, s: State)
    requires Inv(request, script, s) && s.clientLive && DaemonDone(s)
    ensures s.replies != []
  {
    ClosedMakesLeave();
    assert Owed(script, |s.handled|)[|script|] == CLOSED;
    assert !Leaves(s.received);
    assert s.received + s.replies + [] == s.received + s.replies;
  }

  lemma DaemonKeepsInv(h: Handler, request: Json, script: seq<Json>, s: State)
    requires Serves(h, request, script) && Inv(request, script, s) && Enabled(s, Daemon)
    ensures Inv(request, script, Step(h, s, Daemon))
  {
    if s.pending != [] {
      var sent, rest := s.replies + [s.pending[0]], s.pending[1..];
      assert s.received + sent + rest == s.received + s.replies + s.pending;
    } else if s.requests != [] {
      HandlingKeepsInv(h, request, script, s, s.requests[0], s.requests[1..]);
    }
  }

  lemma HandlingKeepsInv(h: Handler, request: Json, script: seq<Json>, s: State, doc: Json, rest: seq<Json>)
    requires Serves(h, request, script) && Inv(request, script, s) && s.running
    requires s.pending == [] && s.requests == [doc] + rest
    ensures Inv(request, script, s.(running := !h(doc).ends, pending := h(doc).replies,
                                    handled := s.handled + [doc], requests := rest))
  {
    NextHandled(request, s.received, s.handled, doc, rest);
    RepliesOwed(script, |s.handled|, s.received, s.replies);
  }

  /** An answer to the next request is what is owed next. */
  lemma RepliesOwed(script: seq<Json>, handled: nat, received: seq<Json>, replies: seq<Json>)
    requires handled < 2 && received + replies + [] == Owed(script, handled)
    ensures received + replies + (if handled == 0 then script else [CLOSED]) == Owed(script, handled + 1)
  {
    assert received + replies + [] == received + replies;
    assert [] + script == script;
  }

  /** Requests are handled in the order they were sent: the opening one, then
      close requests. */
  lemma NextHandled(request: Json, received: seq<Json>, handled: seq<Json>, doc: Json, rest: seq<Json>)
    requires handled + ([doc] + rest) == Asked(request, received)
    ensures doc == if handled == [] then request else STOP_CONNECTION
    ensures (handled + [doc]) + rest == Asked(request, received)
  {
    assert (handled + [doc]) + rest == handled + ([doc] + rest);
    assert doc == (handled + ([doc] + rest))[|handled|];
  }

  lemma ClientKeepsInv(h: Handler, request: Json, script: seq<Json>, s: State)
    requires Serves(h, request, script) && Inv(request, script, s) && Enabled(s, Client)
    ensures Inv(request, script, Step(h, s, Client))
  {
    if s.replies == [] {
      ReplyOnItsWay(request, script, s);
      assert false;
    }
    ReadKeepsInv(request, script, s, s.replies[0], s.replies[1..]);
  }

  lemma ReadKeepsInv(request: Json, script: seq<Json>, s: State, doc: Json, rest: seq<Json>)
    requires Inv(request, script, s) && s.clientLive && s.replies == [doc] + rest
    ensures var more := if React(doc) == AskToClose then [STOP_CONNECTION] else [];
            Inv(request, script, s.(replies := rest, received := s.received + [doc],
                                    clientLive := React(doc) != Leave, requests := s.requests + more))
  {
    AsksOneMore(s.received, doc);
    AskedOneMore(request, s.received, doc);
    Moved(s.received, doc, rest, s.pending);
    if React(doc) == AskToClose {
      assert s.handled + (s.requests + [STOP_CONNECTION]) == (s.handled + s.requests) + [STOP_CONNECTION];
    } else {
      assert s.requests + [] == s.requests;
    }
  }

  lemma Moved(received: seq<Json>, doc: Json, rest: seq<Json>, pending: seq<Json>)
    ensures (received + [doc]) + rest + pending == received + ([doc] + rest) + pending
  {
  }

  // ---------------------------------------------------------------- runs

  /** Steps still possible: each reply is written and read, each of two requests
      handled, and each side stops once. */
  function Rank(script: seq<Json>, s: State): int {
    2 * (|script| + 1 - |s.received| - |s.replies|) + |s.replies| + (2 - |s.handled|)
    + (if s.running then 1 else 0) + (if s.clientLive then 1 else 0)
  }

  lemma StepMakesProgress(h: Handler, request: Json, script: seq<Json>, s: State, side: Side)
    requires Serves(h, request, script) && Inv(request, script, s) && Enabled(s, side)
    ensures var t := Step(h, s, side);
            Inv(request, script, t) && 0 <= Rank(script, t) < Rank(script, s)
  {
    if side == Daemon {
      DaemonKeepsInv(h, request, script, s);
    } else {
      ClientKeepsInv(h, request, script, s);
    }
  }

  /** Every run of either side's steps, in any order, keeps the invariant and is
      no longer than twice the script and six. */
  lemma {:induction false} RunInv(h: Handler, request: Json, script: seq<Json>, s: State, sides: seq<Side>, t: State)
    requires Serves(h, request, script) && Inv(request, script, s) && Reaches(h, s, sides, t)
    ensures Inv(request, script, t) && |sides| <= Rank(script, s) - Rank(script, t)
    decreases |sides|
  {
    if sides != [] {
      StepMakesProgress(h, request, script, s, sides[0]);
      RunInv(h, request, script, Step(h, s, sides[0]), sides[1..], t);
    }
  }

  predicate Stuck(s: State) {
    !Enabled(s, Daemon) && !Enabled(s, Client)
  }

  /** Both sides have stopped; one close request was handled and the client read
      everything; one close request per further response stays unread. */
  ghost predicate ClosedInOrder(request: Json, script: seq<Json>, s: State)
    requires Asks(script) > 0
  {
    && DaemonDone(s) && !s.clientLive
    && s.handled == [request, STOP_CONNECTION]
    && s.received == script + [CLOSED] && s.replies == []
    && s.requests == Closes(Asks(script) - 1)
  }

  /** A script with a response in it and nothing that makes the client leave
      early always ends the session in order. */
  lemma SessionEndsInOrder(h: Handler, request: Json, script: seq<Json>, sides: seq<Side>, s: State)
    requires Serves(h, request, script) && !Leaves(script) && Asks(script) > 0
    requires Reaches(h, Start(request), sides, s)
    ensures |sides| <= 2 * |script| + 6
    ensures Stuck(s) ==> ClosedInOrder(request, script, s)
  {
    StartInv(request, script);
    RunInv(h, request, script, Start(request), sides, s);
    if Stuck(s) {
      StuckInOrder(request, script, s);
    }
  }

  lemma StuckInOrder(request: Json, script: seq<Json>, s: State)
    requires Inv(request, script, s) && Stuck(s) && !Leaves(script) && Asks(script) > 0
    ensures ClosedInOrder(request, script, s)
  {
    if s.clientLive {
      LeftWaiting(request, script, s);
      assert false;
    }
    AllReceived(request, script, s);
    ClosedMakesLeave();
    AsksOneMore(script, CLOSED);
    var all := Asked(request, s.received);
    assert s.handled == all[..2] && s.requests == all[2..];
  }

  /** A client that has left after such a script left because of the closed response. */
  lemma AllReceived(request: Json, script: seq<Json>, s: State)
    requires Inv(request, script, s) && !s.clientLive && !Leaves(script)
    ensures s.received == script + [CLOSED] && |s.handled| == 2 && s.replies == [] && s.pending == []
  {
    ReceivedPrefix(request, script, s);
    var i :| 0 <= i < |s.received| && React(s.received[i]) == Leave;
    assert s.received[i] == (script + [CLOSED])[i];
    assert i >= |script|;
    assert |s.received + s.replies + s.pending| == |script| + 1;
  }

  /** A client still listening when nothing can happen has read the whole script
      and found no reason to answer. */
  lemma LeftWaiting(request: Json, script: seq<Json>, s: State)
    requires Inv(request, script, s) && Stuck(s) && s.clientLive
    ensures s.running && s.received == script && !Leaves(script) && Asks(script) == 0
  {
    if DaemonDone(s) {
      ReplyOnItsWay(request, script, s);
    }
    assert s.replies == [] && s.pending == [] && s.running && s.requests == [];
    assert s.handled + [] == s.handled && s.received + [] + [] == s.received;
  }

  /** What the client has read is a beginning of the script and the closed
      response, which only comes after a close request. */
  lemma ReceivedPrefix(request: Json, script: seq<Json>, s: State)
    requires Inv(request, script, s)
    ensures s.received <= script + [CLOSED]
    ensures |s.received| > |script| ==> s.received == script + [CLOSED] && |s.handled| == 2
  {
    var owed := Owed(script, |s.handled|);
    assert s.received <= owed by {
      assert s.received + s.replies + s.pending == s.received + (s.replies + s.pending);
    }
    assert owed <= script + [CLOSED];
  }

  /** A session that can go no further has ended on both sides exactly when the
      script held something that moves the client; otherwise the daemon waits
      for a request and the client for a reply, for ever. */
  lemma EndsIffClientMoves(h: Handler, request: Json, script: seq<Json>, sides: seq<Side>, s: State)
    requires Serves(h, request, script) && Reaches(h, Start(request), sides, s) && Stuck(s)
    ensures DaemonDone(s) && !s.clientLive <==> exists i :: 0 <= i < |script| && React(script[i]) != Ignore
  {
    StartInv(request, script);
    RunInv(h, request, script, Start(request), sides, s);
    if s.clientLive {
      LeftWaiting(request, script, s);
    } else {
      MovedByScript(request, script, s);
    }
  }

  lemma MovedByScript(request: Json, script: seq<Json>, s: State)
    requires Inv(request, script, s) && !s.clientLive
    ensures exists i :: 0 <= i < |script| && React(script[i]) != Ignore
  {
    ReceivedPrefix(request, script, s);
    ClosedMakesLeave();
    var i :| 0 <= i < |s.received| && React(s.received[i]) == Leave;
    if i < |script| {
      assert script[i] == s.received[i];
    } else {
      assert Asks(s.received) > 0;
      AsksOneMore(script, CLOSED);
    }
  }

  // ---------------------------------------------------------------- the daemon's loop

  /** The session of these requests while the application stays in one state. */
  function SessionOf(app: Driver, docs: seq<Json>): Handled {
    Session(seq(|docs|, i => app), seq(|docs|, i requires 0 <= i < |docs| => Doc(docs[i])))
  }

  function HandlerOf(app: Driver): Handler {
    (doc: Json) => Handle(app, Doc(doc))
  }

  /** Answers one after the other, up to one that ends the session. */
  function Joined(answers: seq<Handled>): Handled {
    if answers == [] then Handled([], false)
    else if answers[0].ends then answers[0]
    else After(answers[0].replies, Joined(answers[1..]))
  }

  lemma {:induction false} JoinedGoesOn(answers: seq<Handled>, r: Handled)
    requires !Joined(answers).ends
    ensures Joined(answers + [r]) == Handled(Joined(answers).replies + r.replies, r.ends)
    decreases |answers|
  {
    if answers == [] {
      assert [r][1..] == [] && r.replies + [] == r.replies;
    } else {
      assert (answers + [r])[1..] == answers[1..] + [r];
      JoinedGoesOn(answers[1..], r);
    }
  }

  function Answers(app: Driver, docs: seq<Json>): seq<Handled> {
    if docs == [] then [] else Answers(app, docs[..|docs| - 1]) + [Handle(app, Doc(docs[|docs| - 1]))]
  }

  lemma {:induction false} AnswersFront(app: Driver, doc: Json, docs: seq<Json>)
    ensures Answers(app, [doc] + docs) == [Handle(app, Doc(doc))] + Answers(app, docs)
    decreases |docs|
  {
    var all := [doc] + docs;
    if docs == [] {
      assert all[..0] == [] && all[0] == doc;
    } else {
      var n := |docs| - 1;
      assert all[..|all| - 1] == [doc] + docs[..n] && all[|all| - 1] == docs[n];
      AnswersFront(app, doc, docs[..n]);
    }
  }

  lemma {:induction false} SessionIsJoined(app: Driver, docs: seq<Json>)
    ensures SessionOf(app, docs) == Joined(Answers(app, docs))
    decreases |docs|
  {
    if docs != [] {
      var apps, lines := seq(|docs|, i => app), seq(|docs|, i requires 0 <= i < |docs| => Doc(docs[i]));
      var rest := docs[1..];
      assert apps[1..] == seq(|rest|, i => app);
      assert lines[1..] == seq(|rest|, i requires 0 <= i < |rest| => Doc(rest[i]));
      SessionIsJoined(app, rest);
      AnswersFront(app, docs[0], rest);
      assert docs == [docs[0]] + rest;
      SessionStep(apps, lines, []);
      NothingBefore(Session(apps, lines));
      NothingBefore(Joined(Answers(app, docs)));
      assert ([Handle(app, Doc(docs[0]))] + Answers(app, rest))[1..] == Answers(app, rest);
    }
  }

  lemma NothingBefore(h: Handled)
    ensures After([], h) == h
  {
    assert [] + h.replies == h.replies;
  }

  lemma SessionGoesOn(app: Driver, docs: seq<Json>, doc: Json)
    requires !SessionOf(app, docs).ends
    ensures var r := Handle(app, Doc(doc));
            SessionOf(app, docs + [doc]) == Handled(SessionOf(app, docs).replies + r.replies, r.ends)
  {
    SessionIsJoined(app, docs);
    SessionIsJoined(app, docs + [doc]);
    assert (docs + [doc])[..|docs|] == docs;
    JoinedGoesOn(Answers(app, docs), Handle(app, Doc(doc)));
  }

  /** What the daemon has written or is about to is what its loop replies to the
      requests handled, and it has stopped when one of them ended the session or
      the client had left. */
  ghost predicate InSession(app: Driver, s: State) {
    var r := SessionOf(app, s.handled);
    && s.received + s.replies + s.pending == r.replies
    && (r.ends ==> !s.running)
    && (!s.running ==> r.ends || !s.clientLive)
  }

  lemma StepInSession(app: Driver, s: State, side: Side)
    requires InSession(app, s) && Enabled(s, side)
    ensures InSession(app, Step(HandlerOf(app), s, side))
  {
    if side == Daemon && s.pending != [] {
      var sent, rest := s.replies + [s.pending[0]], s.pending[1..];
      assert s.received + sent + rest == s.received + s.replies + s.pending;
    } else if side == Daemon && s.requests != [] {
      SessionGoesOn(app, s.handled, s.requests[0]);
      assert s.received + s.replies + [] == s.received + s.replies;
    } else if side == Client && s.replies != [] {
      Moved(s.received, s.replies[0], s.replies[1..], s.pending);
      assert s.replies == [s.replies[0]] + s.replies[1..];
    }
  }

  /** In every run of the two processes, whatever the opening request, the daemon
      handles its requests as the loop of ConfigurationWorker.Run does. */
  lemma {:induction false} DaemonRunsSession(app: Driver, s: State, sides: seq<Side>, t: State)
    requires InSession(app, s) && Reaches(HandlerOf(app), s, sides, t)
    ensures InSession(app, t)
    decreases |sides|
  {
    if sides != [] {
      StepInSession(app, s, sides[0]);
      DaemonRunsSession(app, Step(HandlerOf(app), s, sides[0]), sides[1..], t);
    }
  }

  lemma DaemonHandlesAsSession(app: Driver, request: Json, sides: seq<Side>, s: State)
    requires Reaches(HandlerOf(app), Start(request), sides, s)
    ensures InSession(app, s)
  {
    assert InSession(app, Start(request));
    DaemonRunsSession(app, Start(request), sides, s);
  }

  // ---------------------------------------------------------------- the drivers

  /** Every answer of the daemon to a start or stop request is such a script,
      whatever state the application is in. */
  lemma DriverServes(app: Driver, state: string)
    requires state == "running" || state == "stopped"
    ensures var request, script := Request("driver.state", state), DriverReplies(app, state);
            && Serves(HandlerOf(app), request, script)
            && !Leaves(script) && |script| <= 2
            && Asks(script) == if state == "stopped" && !app.startingUp && app.running then 2 else 1
  {
    PutReads("driver.state", state);
    PutReads("connection.state", "closed");
    var script := DriverReplies(app, state);
    forall i | 0 <= i < |script|
      ensures React(script[i]) != Leave && (i == |script| - 1 ==> React(script[i]) == AskToClose)
    {
      DriverReplyReads(app, state, i);
    }
  }

  /** So a start or a stop session always ends in order within ten steps; one
      close request stays unread exactly when a running driver is stopped. */
  lemma DriverSessionEnds(app: Driver, state: string, sides: seq<Side>, s: State)
    requires state == "running" || state == "stopped"
    requires Reaches(HandlerOf(app), Start(Request("driver.state", state)), sides, s)
    ensures |sides| <= 10
    ensures Stuck(s) ==> DaemonDone(s) && !s.clientLive && s.replies == []
    ensures Stuck(s) ==> s.received == DriverReplies(app, state) + [CLOSED]
    ensures Stuck(s) ==> (s.requests != [] <==> state == "stopped" && !app.startingUp && app.running)
  {
    DriverServes(app, state);
    SessionEndsInOrder(HandlerOf(app), Request("driver.state", state), DriverReplies(app, state), sides, s);
  }

  /** What the daemon finds in a request. */
  lemma PutReads(on: string, state: string)
    ensures var doc := Request(on, state);
            Text(doc, "type") == Some("Put") && Text(doc, "on") == Some(on)
            && Complaint(doc).None? && StateOf(doc) == Some(state)
  {
  }

  /** What the client makes of a message that carries a state. */
  lemma MessageReads(kind: string, data: map<string, Json>, state: string)
    requires "state" in data && data["state"] == Str(state)
    ensures var doc := Message(kind, data);
            React(doc) == if state == "closed" then Leave else if kind == "Response" then AskToClose else Ignore
  {
    var doc := Message(kind, data);
    assert Text(doc, "type") == Some(kind) && Data(doc) == Some(Obj(data));
  }

  lemma DriverReplyReads(app: Driver, state: string, i: nat)
    requires (state == "running" || state == "stopped") && i < |DriverReplies(app, state)|
    ensures var doc := DriverReplies(app, state)[i];
            React(doc) != Leave && (i == |DriverReplies(app, state)| - 1 ==> React(doc) == AskToClose)
  {
    MessageReads("Response", map["state" := Str("startup")], "startup");
    MessageReads("Response", map["state" := Str("running")], "running");
    MessageReads("Response", map["state" := Str("stopped")], "stopped");
    MessageReads("Update", map["state" := Str("startup")], "startup");
    MessageReads("Response", map["state" := Str("crashed"), "crashReason" := Str(app.crashReason)], "crashed");
  }
}
