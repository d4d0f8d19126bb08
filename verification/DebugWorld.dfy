/** The adapter and the debuggee running at the same time, over the event queue, the channel of resume commands and the
    pause flag. A step is one action on something shared; steps of the two threads and of the client interleave
    freely. */
module DebugWorld {
  import opened Syntax
  import opened DebugSession

  /** Where the debuggee thread is. `Looked`: it has taken the pause flag at the start of a statement; `Waiting`: it has
      reported a stop and blocks on the channel. `late` statements began after the adapter stored its last flag. */
  datatype Pc =
    | Unborn
    | Working
    | Looked(paused: bool, late: bool)
    | Waiting(late: bool)
    | Leaving
    | Exiting
    | Gone

  /** Where the adapter thread is: between events, serving deferred requests, or ending the session, with the pause flag
      stored and `Terminate` still to be sent. */
  datatype Stage = Idle | Draining | Storing(request: Option<Request>)

  /** What has happened so far. `put` are all requests ever deferred, of which `drained` have been served since;
      `served` are the requests answered, with `true` for one that came too early to start the program; `notices` are
      the debuggee's messages taken; `lateLooks` counts the statements begun after the last flag was stored. */
  datatype Log = Log(
    out: seq<Message>,
    taken: seq<Request>,
    served: seq<(Request, bool)>,
    put: seq<Request>,
    drained: nat,
    dropped: seq<Request>,
    notices: seq<DebugMsg>,
    lateLooks: nat)

  datatype World = World(
    session: Session,
    wire: Wire,
    events: seq<Incoming>,
    pc: Pc,
    stage: Stage,
    stored: bool,
    log: Log)

  const Init: World := World(NewSession, NoWire, [], Unborn, Idle, false, Log([], [], [], [], 0, [], [], 0))

  datatype Step =
    | ClientSends(request: Request)
    | ClientCloses
    | Take
    | DrainNext
    | DrainEnd
    | EndSession
    | Look
    | Pass
    | Stop(info: StopInfo)
    | Receive
    | Orphan
    | EndProgram
    | Report(failed: bool)
    | Drop

  predicate Can(w: World, step: Step) {
    match step
    case ClientSends(_) => true
    case ClientCloses => true
    case Take => !w.session.shouldExit && w.stage.Idle? && w.events != []
    case DrainNext => w.stage.Draining? && CanDrain(w.session)
    case DrainEnd => w.stage.Draining? && !CanDrain(w.session)
    case EndSession => w.stage.Storing?
    case Look => w.pc.Working?
    case Pass => w.pc.Looked? && !w.pc.paused
    case Stop(_) => w.pc.Looked?
    case Receive => w.pc.Waiting? && w.wire.resumes != []
    case Orphan => w.pc.Waiting? && w.wire.resumes == [] && w.session.shouldExit
    case EndProgram => w.pc.Working?
    case Report(_) => w.pc.Leaving?
    case Drop => w.pc.Exiting?
  }

  /** `configurationDone` before any successful `launch`. */
  predicate TooEarly(s: Session, req: Request) {
    req.command.ConfigurationDone? && !s.spawned && s.program.None?
  }

  /** The adapter takes a turn; a debuggee it starts begins to work. */
  function Turned(w: World, t: Turn): World {
    w.(session := t.session, wire := t.wire,
       pc := if !w.session.spawned && t.session.spawned then Working else w.pc,
       log := w.log.(out := w.log.out + t.out))
  }

  function TakeRequest(w: World, req: Request): World {
    var w1 := w.(log := w.log.(taken := w.log.taken + [req]));
    if req.command.Disconnect?
      then w1.(wire := StoreFlag(w.session, w.wire), stage := Storing(Some(req)), stored := true)
    else if IsDeferred(w.session, req.command) then
      Turned(w1.(log := w1.log.(put := w.log.put + [req])), ClientTurn(w.session, w.wire, req))
    else
      Turned(w1.(log := w1.log.(served := w.log.served + [(req, TooEarly(w.session, req))])),
             ClientTurn(w.session, w.wire, req))
  }

  function TakeNext(w: World): World
    requires w.events != []
  {
    var w1 := w.(events := w.events[1..]);
    match w.events[0]
    case Client(req) => TakeRequest(w1, req)
    case ClientEof => w1.(wire := StoreFlag(w.session, w.wire), stage := Storing(None), stored := true)
    case Debug(msg) =>
      Turned(w1.(log := w.log.(notices := w.log.notices + [msg])), Notice(w.session, w.wire, msg)).(stage := Draining)
  }

  function ServeDeferred(w: World): World
    requires CanDrain(w.session)
  {
    var req := w.session.deferred[0];
    Turned(w.(log := w.log.(drained := w.log.drained + 1, served := w.log.served + [(req, TooEarly(w.session, req))])),
           DrainOne(w.session, w.wire))
  }

  function Finish(w: World): World
    requires w.stage.Storing?
  {
    var log := w.log.(dropped := w.session.deferred);
    match w.stage.request
    case Some(req) =>
      Turned(w.(stage := Idle, log := log.(served := log.served + [(req, false)])),
             FinishDisconnect(w.session, w.wire, req))
    case None =>
      w.(stage := Idle, log := log, session := Terminated(w.session), wire := SendTerminate(w.session, w.wire))
  }

  function Do(w: World, step: Step): World
    requires Can(w, step)
  {
    match step
    case ClientSends(req) => w.(events := w.events + [Client(req)])
    case ClientCloses => w.(events := w.events + [ClientEof])
    case Take => TakeNext(w)
    case DrainNext => ServeDeferred(w)
    case DrainEnd => w.(stage := Idle)
    case EndSession => Finish(w)
    case Look =>
      w.(pc := Looked(w.wire.flag, w.stored), wire := w.wire.(flag := false),
         log := w.log.(lateLooks := w.log.lateLooks + if w.stored then 1 else 0))
    case Pass => w.(pc := Working)
    case Stop(info) => w.(pc := Waiting(w.pc.late), events := w.events + [Debug(StoppedMsg(info))])
    case Receive =>
      w.(pc := if w.wire.resumes[0].Terminate? then Leaving else Working,
         wire := w.wire.(resumes := w.wire.resumes[1..]))
    case Orphan => w.(pc := Leaving)
    case EndProgram => w.(pc := Leaving)
    case Report(failed) => w.(pc := Exiting, events := w.events + [Debug(ExitedMsg(failed))])
    case Drop => w.(pc := Gone, wire := w.wire.(live := false))
  }

  /** The world after a schedule, if every step of it was possible. */
  function Play(w: World, schedule: seq<Step>): Option<World>
    decreases |schedule|
  {
    if schedule == [] then Some(w)
    else if Can(w, schedule[0]) then Play(Do(w, schedule[0]), schedule[1..])
    else None
  }

  // ---- The invariant ----

  /** The debuggee's messages still on the queue. */
  function Reports(events: seq<Incoming>): seq<DebugMsg> {
    if events == [] then []
    else (if events[0].Debug? then [events[0].msg] else []) + Reports(events[1..])
  }

  function Moves(resumes: seq<ResumeCmd>): nat {
    if resumes == [] then 0 else (if resumes[0].Go? then 1 else 0) + Moves(resumes[1..])
  }

  /** The two threads meet: whoever waits is waited for by nobody. */
  predicate Meeting(w: World) {
    var reports, resumes := Reports(w.events), w.wire.resumes;
    match w.session.state
    case Configuring => w.pc.Unborn? && reports == [] && resumes == []
    case Stopped => w.pc.Waiting? && reports == [] && resumes == []
    case Exited => (w.pc.Exiting? || w.pc.Gone?) && reports == [] && resumes == []
    case Running =>
      match w.pc
      case Unborn => false
      case Waiting(_) =>
        || (reports == [] && |resumes| == 1 && resumes[0].Go?)
        || (|reports| == 1 && reports[0].StoppedMsg? && resumes == [])
      case Exiting => |reports| == 1 && reports[0].ExitedMsg? && resumes == []
      case Gone => |reports| == 1 && reports[0].ExitedMsg? && resumes == []
      case _ => reports == [] && resumes == []
  }

  /** The session is ending: the flag waits for the next statement, and `Terminate` for the stop it causes. */
  predicate Ending(w: World) {
    var resumes := w.wire.resumes;
    && (w.stage.Storing? <==> !w.session.shouldExit)
    && (!w.session.spawned ==> w.log.lateLooks == 0)
    && (w.session.spawned ==>
          && (w.pc.Leaving? || w.pc.Exiting? || w.pc.Gone? ==>
                resumes == [] || (w.session.shouldExit && resumes == [Terminate]))
          && w.log.lateLooks <= (if w.pc.Working? || (w.pc.Looked? && !w.pc.late)
                                 || (w.pc.Waiting? && !w.pc.late) then 0 else 1)
          && (w.pc.Looked? && w.pc.late ==> w.pc.paused)
          && (w.pc.Working? || (w.pc.Looked? && !w.pc.late) || (w.pc.Waiting? && !w.pc.late) ==> w.wire.flag)
          && (w.pc.Working? || w.pc.Looked? || (w.pc.Waiting? && w.pc.late) ==>
                resumes == if w.session.shouldExit then [Terminate] else [])
          && (w.pc.Waiting? && !w.pc.late ==>
                || resumes == (if w.session.shouldExit then [Terminate] else [])
                || (|resumes| > 0 && resumes[0].Go?
                    && resumes[1..] == if w.session.shouldExit then [Terminate] else [])))
  }

  predicate Late(pc: Pc) {
    (pc.Looked? || pc.Waiting?) && pc.late
  }

  ghost predicate Inv(w: World) {
    && (w.session.spawned <==> !w.pc.Unborn?)
    && (w.wire.live <==> !w.pc.Unborn? && !w.pc.Gone?)
    && (w.session.state.Stopped? <==> w.session.stopped.Some?)
    && (!w.session.spawned ==> w.wire.resumes == [])
    && (w.session.shouldExit ==> w.stored)
    && (w.stage.Draining? ==> !w.stored)
    && (forall i :: 0 <= i < |w.session.deferred| ==> !IsControl(w.session.deferred[i].command))
    && (if w.stored then Ending(w) else Meeting(w) && !w.stage.Storing? && w.log.lateLooks == 0 && !Late(w.pc))
  }

  lemma {:induction false} ReportsAppend(events: seq<Incoming>, e: Incoming)
    ensures Reports(events + [e]) == Reports(events) + if e.Debug? then [e.msg] else []
  {
    if events != [] {
      ReportsAppend(events[1..], e);
      assert (events + [e])[1..] == events[1..] + [e];
    }
  }

  lemma StepKeepsInv(w: World, step: Step)
    requires Inv(w) && Can(w, step)
    ensures Inv(Do(w, step))
  {
    match step
    case ClientSends(req) => ReportsAppend(w.events, Client(req));
    case ClientCloses => ReportsAppend(w.events, ClientEof);
    case Stop(info) => ReportsAppend(w.events, Debug(StoppedMsg(info)));
    case Report(failed) => ReportsAppend(w.events, Debug(ExitedMsg(failed)));
    case Take => TakeKeepsInv(w);
    case DrainNext => DrainKeepsInv(w);
    case EndSession => FinishKeepsInv(w);
    case _ =>
  }

  lemma TakeKeepsInv(w: World)
    requires Inv(w) && Can(w, Take)
    ensures Inv(Do(w, Take))
  {
    match w.events[0]
    case Client(req) => RequestKeepsInv(w, req);
    case ClientEof =>
    case Debug(msg) =>
  }

  lemma RequestKeepsInv(w: World, req: Request)
    requires Inv(w) && Can(w, Take) && w.events[0] == Client(req)
    ensures Inv(Do(w, Take))
  {
    if req.command.Disconnect? {
    } else if IsDeferred(w.session, req.command) {
    } else {
      ServeKeepsInv(w.(events := w.events[1..]), req);
    }
  }

  /** A request served at once, or after waiting, leaves the two threads meeting. */
  lemma ServeKeepsInv(w: World, req: Request)
    requires Inv(w) && !w.stored && !req.command.Disconnect?
    ensures Inv(Turned(w, Serve(w.session, w.wire, req)))
  {
    hide Ending, Reports;
  }

  lemma DrainKeepsInv(w: World)
    requires Inv(w) && Can(w, DrainNext)
    ensures Inv(Do(w, DrainNext))
  {
    var req := w.session.deferred[0];
    assert !IsControl(req.command);
    ServeKeepsInv(w.(session := w.session.(deferred := w.session.deferred[1..])), req);
  }

  lemma FinishKeepsInv(w: World)
    requires Inv(w) && Can(w, EndSession)
    ensures Inv(Do(w, EndSession))
  {
  }

  /** In every reachable world, whatever the interleaving. */
  lemma {:induction false} InvHolds(w: World, schedule: seq<Step>)
    requires Inv(w) && Play(w, schedule).Some?
    ensures Inv(Play(w, schedule).value)
    decreases |schedule|
  {
    if schedule != [] {
      StepKeepsInv(w, schedule[0]);
      InvHolds(Do(w, schedule[0]), schedule[1..]);
    }
  }

  // ---- The rendezvous ----

  /** At most one resume command is in flight; the adapter shows a stop exactly while it remembers one, and then the
      debuggee waits on an empty channel; and a debuggee that waits on an empty channel while the adapter believes it
      runs has already reported its stop, so the threads never wait for each other. */
  lemma Rendezvous(schedule: seq<Step>)
    requires Play(Init, schedule).Some?
    ensures var w := Play(Init, schedule).value;
            && Moves(w.wire.resumes) <= 1
            && (w.session.state.Stopped? <==> w.session.stopped.Some?)
            && (!w.stored && w.session.state.Stopped? ==> w.pc.Waiting? && w.wire.resumes == [])
            && (!w.stored && w.session.state.Running? && w.pc.Waiting? && w.wire.resumes == [] ==>
                  |Reports(w.events)| == 1 && Reports(w.events)[0].StoppedMsg?)
  {
    InvHolds(Init, schedule);
    FewMoves(Play(Init, schedule).value.wire.resumes);
  }

  lemma FewMoves(resumes: seq<ResumeCmd>)
    requires |resumes| <= 1 || resumes[1..] == [Terminate]
    ensures Moves(resumes) <= 1
  {
    if |resumes| > 0 && resumes[1..] != [] {
      assert Moves(resumes[1..]) == Moves(resumes[1..][1..]);
    }
  }

  /** A resume request that finds the session stopped always reaches the debuggee: the answer that it is not there is
      never given. */
  lemma ResumeReaches(schedule: seq<Step>, req: Request, move: Move)
    requires Play(Init, schedule).Some?
    requires var w := Play(Init, schedule).value;
             !w.stored && w.session.state.Stopped?
    ensures var w := Play(Init, schedule).value;
            var t := ResumeProgram(w.session, w.wire, req, move);
            t.out == [Response(w.session.sent + 1, req.id, true)] && t.wire.resumes == [Go(move)]
  {
    InvHolds(Init, schedule);
  }

  /** While the program runs and the client is silent, the debuggee can always move on by itself. */
  lemma NeverStuck(schedule: seq<Step>) returns (step: Step)
    requires Play(Init, schedule).Some?
    requires var w := Play(Init, schedule).value;
             !w.stored && w.session.state.Running? && w.stage.Idle? && w.events == []
    ensures var w := Play(Init, schedule).value;
            Can(w, step) && !step.ClientSends? && !step.ClientCloses?
  {
    InvHolds(Init, schedule);
    var w := Play(Init, schedule).value;
    step := match w.pc
            case Working => Look
            case Looked(_, _) => Stop(StopInfo(Pause, 0))
            case Waiting(_) => Receive
            case _ => Report(false);
  }

  // ---- Terminate ----

  /** Once the last flag is stored, at most one more statement begins; it stops, and from then on the debuggee never
      works again, whatever was still queued. */
  lemma TerminateIsNeverLost(schedule: seq<Step>, step: Step)
    requires Play(Init, schedule).Some? && Can(Play(Init, schedule).value, step)
    ensures var w := Play(Init, schedule).value;
            && w.log.lateLooks <= 1
            && (Late(w.pc) ==> !step.Pass? && !Do(w, step).pc.Working?)
            && (w.stored && step.Look? ==> Do(w, step).pc == Looked(true, true) && w.log.lateLooks == 0)
  {
    InvHolds(Init, schedule);
    StepKeepsInv(Play(Init, schedule).value, step);
  }

  /** A debuggee that waits once the session has ended is let go: the command it takes is `Terminate`, or it is the one
      resume sent before the last flag was stored. Then the next statement it begins stops, and `Terminate` is there. */
  lemma WaitingIsReleased(schedule: seq<Step>, info: StopInfo)
    requires Play(Init, schedule).Some?
    requires var w := Play(Init, schedule).value;
             w.session.shouldExit && w.pc.Waiting?
    ensures var w := Play(Init, schedule).value;
            && Can(w, Receive)
            && var w1 := Do(w, Receive);
            || w1.pc == Leaving
            || (&& w1.pc.Working? && w.wire.resumes[0].Go? && !w.pc.late
                && var w2 := Do(w1, Look);
                && !Can(w2, Pass)
                && Play(w2, [Stop(info), Receive]).Some? && Play(w2, [Stop(info), Receive]).value.pc == Leaving)
  {
    InvHolds(Init, schedule);
    var w := Play(Init, schedule).value;
    StepKeepsInv(w, Receive);
    var w1 := Do(w, Receive);
    if w1.pc.Working? {
      StepKeepsInv(w1, Look);
      var w2 := Do(w1, Look);
      StepKeepsInv(w2, Stop(info));
      PlayTwo(w2, Stop(info), Receive);
    }
  }

  lemma PlayTwo(w: World, a: Step, b: Step)
    requires Can(w, a) && Can(Do(w, a), b)
    ensures Play(w, [a, b]) == Some(Do(Do(w, a), b))
  {
    assert [a, b][1..] == [b] && [b][1..] == [];
    assert Play(Do(w, a), [b]) == Play(Do(Do(w, a), b), []);
  }

  /** The debuggee thread's steps. */
  predicate Own(step: Step) {
    step.Look? || step.Pass? || step.Stop? || step.Receive? || step.Orphan? || step.EndProgram? || step.Report?
    || step.Drop?
  }

  function OwnSteps(schedule: seq<Step>): nat {
    if schedule == [] then 0 else (if Own(schedule[0]) then 1 else 0) + OwnSteps(schedule[1..])
  }

  /** How many steps the debuggee can still make once the session has ended. */
  function StepsLeft(w: World): nat {
    match w.pc
    case Unborn => 0
    case Gone => 0
    case Exiting => 1
    case Leaving => 2
    case Waiting(_) => if w.wire.resumes != [] && w.wire.resumes[0].Go? then 6 else 3
    case Looked(_, late) => if late then 4 else 6
    case Working => 5
  }

  lemma EndedStep(w: World, step: Step)
    requires Inv(w) && w.session.shouldExit && Can(w, step)
    ensures Do(w, step).session.shouldExit
    ensures StepsLeft(Do(w, step)) + (if Own(step) then 1 else 0) <= StepsLeft(w)
  {
  }

  lemma {:induction false} EndedRun(w: World, more: seq<Step>)
    requires Inv(w) && w.session.shouldExit && Play(w, more).Some?
    ensures var w' := Play(w, more).value;
            Inv(w') && w'.session.shouldExit && StepsLeft(w') + OwnSteps(more) <= StepsLeft(w)
    decreases |more|
  {
    if more != [] {
      hide Inv, Can, Do, StepsLeft;
      EndedStep(w, more[0]);
      StepKeepsInv(w, more[0]);
      EndedRun(Do(w, more[0]), more[1..]);
    }
  }

  /** Ending the session ends the debuggee: however the run goes on, its thread makes at most six more steps, and until
      it is gone it always can make one. */
  lemma DebuggeeEnds(schedule: seq<Step>, more: seq<Step>) returns (step: Step)
    requires Play(Init, schedule).Some? && Play(Init, schedule).value.session.shouldExit
    requires Play(Play(Init, schedule).value, more).Some?
    ensures OwnSteps(more) <= 6
    ensures var w := Play(Play(Init, schedule).value, more).value;
            w.pc.Unborn? || w.pc.Gone? || (Own(step) && Can(w, step))
  {
    InvHolds(Init, schedule);
    var w0 := Play(Init, schedule).value;
    EndedRun(w0, more);
    var w := Play(w0, more).value;
    step := match w.pc
            case Working => Look
            case Looked(_, _) => Stop(StopInfo(Pause, 0))
            case Waiting(_) => Receive
            case Leaving => Report(false)
            case _ => Drop;
  }

  // ---- Bookkeeping ----

  function Number(m: Message): nat {
    m.number
  }

  /** Messages carry the numbers from `from + 1` on, without a gap. */
  predicate Numbered(out: seq<Message>, from: nat) {
    forall i :: 0 <= i < |out| ==> Number(out[i]) == from + i + 1
  }

  /** The requests that were answered, in the order of the answers. */
  function Answers(out: seq<Message>): seq<int> {
    if out == [] then []
    else (if out[0].Response? then [out[0].requestId] else []) + Answers(out[1..])
  }

  /** One answer a request; two for a `configurationDone` that came too early. */
  function Expected(served: seq<(Request, bool)>): seq<int> {
    if served == [] then []
    else (if served[0].1 then [served[0].0.id, served[0].0.id] else [served[0].0.id]) + Expected(served[1..])
  }

  function Requests(served: seq<(Request, bool)>): seq<Request> {
    seq(|served|, i requires 0 <= i < |served| => served[i].0)
  }

  lemma {:induction false} AnswersAppend(a: seq<Message>, b: seq<Message>)
    ensures Answers(a + b) == Answers(a) + Answers(b)
    decreases |a|
  {
    if a == [] {
      assert a + b == b;
    } else {
      AnswersAppend(a[1..], b);
      assert (a + b)[1..] == a[1..] + b && (a + b)[0] == a[0];
      var first := if a[0].Response? then [a[0].requestId] else [];
      assert first + (Answers(a[1..]) + Answers(b)) == first + Answers(a[1..]) + Answers(b);
    }
  }

  lemma {:induction false} ExpectedAppend(a: seq<(Request, bool)>, x: (Request, bool))
    ensures Expected(a + [x]) == Expected(a) + Expected([x])
    ensures Requests(a + [x]) == Requests(a) + [x.0]
    decreases |a|
  {
    if a != [] {
      ExpectedAppend(a[1..], x);
      assert (a + [x])[1..] == a[1..] + [x];
    }
  }

  /** What one turn sends: consecutive numbers, and the answers to one request. */
  ghost predicate Answered(s: Session, t: Turn, expected: seq<int>) {
    t.session.sent == s.sent + |t.out| && Numbered(t.out, s.sent) && Answers(t.out) == expected
  }

  lemma ServeAnswers(s: Session, w: Wire, req: Request)
    ensures Answered(s, Serve(s, w, req), Expected([(req, TooEarly(s, req))]))
  {
    match req.command
    case Initialize => AnnouncedAnswers(s, w, req, "initialized");
    case ConfigurationDone => ConfigurationAnswers(s, w, req);
    case Disconnect => FinishAnswers(s, StoreFlag(s, w), req);
    case Launch(_, _) => LaunchAnswers(s, w, req);
    case Resume(move) => ResumeAnswers(s, w, req, move);
    case _ =>
  }

  lemma LaunchAnswers(s: Session, w: Wire, req: Request)
    requires req.command.Launch?
    ensures Answered(s, Serve(s, w, req), Expected([(req, TooEarly(s, req))]))
  {
  }

  lemma ResumeAnswers(s: Session, w: Wire, req: Request, move: Move)
    ensures Answered(s, ResumeProgram(s, w, req, move), [req.id])
  {
  }

  /** One response and one event. */
  lemma AnnouncedAnswers(s: Session, w: Wire, req: Request, name: string)
    ensures Answered(s, Announce(Reply(s, w, req, true), name), [req.id])
  {
    assert Answers([Event(s.sent + 2, name)]) == [];
  }

  lemma ConfigurationAnswers(s: Session, w: Wire, req: Request)
    requires req.command.ConfigurationDone?
    ensures Answered(s, Serve(s, w, req), Expected([(req, TooEarly(s, req))]))
  {
    assert Answers([Response(s.sent + 2, req.id, false)]) == [req.id];
  }

  lemma NoticeAnswers(s: Session, w: Wire, msg: DebugMsg)
    ensures Answered(s, Notice(s, w, msg), [])
  {
    EventsAnswerNothing(Notice(s, w, msg).out);
  }

  lemma {:induction false} EventsAnswerNothing(out: seq<Message>)
    requires forall i :: 0 <= i < |out| ==> out[i].Event?
    ensures Answers(out) == []
    decreases |out|
  {
    if out != [] {
      EventsAnswerNothing(out[1..]);
    }
  }

  /** The log agrees with the session: messages are numbered, every served request is answered, the deferred requests
      are the ones put off and not served yet, and no request is lost. */
  ghost predicate Accounts(w: World) {
    var log := w.log;
    && w.session.sent == |log.out| && Numbered(log.out, 0)
    && Answers(log.out) == Expected(log.served)
    && log.drained <= |log.put|
    && (w.session.shouldExit ==> w.session.deferred == [] && log.put == log.put[..log.drained] + log.dropped)
    && (!w.session.shouldExit ==> w.session.deferred == log.put[log.drained..] && log.dropped == [])
    && (w.stage.Idle? && w.session.deferred != [] ==> w.session.state.Running?)
    && (w.stage.Storing? ==> !w.session.shouldExit)
    && multiset(log.taken) == multiset(Requests(log.served)) + multiset(w.session.deferred) + multiset(log.dropped)
                              + (if w.stage.Storing?
                                 && w.stage.request.Some? then multiset{w.stage.request.value} else multiset{})
  }

  lemma TurnedAccounts(w: World, t: Turn, expected: seq<int>)
    requires w.session.sent == |w.log.out| && Numbered(w.log.out, 0) && Answered(w.session, t, expected)
    ensures var w' := Turned(w, t);
            && w'.session.sent == |w'.log.out| && Numbered(w'.log.out, 0)
            && Answers(w'.log.out) == Answers(w.log.out) + expected
  {
    AnswersAppend(w.log.out, t.out);
  }

  lemma StepKeepsAccounts(w: World, step: Step)
    requires Inv(w) && Accounts(w) && Can(w, step)
    ensures Accounts(Do(w, step))
  {
    match step
    case Take => TakeKeepsAccounts(w);
    case DrainNext => DrainKeepsAccounts(w);
    case EndSession => FinishKeepsAccounts(w);
    case _ =>
  }

  lemma TakeKeepsAccounts(w: World)
    requires Inv(w) && Accounts(w) && Can(w, Take)
    ensures Accounts(Do(w, Take))
  {
    match w.events[0]
    case Client(req) =>
      if req.command.Disconnect? {
        assert multiset(w.log.taken + [req]) == multiset(w.log.taken) + multiset{req};
      } else if IsDeferred(w.session, req.command) {
        DeferKeepsAccounts(w, req);
      } else {
        ServedKeepsAccounts(w, req);
      }
    case ClientEof =>
    case Debug(msg) =>
      NoticeAnswers(w.session, w.wire, msg);
      TurnedAccounts(w.(events := w.events[1..]), Notice(w.session, w.wire, msg), []);
  }

  lemma DeferKeepsAccounts(w: World, req: Request)
    requires Inv(w) && Accounts(w) && Can(w, Take) && w.events[0] == Client(req) && IsDeferred(w.session, req.command)
    ensures Accounts(Do(w, Take))
  {
    var log := w.log;
    assert (log.put + [req])[log.drained..] == log.put[log.drained..] + [req];
    assert log.out + [] == log.out;
  }

  lemma ServedKeepsAccounts(w: World, req: Request)
    requires Inv(w) && Accounts(w) && Can(w, Take) && w.events[0] == Client(req)
    requires !IsDeferred(w.session, req.command) && !req.command.Disconnect?
    ensures Accounts(Do(w, Take))
  {
    var x := (req, TooEarly(w.session, req));
    var log := w.log.(taken := w.log.taken + [req], served := w.log.served + [x]);
    ServeAnswers(w.session, w.wire, req);
    ExpectedAppend(w.log.served, x);
    TurnedAccounts(w.(events := w.events[1..], log := log), Serve(w.session, w.wire, req), Expected([x]));
    ServeKeepsDeferred(w.session, w.wire, req);
  }

  /** Only ending the session touches what is deferred. */
  lemma ServeKeepsDeferred(s: Session, w: Wire, req: Request)
    requires !req.command.Disconnect?
    ensures var t := Serve(s, w, req);
            && t.session.deferred == s.deferred && t.session.shouldExit == s.shouldExit
            && (s.state.Running? ==> t.session.state.Running? || req.command.Disconnect?)
  {
  }

  lemma DrainKeepsAccounts(w: World)
    requires Inv(w) && Accounts(w) && Can(w, DrainNext)
    ensures Accounts(Do(w, DrainNext))
  {
    var req := w.session.deferred[0];
    assert !IsControl(req.command);
    var s := w.session.(deferred := w.session.deferred[1..]);
    var x := (req, TooEarly(w.session, req));
    var log := w.log.(drained := w.log.drained + 1, served := w.log.served + [x]);
    ServeAnswers(s, w.wire, req);
    ExpectedAppend(w.log.served, x);
    TurnedAccounts(w.(session := s, log := log), Serve(s, w.wire, req), Expected([x]));
    ServeKeepsDeferred(s, w.wire, req);
    assert w.session.deferred == [req] + s.deferred;
    assert w.log.put[w.log.drained..][1..] == w.log.put[w.log.drained + 1..];
  }

  lemma FinishKeepsAccounts(w: World)
    requires Inv(w) && Accounts(w) && Can(w, EndSession)
    ensures Accounts(Do(w, EndSession))
  {
    hide Inv, Answers, Numbered, Meeting;
    assert w.log.put == w.log.put[..w.log.drained] + w.log.put[w.log.drained..];
    match w.stage.request
    case None =>
    case Some(req) =>
      var x := (req, false);
      var log := w.log.(dropped := w.session.deferred, served := w.log.served + [x]);
      ExpectedAppend(w.log.served, x);
      FinishAnswers(w.session, w.wire, req);
      TurnedAccounts(w.(stage := Idle, log := log), FinishDisconnect(w.session, w.wire, req), Expected([x]));
  }

  lemma FinishAnswers(s: Session, w: Wire, req: Request)
    ensures Answered(s, FinishDisconnect(s, w, req), [req.id])
  {
    AnnouncedAnswers(Terminated(s), SendTerminate(s, w), req, "terminated");
  }

  lemma {:induction false} AccountsHold(w: World, schedule: seq<Step>)
    requires Inv(w) && Accounts(w) && Play(w, schedule).Some?
    ensures Accounts(Play(w, schedule).value)
    decreases |schedule|
  {
    if schedule != [] {
      StepKeepsInv(w, schedule[0]);
      StepKeepsAccounts(w, schedule[0]);
      AccountsHold(Do(w, schedule[0]), schedule[1..]);
    }
  }

  /** Deferred requests are conserved: between events there are some only while the program runs; they are served in the
      order they came, each once, and what is left when the session ends is dropped as a whole. No request taken from
      the queue is ever forgotten, every served one is answered, in order, and messages are numbered without a gap. */
  lemma RequestsAreConserved(schedule: seq<Step>)
    requires Play(Init, schedule).Some?
    ensures var w := Play(Init, schedule).value;
            && (w.stage.Idle? && w.session.deferred != [] ==> w.session.state.Running?)
            && w.log.drained <= |w.log.put|
            && w.log.put[w.log.drained..] == (if w.session.shouldExit then w.log.dropped else w.session.deferred)
            && (w.stage.Idle? ==>
                  multiset(w.log.taken)
                    == multiset(Requests(w.log.served)) + multiset(w.session.deferred) + multiset(w.log.dropped))
            && Answers(w.log.out) == Expected(w.log.served)
            && Numbered(w.log.out, 0)
  {
    InvHolds(Init, schedule);
    AccountsHold(Init, schedule);
    var w := Play(Init, schedule).value;
    if w.session.shouldExit {
      assert (w.log.put[..w.log.drained] + w.log.dropped)[w.log.drained..] == w.log.dropped;
    }
  }

  /** The next deferred request is served at a moment when the program does not run, and it is the oldest one. */
  lemma DeferredAreServedInOrder(schedule: seq<Step>)
    requires Play(Init, schedule).Some? && Can(Play(Init, schedule).value, DrainNext)
    ensures var w := Play(Init, schedule).value;
            && !w.session.state.Running?
            && w.log.drained < |w.log.put|
            && Requests(Do(w, DrainNext).log.served) == Requests(w.log.served) + [w.log.put[w.log.drained]]
  {
    InvHolds(Init, schedule);
    AccountsHold(Init, schedule);
    var w := Play(Init, schedule).value;
    ExpectedAppend(w.log.served, (w.session.deferred[0], TooEarly(w.session, w.session.deferred[0])));
  }

  // ---- The adapter alone ----

  lemma {:induction false} PlayAppend(w: World, a: seq<Step>, b: seq<Step>)
    requires Play(w, a).Some?
    ensures Play(w, a + b) == Play(Play(w, a).value, b)
    decreases |a|
  {
    if a == [] {
      assert a + b == b;
    } else {
      PlayAppend(Do(w, a[0]), a[1..], b);
      assert (a + b)[1..] == a[1..] + b && (a + b)[0] == a[0];
    }
  }

  /** The adapter's own steps from `w` have brought it to the end of the turn `t`. */
  ghost predicate Reached(w: World, schedule: seq<Step>, t: Turn) {
    var w' := Play(w, schedule);
    w'.Some? && w'.value.session == t.session && w'.value.wire == t.wire && w'.value.log.out == w.log.out + t.out
    && w'.value.stage.Idle?
  }

  lemma PlayOne(w: World, step: Step)
    requires Can(w, step)
    ensures Play(w, [step]) == Some(Do(w, step))
  {
    assert [step][1..] == [];
    assert Play(Do(w, step), []) == Some(Do(w, step));
  }

  /** One step, and then a turn that sends `later` after what the step has sent. */
  lemma ThenReached(w: World, step: Step, rest: seq<Step>, sent: seq<Message>, t: Turn)
    requires Can(w, step) && Do(w, step).log.out == w.log.out + sent && Reached(Do(w, step), rest, t)
    ensures Reached(w, [step] + rest, Turn(t.session, t.wire, sent + t.out))
  {
    assert ([step] + rest)[1..] == rest;
    assert w.log.out + (sent + t.out) == w.log.out + sent + t.out;
  }

  lemma DrainDone(s: Session, w: Wire)
    requires !CanDrain(s)
    ensures Drain(s, w) == Turn(s, w, [])
  {
  }

  lemma {:induction false} DrainIsSteps(w: World) returns (schedule: seq<Step>)
    requires w.stage.Draining?
    ensures Reached(w, schedule, Drain(w.session, w.wire))
    decreases |w.session.deferred|
  {
    hide Drain, DrainOne, CanDrain, Play;
    if CanDrain(w.session) {
      DrainShrinks(w.session, w.wire);
      DrainStep(w.session, w.wire);
      var t := DrainOne(w.session, w.wire);
      var rest := DrainIsSteps(Do(w, DrainNext));
      ThenReached(w, DrainNext, rest, t.out, Drain(t.session, t.wire));
      schedule := [DrainNext] + rest;
    } else {
      DrainDone(w.session, w.wire);
      schedule := [DrainEnd];
      PlayOne(w, DrainEnd);
      assert w.log.out + [] == w.log.out;
    }
  }

  /** One call of the session's `Handle` is one run of the adapter's steps that nobody interrupts: the interleaved model
      and the session are about the same adapter. */
  lemma TurnIsSteps(w: World) returns (schedule: seq<Step>)
    requires Can(w, Take)
    ensures Reached(w, schedule, TurnFor(w.session, w.wire, w.events[0]))
  {
    hide Drain, Play, Notice, Serve;
    var w1 := Do(w, Take);
    assert w.log.out + [] == w.log.out;
    match w.events[0] {
      case Debug(msg) =>
        var rest := DrainIsSteps(w1);
        var first := Notice(w.session, w.wire, msg);
        ThenReached(w, Take, rest, first.out, Drain(first.session, first.wire));
        schedule := [Take] + rest;
      case ClientEof => schedule := EndingIsSteps(w, None);
      case Client(req) =>
        if req.command.Disconnect? {
          schedule := EndingIsSteps(w, Some(req));
        } else {
          PlayOne(w, Take);
          schedule := [Take];
        }
    }
  }

  lemma EndingIsSteps(w: World, request: Option<Request>) returns (schedule: seq<Step>)
    requires Can(w, Take)
    requires if request.Some? then w.events[0] == Client(request.value) && request.value.command.Disconnect?
             else w.events[0] == ClientEof
    ensures Reached(w, schedule, TurnFor(w.session, w.wire, w.events[0]))
  {
    hide Play;
    var w1 := Do(w, Take);
    var t := if request.Some? then FinishDisconnect(w.session, w1.wire, request.value)
             else Turn(Terminated(w.session), SendTerminate(w.session, w1.wire), []);
    PlayOne(w1, EndSession);
    assert w.log.out + [] == w.log.out && [] + t.out == t.out;
    ThenReached(w, Take, [EndSession], [], t);
    schedule := [Take] + [EndSession];
  }
}
