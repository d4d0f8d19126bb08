/** What the debug adapter does for its client, told by the client's requests and the debuggee's stops alone, over every
    schedule of the two threads. */
module DebugLaws {
  import opened Syntax
  import opened DebugSession
  import opened DebugWorld

  // ---- Resuming ----

  /** The debuggee gets the move the client asked for, and nothing else. */
  lemma MoveIsSent(schedule: seq<Step>, req: Request, move: Move)
    requires Play(Init, schedule).Some?
    requires var w := Play(Init, schedule).value;
             && Can(w, Take) && !w.stored && w.session.state.Stopped?
             && w.events[0] == Client(req) && req.command == Resume(move)
    ensures var w := Play(Init, schedule).value;
            var w' := Do(w, Take);
            && w'.wire.resumes == [Go(move)] && w'.session.state.Running? && w'.pc == w.pc && w.pc.Waiting?
            && w'.log.out == w.log.out + [Response(w.session.sent + 1, req.id, true)]
            && Can(w', Receive) && Do(w', Receive).pc.Working?
  {
    InvHolds(Init, schedule);
  }

  /** Also when the request was put off while the program ran. */
  lemma DeferredMoveIsSent(schedule: seq<Step>, move: Move)
    requires Play(Init, schedule).Some?
    requires var w := Play(Init, schedule).value;
             Can(w, DrainNext) && w.session.state.Stopped? && w.session.deferred[0].command == Resume(move)
    ensures var w := Play(Init, schedule).value;
            var w' := Do(w, DrainNext);
            && w'.wire.resumes == [Go(move)] && w'.session.state.Running? && w'.pc == w.pc && w.pc.Waiting?
            && w'.log.out == w.log.out + [Response(w.session.sent + 1, w.session.deferred[0].id, true)]
            && Can(w', Receive) && Do(w', Receive).pc.Working?
  {
    InvHolds(Init, schedule);
    NotEndingYet(Play(Init, schedule).value, DrainNext);
    hide Ending, Reports;
  }

  /** The step answers the request: just taken from the queue, or put off before. */
  predicate Serves(w: World, step: Step, req: Request) {
    && Can(w, step)
    && match step
       case Take => w.events[0] == Client(req) && !req.command.Disconnect? && !IsDeferred(w.session, req.command)
       case DrainNext => w.session.deferred[0] == req
       case _ => false
  }

  /** Before the start and after the end no move is sent, and the client is told so. */
  lemma NoMoveElsewhere(schedule: seq<Step>, step: Step, req: Request, move: Move)
    requires Play(Init, schedule).Some?
    requires var w := Play(Init, schedule).value;
             Serves(w, step, req) && req.command == Resume(move) && !w.session.state.Stopped?
    ensures var w := Play(Init, schedule).value;
            var w' := Do(w, step);
            && !w.session.state.Running? && w'.wire == w.wire && w'.pc == w.pc && w'.session.state == w.session.state
            && w'.log.out == w.log.out + [Response(w.session.sent + 1, req.id, false)]
  {
  }

  // ---- While the program runs ----

  /** Pausing, breakpoints and threads are served at once, a disconnect ends the session, and everything else waits. */
  lemma RunningPutsOff(schedule: seq<Step>, req: Request)
    requires Play(Init, schedule).Some?
    requires var w := Play(Init, schedule).value;
             Can(w, Take) && w.events[0] == Client(req) && w.session.state.Running?
    ensures var w := Play(Init, schedule).value;
            var w', c := Do(w, Take), req.command;
            if c.PauseProgram? || c.SetBreakpoints? || c.Threads? then
              && w'.log.put == w.log.put && w'.session.deferred == w.session.deferred
              && w'.log.out == w.log.out + [Response(w.session.sent + 1, req.id, true)]
            else if c.Disconnect? then
              w'.stage == Storing(Some(req)) && w'.log.out == w.log.out
            else
              && w'.log.put == w.log.put + [req] && w'.session == w.session.(deferred := w.session.deferred + [req])
              && w'.log.out == w.log.out && w'.wire == w.wire
  {
  }

  /** A pause request is not lost: the next statement to begin stops, however long it takes. */
  lemma PauseStops(schedule: seq<Step>, more: seq<Step>)
    requires Play(Init, schedule).Some?
    requires var w := Play(Init, schedule).value;
             && Can(w, Take) && w.events[0].Client? && w.events[0].request.command.PauseProgram?
             && w.session.state.Running?
             && Play(Do(w, Take), more).Some? && Look !in more && Can(Play(Do(w, Take), more).value, Look)
    ensures var w := Play(Do(Play(Init, schedule).value, Take), more).value;
            Do(w, Look).pc.Looked? && Do(w, Look).pc.paused && !Can(Do(w, Look), Pass)
  {
    InvHolds(Init, schedule);
    var w := Play(Init, schedule).value;
    StepKeepsInv(w, Take);
    FlagStays(Do(w, Take), more);
  }

  lemma FlagStep(w: World, step: Step)
    requires w.wire.flag && w.session.spawned && Can(w, step) && !step.Look?
    ensures Do(w, step).wire.flag && Do(w, step).session.spawned
  {
    match step
    case Take =>
      if w.events[0].Client? {
        ServeKeepsFlag(w.session, w.wire, w.events[0].request);
        hide Serve;
      }
    case DrainNext =>
      ServeKeepsFlag(w.session.(deferred := w.session.deferred[1..]), w.wire, w.session.deferred[0]);
      hide Serve;
    case _ =>
  }

  lemma ServeKeepsFlag(s: Session, w: Wire, req: Request)
    requires w.flag && s.spawned
    ensures Serve(s, w, req).wire.flag && Serve(s, w, req).session.spawned
  {
  }

  lemma {:induction false} FlagStays(w: World, more: seq<Step>)
    requires Inv(w) && w.wire.flag && w.session.spawned && Play(w, more).Some? && Look !in more
    ensures Play(w, more).value.wire.flag
    decreases |more|
  {
    if more != [] {
      hide Inv, Do, Can;
      assert more[0] in more;
      FlagStep(w, more[0]);
      StepKeepsInv(w, more[0]);
      FlagStays(Do(w, more[0]), more[1..]);
    }
  }

  // ---- What the session remembers of its client ----

  /** The last program launched, with whether to stop at its entry. */
  function LastLaunch(served: seq<(Request, bool)>): Option<(string, bool)>
    decreases |served|
  {
    if served == [] then None
    else
      match served[|served| - 1].0.command
      case Launch(Some(p), entry) => Some((p, entry))
      case _ => LastLaunch(served[..|served| - 1])
  }

  function LastLines(served: seq<(Request, bool)>): set<nat>
    decreases |served|
  {
    if served == [] then {}
    else
      match served[|served| - 1].0.command
      case SetBreakpoints(lines) => lines
      case _ => LastLines(served[..|served| - 1])
  }

  predicate Remembers(w: World) {
    && w.session.breakpoints == LastLines(w.log.served)
    && match LastLaunch(w.log.served)
       case None => w.session.program.None?
       case Some((p, entry)) => w.session.program == Some(p) && w.session.stopOnEntry == entry
  }

  /** What serving `req` does to what is remembered. */
  predicate Notes(s: Session, t: Session, req: Request) {
    && t.breakpoints == (if req.command.SetBreakpoints? then req.command.lines else s.breakpoints)
    && (if req.command.Launch? && req.command.program.Some?
        then t.program == req.command.program && t.stopOnEntry == req.command.stopOnEntry
        else t.program == s.program && t.stopOnEntry == s.stopOnEntry)
  }

  lemma ServeNotes(s: Session, w: Wire, req: Request)
    ensures Notes(s, Serve(s, w, req).session, req)
  {
    match req.command
    case ConfigurationDone =>
      var t := Reply(s, w, req, true);
      StartKeeps(t.session, t.wire, req);
      hide StartDebuggee;
    case Resume(move) =>
      ResumeKeeps(s, w, req, move);
      hide ResumeProgram;
    case _ =>
  }

  lemma StartKeeps(s: Session, w: Wire, req: Request)
    ensures var t := StartDebuggee(s, w, req).session;
            t.breakpoints == s.breakpoints && t.program == s.program && t.stopOnEntry == s.stopOnEntry
  {
  }

  lemma ResumeKeeps(s: Session, w: Wire, req: Request, move: Move)
    ensures var t := ResumeProgram(s, w, req, move).session;
            t.breakpoints == s.breakpoints && t.program == s.program && t.stopOnEntry == s.stopOnEntry
  {
  }

  lemma HistoryNext(served: seq<(Request, bool)>, x: (Request, bool))
    ensures LastLines(served + [x])
         == if x.0.command.SetBreakpoints? then x.0.command.lines else LastLines(served)
    ensures LastLaunch(served + [x])
         == if x.0.command.Launch? && x.0.command.program.Some?
            then Some((x.0.command.program.value, x.0.command.stopOnEntry)) else LastLaunch(served)
  {
    assert (served + [x])[..|served|] == served && (served + [x])[|served|] == x;
  }

  lemma NotesRemember(w: World, w': World, req: Request, early: bool)
    requires Remembers(w) && Notes(w.session, w'.session, req) && w'.log.served == w.log.served + [(req, early)]
    ensures Remembers(w')
  {
    HistoryNext(w.log.served, (req, early));
    hide LastLines, LastLaunch;
  }

  lemma StepRemembers(w: World, step: Step)
    requires Remembers(w) && Can(w, step) && EndsByDisconnect(w)
    ensures Remembers(Do(w, step))
  {
    match step
    case Take => TakeRemembers(w);
    case DrainNext =>
      var req := w.session.deferred[0];
      if !IsDeferred(w.session, req.command) {
        ServeNotes(w.session.(deferred := w.session.deferred[1..]), w.wire, req);
        hide Serve, LastLines, LastLaunch;
        NotesRemember(w, Do(w, step), req, TooEarly(w.session, req));
      }
    case EndSession =>
      hide LastLines, LastLaunch;
      if w.stage.request.Some? {
        NotesRemember(w, Do(w, step), w.stage.request.value, false);
      }
    case _ =>
  }

  lemma TakeRemembers(w: World)
    requires Remembers(w) && Can(w, Take)
    ensures Remembers(Do(w, Take))
  {
    hide LastLines, LastLaunch;
    if w.events[0].Client? {
      var req := w.events[0].request;
      if !req.command.Disconnect? && !IsDeferred(w.session, req.command) {
        ServeNotes(w.session, w.wire, req);
        hide Serve;
        NotesRemember(w, Do(w, Take), req, TooEarly(w.session, req));
      }
    }
  }

  /** Only a disconnect is answered at the end of the session. */
  predicate EndsByDisconnect(w: World) {
    w.stage.Storing? && w.stage.request.Some? ==> w.stage.request.value.command.Disconnect?
  }

  lemma {:induction false} RemembersOn(w: World, schedule: seq<Step>)
    requires Remembers(w) && EndsByDisconnect(w) && Play(w, schedule).Some?
    ensures Remembers(Play(w, schedule).value)
    decreases |schedule|
  {
    if schedule != [] {
      StepRemembers(w, schedule[0]);
      hide Remembers;
      assert EndsByDisconnect(Do(w, schedule[0]));
      RemembersOn(Do(w, schedule[0]), schedule[1..]);
    }
  }

  /** Program, entry stop and breakpoints are those the client gave last. */
  lemma SessionRemembers(schedule: seq<Step>)
    requires Play(Init, schedule).Some?
    ensures Remembers(Play(Init, schedule).value)
  {
    RemembersOn(Init, schedule);
  }

  /** The debuggee starts exactly when a `configurationDone` is answered after a program has been launched, and with the
      program launched last. Without one the request is answered twice, the second time with a failure. */
  lemma StartsTheLaunched(schedule: seq<Step>, step: Step, req: Request)
    requires Play(Init, schedule).Some? && Serves(Play(Init, schedule).value, step, req)
    requires Play(Init, schedule).value.pc.Unborn?
    ensures var w := Play(Init, schedule).value;
            var w', last := Do(w, step), LastLaunch(w.log.served);
            && w'.pc == (if req.command.ConfigurationDone? && last.Some? then Working else Unborn)
            && (w'.pc.Working? ==>
                  && w'.session.state.Running? && w'.wire == Wire(false, [], true)
                  && w'.session.program == Some(last.value.0) && w'.session.stopOnEntry == last.value.1)
            && (req.command.ConfigurationDone? && last.None? ==>
                  w'.log.out == w.log.out + [Response(w.session.sent + 1, req.id, true)]
                                + [Response(w.session.sent + 2, req.id, false)])
  {
    InvHolds(Init, schedule);
    SessionRemembers(schedule);
    var w := Play(Init, schedule).value;
    var s := if step.Take? then w.session else w.session.(deferred := w.session.deferred[1..]);
    hide LastLaunch, LastLines, Serve, Ending, Reports, Meeting, Remembers;
    ServeSpawns(s, w.wire, req) by {
      NotRunningYet(w);
    }
    SpawnStep(w, step, s, req);
  }

  /** No other step starts it. */
  lemma OnlyRequestsStart(schedule: seq<Step>, step: Step)
    requires Play(Init, schedule).Some? && Can(Play(Init, schedule).value, step)
    requires Play(Init, schedule).value.pc.Unborn? && !Do(Play(Init, schedule).value, step).pc.Unborn?
    ensures var w := Play(Init, schedule).value;
            if step.Take? then w.events[0].Client? && Serves(w, step, w.events[0].request)
            else step.DrainNext? && Serves(w, step, w.session.deferred[0])
  {
    InvHolds(Init, schedule);
    hide Ending, Reports;
  }

  /** Nothing else starts a debuggee, and it starts with what the session remembers. */
  lemma ServeSpawns(s: Session, w: Wire, req: Request)
    requires !s.spawned
    ensures var t := Serve(s, w, req);
            && (t.session.spawned <==> req.command.ConfigurationDone? && s.program.Some?)
            && (t.session.spawned ==>
                  && t.session.state.Running? && t.wire == Wire(false, [], true)
                  && t.session.program == s.program && t.session.stopOnEntry == s.stopOnEntry)
            && (req.command.ConfigurationDone? && s.program.None? ==>
                  t.out == [Response(s.sent + 1, req.id, true)] + [Response(s.sent + 2, req.id, false)])
  {
  }

  /** What a step that serves a request before the start does. */
  lemma SpawnStep(w: World, step: Step, s: Session, req: Request)
    requires Inv(w) && Remembers(w) && w.pc.Unborn? && Can(w, step)
    requires step.Take? ==> w.events[0] == Client(req) && !req.command.Disconnect? && s == w.session
    requires step.DrainNext? ==>
               w.session.deferred[0] == req && s == w.session.(deferred := w.session.deferred[1..])
    requires step.Take? || step.DrainNext?
    requires var t := Serve(s, w.wire, req);
             && (t.session.spawned <==> req.command.ConfigurationDone? && s.program.Some?)
             && (t.session.spawned ==>
                   && t.session.state.Running? && t.wire == Wire(false, [], true)
                   && t.session.program == s.program && t.session.stopOnEntry == s.stopOnEntry)
             && (req.command.ConfigurationDone? && s.program.None? ==>
                   t.out == [Response(s.sent + 1, req.id, true)] + [Response(s.sent + 2, req.id, false)])
    ensures Do(w, step).pc == if req.command.ConfigurationDone?
              && LastLaunch(w.log.served).Some? then Working else Unborn
    ensures Do(w, step).pc.Working? ==>
              && Do(w, step).session.state.Running? && Do(w, step).wire == Wire(false, [], true)
              && Do(w, step).session.program == Some(LastLaunch(w.log.served).value.0)
              && Do(w, step).session.stopOnEntry == LastLaunch(w.log.served).value.1
    ensures req.command.ConfigurationDone? && LastLaunch(w.log.served).None? ==>
              Do(w, step).log.out == w.log.out + [Response(w.session.sent + 1, req.id, true)]
                                     + [Response(w.session.sent + 2, req.id, false)]
  {
    hide Serve, LastLaunch, LastLines;
    NotEndingYet(w, step);
    hide Ending;
    assert !IsDeferred(w.session, req.command) && !IsDeferred(s, req.command) by {
      NotRunningYet(w);
    }
    Twice(w.log.out, Response(s.sent + 1, req.id, true), Response(s.sent + 2, req.id, false));
  }

  lemma NotEndingYet(w: World, step: Step)
    requires Inv(w) && Can(w, step) && (step.Take? || step.DrainNext?)
    ensures !w.stored
  {
  }

  lemma NotRunningYet(w: World)
    requires Inv(w) && w.pc.Unborn?
    ensures !w.session.spawned
    ensures !w.stored ==> w.session.state.Configuring?
  {
  }

  lemma Twice(out: seq<Message>, a: Message, b: Message)
    ensures out + ([a] + [b]) == out + [a] + [b]
  {
  }

  // ---- What the session remembers of the debuggee ----

  /** The stop the debuggee made last. */
  function LastStop(before: Option<StopInfo>, schedule: seq<Step>): Option<StopInfo>
    decreases |schedule|
  {
    if schedule == [] then before
    else LastStop(if schedule[0].Stop? then Some(schedule[0].info) else before, schedule[1..])
  }

  /** The session remembers the last stop, or its report is still on the queue. */
  predicate Shows(w: World, last: Option<StopInfo>) {
    !w.stored ==>
      && (w.session.state.Stopped? ==> w.session.stopped == last)
      && (Reports(w.events) != [] && Reports(w.events)[0].StoppedMsg? ==> Some(Reports(w.events)[0].info) == last)
  }

  lemma StepShows(w: World, step: Step, last: Option<StopInfo>)
    requires Inv(w) && Shows(w, last) && Can(w, step)
    ensures Shows(Do(w, step), if step.Stop? then Some(step.info) else last)
  {
    match step
    case ClientSends(req) =>
      ReportsAppend(w.events, Client(req));
    case ClientCloses =>
      ReportsAppend(w.events, ClientEof);
    case Stop(info) => StopShows(w, info, last);
    case Report(failed) => ReportShows(w, failed, last);
    case Take => TakeShows(w, last);
    case DrainNext =>
      hide Inv, Reports;
      ServeStopped(w.session.(deferred := w.session.deferred[1..]), w.wire, w.session.deferred[0]);
    case _ =>
  }

  lemma StopShows(w: World, info: StopInfo, last: Option<StopInfo>)
    requires Inv(w) && Shows(w, last) && Can(w, Stop(info))
    ensures Shows(Do(w, Stop(info)), Some(info))
  {
    ReportsAppend(w.events, Debug(StoppedMsg(info)));
    hide Ending, Reports;
  }

  lemma ReportShows(w: World, failed: bool, last: Option<StopInfo>)
    requires Inv(w) && Shows(w, last) && Can(w, Report(failed))
    ensures Shows(Do(w, Report(failed)), last)
  {
    ReportsAppend(w.events, Debug(ExitedMsg(failed)));
    hide Ending, Reports;
  }

  /** A request leaves a remembered stop alone or lets the program run on. */
  lemma ServeStopped(s: Session, w: Wire, req: Request)
    ensures var t := Serve(s, w, req).session;
            t.state.Stopped? ==> s.state.Stopped? && t.stopped == s.stopped
  {
  }

  lemma TakeShows(w: World, last: Option<StopInfo>)
    requires Inv(w) && Shows(w, last) && Can(w, Take)
    ensures Shows(Do(w, Take), last)
  {
    assert Reports(w.events) == (if w.events[0].Debug? then [w.events[0].msg] else []) + Reports(w.events[1..]);
    hide Ending, Reports;
    match w.events[0]
    case Client(req) =>
      ServeStopped(w.session, w.wire, req);
      hide Serve, Inv;
    case ClientEof =>
    case Debug(msg) =>
  }

  lemma {:induction false} ShowsOn(w: World, schedule: seq<Step>, last: Option<StopInfo>)
    requires Inv(w) && Shows(w, last) && Play(w, schedule).Some?
    ensures Shows(Play(w, schedule).value, LastStop(last, schedule))
    decreases |schedule|
  {
    if schedule != [] {
      hide Inv, Shows, Do, Can;
      StepShows(w, schedule[0], last);
      StepKeepsInv(w, schedule[0]);
      ShowsOn(Do(w, schedule[0]), schedule[1..], if schedule[0].Stop? then Some(schedule[0].info) else last);
    }
  }

  /** Questions about a stop are answered exactly while there is one, and about the one the debuggee made last. */
  lemma QueriesSeeTheStop(schedule: seq<Step>, step: Step, req: Request)
    requires Play(Init, schedule).Some? && Serves(Play(Init, schedule).value, step, req)
    requires req.command.StackTrace? || req.command.Scopes? || req.command.Variables?
    requires !Play(Init, schedule).value.stored
    ensures var w := Play(Init, schedule).value;
            var w', last := Do(w, step), LastStop(None, schedule);
            var ok := w.session.state.Stopped?
                      && (req.command.Scopes? ==>
                            last.Some? && 1 <= req.command.frameId <= last.value.frames);
            && (w.session.state.Stopped? ==> last.Some? && w.pc.Waiting?)
            && w'.log.out == w.log.out + [Response(w.session.sent + 1, req.id, ok)]
            && w'.wire == w.wire && w'.pc == w.pc && w'.session.stopped == w.session.stopped
  {
    InvHolds(Init, schedule);
    ShowsOn(Init, schedule, None);
    var w, last := Play(Init, schedule).value, LastStop(None, schedule);
    StopKnown(w, last);
    hide Ending, Reports, LastStop, Inv, Shows;
    if step.Take? {
      ServeAnswersQuery(w.session, w.wire, req);
    } else {
      ServeAnswersQuery(w.session.(deferred := w.session.deferred[1..]), w.wire, req);
    }
    hide Serve;
  }

  lemma StopKnown(w: World, last: Option<StopInfo>)
    requires Inv(w) && Shows(w, last) && !w.stored
    ensures w.session.stopped.Some? <==> w.session.state.Stopped?
    ensures w.session.state.Stopped? ==> w.session.stopped == last && w.pc.Waiting?
  {
  }

  lemma ServeAnswersQuery(s: Session, w: Wire, req: Request)
    requires req.command.StackTrace? || req.command.Scopes? || req.command.Variables?
    ensures var ok := s.stopped.Some?
                      && (req.command.Scopes? ==> 1 <= req.command.frameId <= s.stopped.value.frames);
            Serve(s, w, req) == Turn(s.(sent := s.sent + 1), w, [Response(s.sent + 1, req.id, ok)])
  {
  }

  /** Every other request succeeds, but for a launch without a program and a request the adapter does not know. */
  lemma OthersSucceed(schedule: seq<Step>, step: Step, req: Request)
    requires Play(Init, schedule).Some? && Serves(Play(Init, schedule).value, step, req)
    requires var c := req.command;
             !c.Resume? && !c.StackTrace? && !c.Scopes? && !c.Variables? && !c.Disconnect?
    ensures var w := Play(Init, schedule).value;
            var out, ok := Do(w, step).log.out, !req.command.Unknown? && req.command != Launch(None, true)
                                                && req.command != Launch(None, false);
            |out| > |w.log.out| && out[..|w.log.out|] == w.log.out
            && out[|w.log.out|] == Response(w.session.sent + 1, req.id, ok)
  {
    var w := Play(Init, schedule).value;
    var s := if step.Take? then w.session else w.session.(deferred := w.session.deferred[1..]);
    ServeSucceeds(s, w.wire, req);
    hide Serve, StartDebuggee;
  }

  lemma ServeSucceeds(s: Session, w: Wire, req: Request)
    requires var c := req.command;
             !c.Resume? && !c.StackTrace? && !c.Scopes? && !c.Variables? && !c.Disconnect?
    ensures var t := Serve(s, w, req);
            t.out != [] && t.out[0] == Response(s.sent + 1, req.id, !req.command.Unknown?
              && req.command != Launch(None, true) && req.command != Launch(None, false))
  {
    hide StartDebuggee;
  }

  // ---- Events ----

  function Events(out: seq<Message>, name: string): nat {
    if out == [] then 0 else (if out[0].Event? && out[0].name == name then 1 else 0) + Events(out[1..], name)
  }

  lemma {:induction false} EventsAppend(a: seq<Message>, b: seq<Message>, name: string)
    ensures Events(a + b, name) == Events(a, name) + Events(b, name)
    decreases |a|
  {
    if a == [] {
      assert a + b == b;
    } else {
      EventsAppend(a[1..], b, name);
      assert (a + b)[1..] == a[1..] + b && (a + b)[0] == a[0];
    }
  }

  function Stops(notices: seq<DebugMsg>): nat {
    if notices == [] then 0
    else Stops(notices[..|notices| - 1]) + (if notices[|notices| - 1].StoppedMsg? then 1 else 0)
  }

  function Exits(notices: seq<DebugMsg>): nat {
    if notices == [] then 0
    else Exits(notices[..|notices| - 1]) + (if notices[|notices| - 1].ExitedMsg? then 1 else 0)
  }

  function Failures(notices: seq<DebugMsg>): nat {
    if notices == [] then 0
    else Failures(notices[..|notices| - 1]) + (if notices[|notices| - 1] == ExitedMsg(true) then 1 else 0)
  }

  function Initializations(served: seq<(Request, bool)>): nat {
    if served == [] then 0
    else Initializations(served[..|served| - 1]) + (if served[|served| - 1].0.command.Initialize? then 1 else 0)
  }

  function Disconnects(served: seq<(Request, bool)>): nat {
    if served == [] then 0
    else Disconnects(served[..|served| - 1]) + (if served[|served| - 1].0.command.Disconnect? then 1 else 0)
  }

  /** Every stop, exit, initialization and end is announced, each once. */
  predicate Announced(w: World) {
    var out, notices, served := w.log.out, w.log.notices, w.log.served;
    && Events(out, "stopped") == Stops(notices)
    && Events(out, "exited") == Exits(notices)
    && Events(out, "output") == Failures(notices)
    && Events(out, "initialized") == Initializations(served)
    && Events(out, "terminated") == Exits(notices) + Disconnects(served)
  }

  /** How often each event is in `out`. */
  predicate Announces(out: seq<Message>, initialized: nat, stopped: nat, exited: nat, output: nat, terminated: nat) {
    && Events(out, "initialized") == initialized && Events(out, "stopped") == stopped
    && Events(out, "exited") == exited && Events(out, "output") == output
    && Events(out, "terminated") == terminated
  }

  lemma AnnouncesMore(a: seq<Message>, b: seq<Message>, i: nat, s: nat, x: nat, o: nat, t: nat, i': nat, s': nat,
                      x': nat, o': nat, t': nat)
    requires Announces(a, i, s, x, o, t) && Announces(b, i', s', x', o', t')
    ensures Announces(a + b, i + i', s + s', x + x', o + o', t + t')
  {
    EventsAppend(a, b, "initialized");
    EventsAppend(a, b, "stopped");
    EventsAppend(a, b, "exited");
    EventsAppend(a, b, "output");
    EventsAppend(a, b, "terminated");
  }

  lemma OneEvent(number: nat, name: string, other: string)
    ensures Events([Event(number, name)], other) == if name == other then 1 else 0
  {
    assert [Event(number, name)][1..] == [];
  }

  lemma NoEvent(number: nat, id: int, success: bool)
    ensures Announces([Response(number, id, success)], 0, 0, 0, 0, 0)
  {
    assert [Response(number, id, success)][1..] == [];
  }

  lemma OneAnnounced(number: nat, name: string)
    ensures Announces([Event(number, name)], if name == "initialized" then 1 else 0, if name == "stopped" then 1 else 0,
                      if name == "exited" then 1 else 0, if name == "output" then 1 else 0,
                      if name == "terminated" then 1 else 0)
  {
    OneEvent(number, name, "initialized");
    OneEvent(number, name, "stopped");
    OneEvent(number, name, "exited");
    OneEvent(number, name, "output");
    OneEvent(number, name, "terminated");
  }

  lemma ServeAnnounces(s: Session, w: Wire, req: Request)
    ensures Announces(Serve(s, w, req).out, if req.command.Initialize? then 1 else 0, 0, 0, 0,
                      if req.command.Disconnect? then 1 else 0)
  {
    hide Announces, Events;
    NoEvent(s.sent + 1, req.id, true);
    NoEvent(s.sent + 1, req.id, false);
    match req.command
    case Initialize =>
      OneAnnounced(s.sent + 2, "initialized");
      AnnouncesMore([Response(s.sent + 1, req.id, true)], [Event(s.sent + 2, "initialized")], 0, 0, 0, 0, 0, 1, 0, 0,
                    0, 0);
    case Disconnect =>
      OneAnnounced(s.sent + 2, "terminated");
      AnnouncesMore([Response(s.sent + 1, req.id, true)], [Event(s.sent + 2, "terminated")], 0, 0, 0, 0, 0, 0, 0, 0,
                    0, 1);
    case ConfigurationDone =>
      NoEvent(s.sent + 2, req.id, false);
      AnnouncesMore([Response(s.sent + 1, req.id, true)], [Response(s.sent + 2, req.id, false)], 0, 0, 0, 0, 0, 0, 0,
                    0, 0, 0);
      assert [Response(s.sent + 1, req.id, true)] + [] == [Response(s.sent + 1, req.id, true)];
    case _ =>
  }

  lemma NoticeAnnounces(s: Session, w: Wire, msg: DebugMsg)
    ensures Announces(Notice(s, w, msg).out, 0, if msg.StoppedMsg? then 1 else 0, if msg.ExitedMsg? then 1 else 0,
                      if msg == ExitedMsg(true) then 1 else 0, if msg.ExitedMsg? then 1 else 0)
  {
    hide Announces, Events;
    if msg.StoppedMsg? {
      OneAnnounced(s.sent + 1, "stopped");
      assert [] + [Event(s.sent + 1, "stopped")] == [Event(s.sent + 1, "stopped")];
    } else {
      var n := if msg.failed then s.sent + 1 else s.sent;
      OneAnnounced(s.sent + 1, "output");
      OneAnnounced(n + 1, "terminated");
      OneAnnounced(n + 2, "exited");
      AnnouncesMore([Event(n + 1, "terminated")], [Event(n + 2, "exited")], 0, 0, 0, 0, 1, 0, 0, 1, 0, 0);
      AnnouncesMore([Event(s.sent + 1, "output")], [Event(n + 1, "terminated")] + [Event(n + 2, "exited")], 0, 0, 0, 1,
                    0, 0, 0, 1, 0, 1);
      ExitMessages(s, w, msg.failed);
    }
  }

  lemma ExitMessages(s: Session, w: Wire, failed: bool)
    ensures var n := if failed then s.sent + 1 else s.sent;
            var end := [Event(n + 1, "terminated")] + [Event(n + 2, "exited")];
            Notice(s, w, ExitedMsg(failed)).out == if failed then [Event(s.sent + 1, "output")] + end else end
  {
  }

  lemma NoticedNext(notices: seq<DebugMsg>, msg: DebugMsg)
    ensures Stops(notices + [msg]) == Stops(notices) + if msg.StoppedMsg? then 1 else 0
    ensures Exits(notices + [msg]) == Exits(notices) + if msg.ExitedMsg? then 1 else 0
    ensures Failures(notices + [msg]) == Failures(notices) + if msg == ExitedMsg(true) then 1 else 0
  {
    assert (notices + [msg])[..|notices|] == notices;
  }

  lemma ServedNext(served: seq<(Request, bool)>, x: (Request, bool))
    ensures Initializations(served + [x]) == Initializations(served) + if x.0.command.Initialize? then 1 else 0
    ensures Disconnects(served + [x]) == Disconnects(served) + if x.0.command.Disconnect? then 1 else 0
  {
    assert (served + [x])[..|served|] == served;
  }

  lemma AnnouncedServing(w: World, w': World, out: seq<Message>, req: Request, early: bool)
    requires Announced(w) && w'.log.served == w.log.served + [(req, early)] && w'.log.notices == w.log.notices
    requires w'.log.out == w.log.out + out
    requires Announces(out, if req.command.Initialize? then 1 else 0, 0, 0, 0, if req.command.Disconnect? then 1 else 0)
    ensures Announced(w')
  {
    var log := w.log;
    ServedNext(log.served, (req, early));
    AnnouncesMore(log.out, out, Initializations(log.served), Stops(log.notices), Exits(log.notices),
                  Failures(log.notices), Exits(log.notices) + Disconnects(log.served),
                  if req.command.Initialize? then 1 else 0, 0, 0, 0, if req.command.Disconnect? then 1 else 0);
    hide Events, Stops, Exits, Failures, Initializations, Disconnects;
  }

  lemma AnnouncedNoticing(w: World, w': World, out: seq<Message>, msg: DebugMsg)
    requires Announced(w) && w'.log.notices == w.log.notices + [msg] && w'.log.served == w.log.served
    requires w'.log.out == w.log.out + out
    requires Announces(out, 0, if msg.StoppedMsg? then 1 else 0, if msg.ExitedMsg? then 1 else 0,
                       if msg == ExitedMsg(true) then 1 else 0, if msg.ExitedMsg? then 1 else 0)
    ensures Announced(w')
  {
    var log := w.log;
    NoticedNext(log.notices, msg);
    AnnouncesMore(log.out, out, Initializations(log.served), Stops(log.notices), Exits(log.notices),
                  Failures(log.notices), Exits(log.notices) + Disconnects(log.served), 0,
                  if msg.StoppedMsg? then 1 else 0, if msg.ExitedMsg? then 1 else 0,
                  if msg == ExitedMsg(true) then 1 else 0, if msg.ExitedMsg? then 1 else 0);
    hide Events, Stops, Exits, Failures, Initializations, Disconnects;
  }

  lemma AnnouncedNotice(w: World)
    requires Announced(w) && Can(w, Take) && w.events[0].Debug?
    ensures Announced(Do(w, Take))
  {
    var msg := w.events[0].msg;
    NoticeAnnounces(w.session, w.wire, msg);
    hide Notice, Announced, Announces;
    AnnouncedNoticing(w, Do(w, Take), Notice(w.session, w.wire, msg).out, msg);
  }

  lemma StepAnnounced(w: World, step: Step)
    requires Announced(w) && Can(w, step) && EndsByDisconnect(w)
    ensures Announced(Do(w, step))
  {
    hide Announced;
    match step
    case Take => TakeAnnounced(w);
    case DrainNext => DrainAnnounced(w);
    case EndSession => EndAnnounced(w);
    case _ => SameLog(w, Do(w, step));
  }

  lemma SameLog(w: World, w': World)
    requires Announced(w) && w'.log.out == w.log.out && w'.log.notices == w.log.notices
    requires w'.log.served == w.log.served
    ensures Announced(w')
  {
  }

  lemma TakeAnnounced(w: World)
    requires Announced(w) && Can(w, Take)
    ensures Announced(Do(w, Take))
  {
    hide Announced, Notice;
    match w.events[0]
    case Debug(_) => AnnouncedNotice(w);
    case ClientEof => SameLog(w, Do(w, Take));
    case Client(req) =>
      if !req.command.Disconnect? && !IsDeferred(w.session, req.command) {
        ServeAnnounces(w.session, w.wire, req);
        hide Serve;
        AnnouncedServing(w, Do(w, Take), Serve(w.session, w.wire, req).out, req, TooEarly(w.session, req));
      } else {
        assert w.log.out + [] == w.log.out;
        SameLog(w, Do(w, Take));
      }
  }

  lemma DrainAnnounced(w: World)
    requires Announced(w) && Can(w, DrainNext)
    ensures Announced(Do(w, DrainNext))
  {
    var req, s := w.session.deferred[0], w.session.(deferred := w.session.deferred[1..]);
    ServeAnnounces(s, w.wire, req);
    hide Serve, Announced;
    AnnouncedServing(w, Do(w, DrainNext), Serve(s, w.wire, req).out, req, TooEarly(w.session, req));
  }

  lemma EndAnnounced(w: World)
    requires Announced(w) && Can(w, EndSession) && EndsByDisconnect(w)
    ensures Announced(Do(w, EndSession))
  {
    if w.stage.request.Some? {
      var req := w.stage.request.value;
      var out := [Response(w.session.sent + 1, req.id, true)] + [Event(w.session.sent + 2, "terminated")];
      NoEvent(w.session.sent + 1, req.id, true);
      OneAnnounced(w.session.sent + 2, "terminated");
      hide Announced, Announces, Events;
      AnnouncesMore([Response(w.session.sent + 1, req.id, true)], [Event(w.session.sent + 2, "terminated")], 0, 0, 0, 0,
                    0, 0, 0, 0, 0, 1);
      AnnouncedServing(w, Do(w, EndSession), out, req, false);
    } else {
      SameLog(w, Do(w, EndSession));
    }
  }

  lemma {:induction false} AnnouncedOn(w: World, schedule: seq<Step>)
    requires Announced(w) && EndsByDisconnect(w) && Play(w, schedule).Some?
    ensures Announced(Play(w, schedule).value)
    decreases |schedule|
  {
    if schedule != [] {
      StepAnnounced(w, schedule[0]);
      hide Announced;
      assert EndsByDisconnect(Do(w, schedule[0]));
      AnnouncedOn(Do(w, schedule[0]), schedule[1..]);
    }
  }

  /** The client is told of every stop, every exit, every failure and its own requests' ends, and of nothing else. */
  lemma EventsAreAnnounced(schedule: seq<Step>)
    requires Play(Init, schedule).Some?
    ensures Announced(Play(Init, schedule).value)
  {
    AnnouncedOn(Init, schedule);
  }
}
