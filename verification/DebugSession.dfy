/** The debug adapter's session: what each client request and each message of the debuggee does to it. */
module DebugSession {
  import opened Syntax

  datatype State = Configuring | Running | Stopped | Exited

  datatype Move = Continue | Next | StepIn | StepOut

  datatype ResumeCmd = Go(move: Move) | Terminate

  datatype StopReason = Entry | Breakpoint | Step | Pause

  /** A stop as the adapter remembers it; of the stack only its size matters to the protocol. */
  datatype StopInfo = StopInfo(reason: StopReason, frames: nat)

  datatype Command =
    | Initialize
    | Launch(program: Option<string>, stopOnEntry: bool)
    | SetBreakpoints(lines: set<nat>)
    | ConfigurationDone
    | Threads
    | StackTrace
    | Scopes(frameId: int)
    | Variables(reference: int)
    | Resume(move: Move)
    | PauseProgram
    | Disconnect
    | Unknown(name: string)

  datatype Request = Request(id: int, command: Command)

  datatype Message =
    | Response(number: nat, requestId: int, success: bool)
    | Event(number: nat, name: string)

  datatype DebugMsg = StoppedMsg(info: StopInfo) | ExitedMsg(failed: bool)

  datatype Incoming = Client(request: Request) | ClientEof | Debug(msg: DebugMsg)

  /** `spawned`: the debuggee thread has been started. */
  datatype Session = Session(
    sent: nat,
    state: State,
    shouldExit: bool,
    program: Option<string>,
    stopOnEntry: bool,
    breakpoints: set<nat>,
    stopped: Option<StopInfo>,
    deferred: seq<Request>,
    spawned: bool)

  /** What the adapter and the debuggee share: the pause flag and the channel of resume commands, which is `live` as
      long as its receiver exists. */
  datatype Wire = Wire(flag: bool, resumes: seq<ResumeCmd>, live: bool)

  datatype Turn = Turn(session: Session, wire: Wire, out: seq<Message>)

  const NewSession: Session := Session(0, Configuring, false, None, false, {}, None, [], false)

  const NoWire: Wire := Wire(false, [], false)

  /** Requests that are served even while the program runs. */
  predicate IsControl(c: Command) {
    c.PauseProgram? || c.Disconnect? || c.SetBreakpoints? || c.Threads?
  }

  predicate IsDeferred(s: Session, c: Command) {
    s.state == Running && !IsControl(c)
  }

  // ---- Replies ----

  function Reply(s: Session, w: Wire, req: Request, success: bool): Turn {
    Turn(s.(sent := s.sent + 1), w, [Response(s.sent + 1, req.id, success)])
  }

  /** One more event after what a turn has sent already. */
  function Announce(t: Turn, name: string): Turn {
    Turn(t.session.(sent := t.session.sent + 1), t.wire, t.out + [Event(t.session.sent + 1, name)])
  }

  // ---- Requests ----

  function StoreFlag(s: Session, w: Wire): Wire {
    if s.spawned then w.(flag := true) else w
  }

  function SendTerminate(s: Session, w: Wire): Wire {
    if s.spawned && w.live then w.(resumes := w.resumes + [Terminate]) else w
  }

  /** The rest of `terminate_debuggee`, once the pause flag is stored. */
  function Terminated(s: Session): Session {
    s.(stopped := None, state := Exited, deferred := [], shouldExit := true)
  }

  function StartDebuggee(s: Session, w: Wire, req: Request): Turn {
    if s.spawned then Turn(s, w, [])
    else if s.program.None? then Reply(s, w, req, false)
    else Turn(s.(spawned := true, state := Running), Wire(false, [], true), [])
  }

  function ResumeProgram(s: Session, w: Wire, req: Request, move: Move): Turn {
    if s.state != Stopped || !(s.spawned && w.live) then Reply(s, w, req, false)
    else Reply(s.(stopped := None, state := Running), w.(resumes := w.resumes + [Go(move)]), req, true)
  }

  function FinishDisconnect(s: Session, w: Wire, req: Request): Turn {
    Announce(Reply(Terminated(s), SendTerminate(s, w), req, true), "terminated")
  }

  /** A request that is not put off. */
  function Serve(s: Session, w: Wire, req: Request): Turn {
    match req.command
    case Initialize => Announce(Reply(s, w, req, true), "initialized")
    case Launch(program, stopOnEntry) =>
      if program.None? then Reply(s, w, req, false)
      else Reply(s.(program := program, stopOnEntry := stopOnEntry), w, req, true)
    case SetBreakpoints(lines) => Reply(s.(breakpoints := lines), w, req, true)
    case ConfigurationDone =>
      var t := Reply(s, w, req, true);
      var t2 := StartDebuggee(t.session, w, req);
      Turn(t2.session, t2.wire, t.out + t2.out)
    case Threads => Reply(s, w, req, true)
    case StackTrace => Reply(s, w, req, s.stopped.Some?)
    case Scopes(frameId) => Reply(s, w, req, s.stopped.Some? && 1 <= frameId <= s.stopped.value.frames)
    case Variables(_) => Reply(s, w, req, s.stopped.Some?)
    case Resume(move) => ResumeProgram(s, w, req, move)
    case PauseProgram => Reply(s, StoreFlag(s, w), req, true)
    case Disconnect => FinishDisconnect(s, StoreFlag(s, w), req)
    case Unknown(_) => Reply(s, w, req, false)
  }

  function ClientTurn(s: Session, w: Wire, req: Request): Turn {
    if IsDeferred(s, req.command) then Turn(s.(deferred := s.deferred + [req]), w, []) else Serve(s, w, req)
  }

  // ---- Messages of the debuggee ----

  function Notice(s: Session, w: Wire, msg: DebugMsg): Turn {
    match msg
    case StoppedMsg(info) => Announce(Turn(s.(stopped := Some(info), state := Stopped), w, []), "stopped")
    case ExitedMsg(failed) =>
      var t := Turn(s.(state := Exited, stopped := None), w, []);
      var t1 := if failed then Announce(t, "output") else t;
      Announce(Announce(t1, "terminated"), "exited")
  }

  predicate CanDrain(s: Session) {
    s.state != Running && s.deferred != []
  }

  function DrainOne(s: Session, w: Wire): Turn
    requires CanDrain(s)
  {
    ClientTurn(s.(deferred := s.deferred[1..]), w, s.deferred[0])
  }

  /** Serving a request outside a run never puts anything off. */
  lemma DrainShrinks(s: Session, w: Wire)
    requires CanDrain(s)
    ensures |DrainOne(s, w).session.deferred| < |s.deferred|
  {
  }

  lemma DrainOneIs(s: Session, w: Wire)
    requires CanDrain(s)
    ensures DrainOne(s, w) == ClientTurn(s.(deferred := s.deferred[1..]), w, s.deferred[0])
  {
  }

  lemma Regroup(a: seq<Message>, b: seq<Message>, c: seq<Message>)
    ensures a + (b + c) == a + b + c
  {
  }

  /** Deferred requests, in the order they came, until the program runs again. */
  function Drain(s: Session, w: Wire): Turn
    decreases |s.deferred|
  {
    if !CanDrain(s) then Turn(s, w, [])
    else
      DrainShrinks(s, w);
      var t := DrainOne(s, w);
      var rest := Drain(t.session, t.wire);
      Turn(rest.session, rest.wire, t.out + rest.out)
  }

  lemma DrainStep(s: Session, w: Wire)
    requires CanDrain(s)
    ensures var t := DrainOne(s, w);
            var rest := Drain(t.session, t.wire);
            Drain(s, w) == Turn(rest.session, rest.wire, t.out + rest.out)
  {
  }

  function TurnFor(s: Session, w: Wire, incoming: Incoming): Turn {
    match incoming
    case Client(req) => ClientTurn(s, w, req)
    case ClientEof => Turn(Terminated(s), SendTerminate(s, StoreFlag(s, w)), [])
    case Debug(msg) =>
      var t := Notice(s, w, msg);
      var rest := Drain(t.session, t.wire);
      Turn(rest.session, rest.wire, t.out + rest.out)
  }

  // ---- The session as it runs ----

  /** The adapter's end of the pause flag and the channel. */
  class Link {
    var flag: bool
    var resumes: seq<ResumeCmd>
    var live: bool

    constructor ()
      ensures !flag && resumes == [] && live
    {
      flag, resumes, live := false, [], true;
    }

    /** Sending fails once the receiver is gone. */
    method Send(cmd: ResumeCmd) returns (ok: bool)
      modifies this`resumes
      ensures ok == live
      ensures resumes == if live then old(resumes) + [cmd] else old(resumes)
    {
      ok := live;
      if live {
        resumes := resumes + [cmd];
      }
    }
  }

  class Adapter {
    var sent: nat
    var state: State
    var shouldExit: bool
    var program: Option<string>
    var stopOnEntry: bool
    var breakpoints: set<nat>
    var stopped: Option<StopInfo>
    var deferred: seq<Request>
    var debuggee: Link?

    constructor ()
      ensures Now() == NewSession && Shared() == NoWire
    {
      sent, state, shouldExit, program, stopOnEntry := 0, Configuring, false, None, false;
      breakpoints, stopped, deferred, debuggee := {}, None, [], null;
    }

    ghost function Now(): Session
      reads this
    {
      Session(sent, state, shouldExit, program, stopOnEntry, breakpoints, stopped, deferred, debuggee != null)
    }

    ghost function Shared(): Wire
      reads this, debuggee
    {
      if debuggee == null then NoWire else Wire(debuggee.flag, debuggee.resumes, debuggee.live)
    }

    /** The adapter has taken exactly the turn `t`. */
    ghost predicate Took(t: Turn, out: seq<Message>)
      reads this, debuggee
    {
      Now() == t.session && Shared() == t.wire && out == t.out
    }

    method Respond(req: Request, success: bool) returns (m: Message)
      modifies this`sent
      ensures sent == old(sent) + 1 && m == Response(sent, req.id, success)
    {
      sent := sent + 1;
      m := Response(sent, req.id, success);
    }

    method Emit(name: string) returns (m: Message)
      modifies this`sent
      ensures sent == old(sent) + 1 && m == Event(sent, name)
    {
      sent := sent + 1;
      m := Event(sent, name);
    }

    method TerminateDebuggee()
      modifies this, debuggee
      ensures debuggee == old(debuggee)
      ensures Now() == Terminated(old(Now())).(shouldExit := old(shouldExit))
      ensures Shared() == SendTerminate(old(Now()), StoreFlag(old(Now()), old(Shared())))
    {
      if debuggee != null {
        debuggee.flag := true;
        var _ := debuggee.Send(Terminate);
      }
      stopped, state, deferred := None, Exited, [];
    }

    method Start(req: Request) returns (out: seq<Message>)
      modifies this
      ensures debuggee == old(debuggee) || fresh(debuggee)
      ensures Took(StartDebuggee(old(Now()), old(Shared()), req), out)
    {
      out := [];
      if debuggee == null {
        if program.None? {
          var m := Respond(req, false);
          out := [m];
        } else {
          debuggee := new Link();
          state := Running;
        }
      }
    }

    method ResumeWith(req: Request, move: Move) returns (out: seq<Message>)
      modifies this, debuggee
      ensures debuggee == old(debuggee)
      ensures Took(ResumeProgram(old(Now()), old(Shared()), req, move), out)
    {
      var ok := false;
      if state == Stopped && debuggee != null {
        ok := debuggee.Send(Go(move));
      }
      if ok {
        stopped, state := None, Running;
      }
      var m := Respond(req, ok);
      out := [m];
    }

    method HandleClient(req: Request) returns (out: seq<Message>)
      modifies this, debuggee
      ensures debuggee == old(debuggee) || fresh(debuggee)
      ensures Took(ClientTurn(old(Now()), old(Shared()), req), out)
    {
      hide StartDebuggee, ResumeProgram, FinishDisconnect, StoreFlag;
      if state == Running && !IsControl(req.command) {
        deferred := deferred + [req];
        return [];
      }
      match req.command {
        case Initialize =>
          var m := Respond(req, true);
          var e := Emit("initialized");
          out := [m] + [e];
        case ConfigurationDone =>
          var m := Respond(req, true);
          var more := Start(req);
          out := [m] + more;
        case Resume(move) => out := ResumeWith(req, move);
        case Disconnect => out := EndSession(req);
        case _ => out := Answer(req);
      }
    }

    method EndSession(req: Request) returns (out: seq<Message>)
      modifies this, debuggee
      ensures debuggee == old(debuggee)
      ensures Took(FinishDisconnect(old(Now()), StoreFlag(old(Now()), old(Shared())), req), out)
    {
      TerminateDebuggee();
      shouldExit := true;
      var m := Respond(req, true);
      var e := Emit("terminated");
      out := [m] + [e];
    }

    /** Requests with a single response and nothing else to say. */
    method Answer(req: Request) returns (out: seq<Message>)
      requires var c := req.command;
               !c.Initialize? && !c.ConfigurationDone? && !c.Resume? && !c.Disconnect?
      modifies this, debuggee
      ensures debuggee == old(debuggee)
      ensures Took(Serve(old(Now()), old(Shared()), req), out)
    {
      var success := true;
      match req.command {
        case Launch(p, entry) =>
          if p.Some? {
            program, stopOnEntry := p, entry;
          } else {
            success := false;
          }
        case SetBreakpoints(lines) => breakpoints := lines;
        case StackTrace => success := stopped.Some?;
        case Scopes(frameId) => success := stopped.Some? && 1 <= frameId <= stopped.value.frames;
        case Variables(_) => success := stopped.Some?;
        case PauseProgram =>
          if debuggee != null {
            debuggee.flag := true;
          }
        case Unknown(_) => success := false;
        case _ =>
      }
      var m := Respond(req, success);
      out := [m];
    }

    method TakeNotice(msg: DebugMsg) returns (out: seq<Message>)
      modifies this
      ensures debuggee == old(debuggee)
      ensures Took(Notice(old(Now()), old(Shared()), msg), out)
    {
      match msg {
        case StoppedMsg(info) =>
          stopped, state := Some(info), Stopped;
          var e := Emit("stopped");
          out := [e];
        case ExitedMsg(failed) =>
          state, stopped := Exited, None;
          out := [];
          if failed {
            var e := Emit("output");
            out := [e];
          }
          var e := Emit("terminated");
          var x := Emit("exited");
          out := out + [e] + [x];
      }
    }

    method HandleDebuggee(msg: DebugMsg) returns (out: seq<Message>)
      modifies this, debuggee
      ensures debuggee == old(debuggee) || fresh(debuggee)
      ensures Took(TurnFor(old(Now()), old(Shared()), Debug(msg)), out)
    {
      hide ClientTurn, Notice, DrainOne;
      out := TakeNotice(msg);
      ghost var first := Notice(old(Now()), old(Shared()), msg);
      ghost var all := Drain(first.session, first.wire);
      assert out + all.out == first.out + all.out;
      while state != Running && deferred != []
        invariant debuggee == old(debuggee) || (debuggee != null && fresh(debuggee))
        invariant var rest := Drain(Now(), Shared());
                  rest.session == all.session && rest.wire == all.wire && out + rest.out == first.out + all.out
        decreases |deferred|
      {
        ghost var s, w := Now(), Shared();
        DrainShrinks(s, w);
        DrainStep(s, w);
        var req := deferred[0];
        deferred := deferred[1..];
        assert Now() == s.(deferred := s.deferred[1..]) && Shared() == w;
        var more := HandleClient(req);
        assert Now() == DrainOne(s, w).session && Shared() == DrainOne(s, w).wire && more == DrainOne(s, w).out by {
          DrainOneIs(s, w);
        }
        Regroup(out, more, Drain(Now(), Shared()).out);
        out := out + more;
      }
      assert out + [] == out;
    }

    method Handle(incoming: Incoming) returns (out: seq<Message>)
      modifies this, debuggee
      ensures debuggee == old(debuggee) || fresh(debuggee)
      ensures Took(TurnFor(old(Now()), old(Shared()), incoming), out)
    {
      match incoming {
        case Client(req) => out := HandleClient(req);
        case ClientEof =>
          TerminateDebuggee();
          shouldExit := true;
          out := [];
        case Debug(msg) => out := HandleDebuggee(msg);
      }
    }
  }
}
