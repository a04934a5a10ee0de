/** The UDP client's lifecycle: `connect` and `close` over the resources they set and reset, as calls
    and as the steps a thread takes through them. How each library call inside `connect` ends is given
    by a plan. */
module UdpRadioClients {
  import opened Bytes

  datatype Resolve = Resolved | Unresolvable | BadAddress       // the second throws, the third sets ec and throws
  datatype Listen = Bound | BindError | BindFault               // returns false with, or without, an error code
  datatype Setup = AllUp | SocketFault | ThreadFault            // exceptions that connect does not catch
  datatype Plan = Plan(resolve: Resolve, listen: Listen, setup: Setup)

  /** Every library call succeeds. */
  const ALL_UP := Plan(Resolved, Bound, AllUp)

  /** `Terminated`: the io thread that is replaced was never joined, so its destructor ends the process. */
  datatype Result = Connected | Refused | Threw | Terminated
  datatype ErrorCode = Untouched | Clear | InvalidArgument | ListenError

  datatype IoService = NoIo | Open | Halted
  datatype IoThread = NoThread | Running | Joined
  datatype Listener = NoListener | Idle | Listening | Stopped
  datatype Signal = OnConnect | OnDisconnect
  datatype ThreadEvent = Started | JoinedUp

  /** How many listeners have been bound, and how many io services destroyed while the listener built on
      them was still there: its socket refers to the service, and is destroyed after it. */
  datatype Tally = Tally(bound: nat, orphaned: nat)

  datatype Client = Client(running: bool, io: IoService, work: bool, thread: IoThread, listener: Listener,
                           outSocket: bool, signals: seq<Signal>, threads: seq<ThreadEvent>, tally: Tally)

  const FRESH := Client(false, NoIo, false, NoThread, NoListener, false, [], [], Tally(0, 0))

  /** The tally once the io service has been replaced. */
  function AfterReplacing(c: Client): Tally {
    Tally(c.tally.bound, c.tally.orphaned + if c.listener == NoListener then 0 else 1)
  }

  function OneMoreBound(t: Tally): Tally {
    Tally(t.bound + 1, t.orphaned)
  }

  function ConnectResult(c: Client, p: Plan): (Result, ErrorCode) {
    if c.running then (Refused, Untouched)
    else if p.resolve == Unresolvable then (Threw, Untouched)
    else if p.resolve == BadAddress then (Threw, InvalidArgument)
    else if p.listen == BindError then (Refused, ListenError)
    else if p.listen == BindFault then (Refused, Clear)
    else if p.setup != AllUp then (Threw, Clear)
    else if c.thread == Running then (Terminated, Clear)
    else (Connected, Clear)
  }

  /** A connect from the bound listener on. */
  function AfterSetUp(c: Client, setup: Setup): Client {
    if setup == SocketFault then c
    else
      var built := c.(outSocket := true, work := true, listener := Listening);
      if setup == ThreadFault || c.thread == Running then built
      else built.(running := true, thread := Running,
                  signals := c.signals + [OnConnect], threads := c.threads + [Started])
  }

  function AfterConnect(c: Client, p: Plan): Client {
    if c.running || p.resolve != Resolved then c
    else if p.listen != Bound then c.(io := Open, listener := NoListener, tally := AfterReplacing(c))
    else AfterSetUp(c.(io := Open, listener := Idle, tally := OneMoreBound(AfterReplacing(c))), p.setup)
  }

  /** What `close` uses without a check. */
  predicate Closable(c: Client) {
    c.running ==> c.io != NoIo && c.thread == Running && c.listener != NoListener
  }

  function AfterClose(c: Client): Client {
    if !c.running then c
    else Client(false, Halted, false, Joined, Stopped, false,
                c.signals + [OnDisconnect], c.threads + [JoinedUp], c.tally)
  }

  /** What a caller of connect learns, outcome by outcome. */
  lemma ConnectReportsExactly(c: Client, p: Plan)
    ensures var (r, ec) := ConnectResult(c, p);
            && (r == Connected <==> !c.running && AfterConnect(c, p).running)
            && (r == Refused <==> c.running || (p.resolve == Resolved && p.listen != Bound))
            && (r == Threw <==> !c.running && (p.resolve != Resolved || (p.listen == Bound && p.setup != AllUp)))
            && (ec == Untouched <==> c.running || p.resolve == Unresolvable)
            && (ec == InvalidArgument <==> !c.running && p.resolve == BadAddress)
            && (ec == ListenError <==> !c.running && p.resolve == Resolved && p.listen == BindError)
    ensures ConnectResult(c, p).0 != Connected ==>
              && AfterConnect(c, p).running == c.running && AfterConnect(c, p).signals == c.signals
              && AfterConnect(c, p).threads == c.threads && AfterConnect(c, p).thread == c.thread
    ensures c.running || p.resolve != Resolved ==> AfterConnect(c, p) == c
    ensures !c.running && p.resolve == Resolved ==>
              var d := AfterConnect(c, p);
              && d.io == Open && (d.listener == NoListener <==> p.listen != Bound)
              && (d.outSocket <==> c.outSocket || (p.listen == Bound && p.setup != SocketFault))
              && (d.work <==> c.work || (p.listen == Bound && p.setup != SocketFault))
  {
  }

  // ---------- every sequential run ----------

  datatype Call = Connect(plan: Plan) | Close

  function Step(c: Client, call: Call): Client {
    match call
    case Connect(plan) => AfterConnect(c, plan)
    case Close => AfterClose(c)
  }

  function AfterCalls(calls: seq<Call>): Client {
    if calls == [] then FRESH else Step(AfterCalls(calls[..|calls| - 1]), calls[|calls| - 1])
  }

  /** `first` and `second` take turns, `first` beginning. */
  ghost predicate TakeTurns<T>(log: seq<T>, first: T, second: T) {
    forall i :: 0 <= i < |log| ==> log[i] == if i % 2 == 0 then first else second
  }

  /** While running all resources `close` uses are there; otherwise no io thread waits to be joined,
      so the next connect may replace it. Signals and thread events take turns and are open-ended
      exactly while running. Every listener ever bound was orphaned, but for the one that is there. */
  ghost predicate Sound(c: Client) {
    && (c.running ==> c.io == Open && c.work && c.thread == Running && c.listener == Listening && c.outSocket)
    && (!c.running ==> c.thread != Running)
    && TakeTurns(c.signals, OnConnect, OnDisconnect)
    && TakeTurns(c.threads, Started, JoinedUp)
    && (c.running <==> |c.signals| % 2 == 1)
    && |c.threads| == |c.signals|
    && c.tally.bound == c.tally.orphaned + if c.listener == NoListener then 0 else 1
  }

  lemma StepKeepsSound(c: Client, call: Call)
    requires Sound(c)
    ensures Sound(Step(c, call))
  {
  }

  lemma ConnectKeepsSound(c: Client, p: Plan)
    ensures Sound(c) ==> Sound(AfterConnect(c, p)) && ConnectResult(c, p).0 != Terminated
  {
    if Sound(c) {
      StepKeepsSound(c, Connect(p));
    }
  }

  lemma CloseKeepsSound(c: Client)
    ensures Sound(c) ==> Sound(AfterClose(c))
  {
    if Sound(c) {
      StepKeepsSound(c, Close);
    }
  }

  /** What every run of connects, however they end, and closes keeps. */
  lemma {:induction false} EveryRunIsSound(calls: seq<Call>)
    ensures Sound(AfterCalls(calls))
  {
    if calls == [] {
    } else {
      EveryRunIsSound(calls[..|calls| - 1]);
      StepKeepsSound(AfterCalls(calls[..|calls| - 1]), calls[|calls| - 1]);
    }
  }

  lemma AfterOneMoreCall(calls: seq<Call>, call: Call)
    ensures AfterCalls(calls + [call]) == Step(AfterCalls(calls), call)
  {
    assert (calls + [call])[..|calls|] == calls;
  }

  /** After a close nothing of a running client is in use any more, and it was signalled once; a client that
      is not running is left alone. */
  lemma CloseReleases(calls: seq<Call>)
    ensures var (c, d) := (AfterCalls(calls), AfterCalls(calls + [Close]));
            && (c.running ==>
                  && !d.running && !d.work && !d.outSocket
                  && d.io == Halted && d.thread == Joined && d.listener == Stopped
                  && d.signals == c.signals + [OnDisconnect] && d.threads == c.threads + [JoinedUp])
            && (!c.running ==> d == c)
  {
    AfterOneMoreCall(calls, Close);
    hide AfterCalls;
  }

  function Occurrences<T(==)>(log: seq<T>, x: T): nat {
    if log == [] then 0 else Occurrences(log[..|log| - 1], x) + if log[|log| - 1] == x then 1 else 0
  }

  lemma {:induction false} TurnsBalance<T>(log: seq<T>, first: T, second: T)
    requires first != second && TakeTurns(log, first, second)
    ensures Occurrences(log, first) - Occurrences(log, second) == |log| % 2
  {
    if log == [] {
    } else {
      var n := |log| - 1;
      TurnsBalance(log[..n], first, second);
    }
  }

  /** Connects signalled exceed disconnects by one exactly while the client runs, and so do io threads
      started over io threads joined. */
  lemma SignalsBalance(calls: seq<Call>)
    ensures var c := AfterCalls(calls);
            && Occurrences(c.signals, OnConnect) - Occurrences(c.signals, OnDisconnect) == (if c.running then 1 else 0)
            && Occurrences(c.threads, Started) - Occurrences(c.threads, JoinedUp) == (if c.running then 1 else 0)
  {
    var c := AfterCalls(calls);
    EveryRunIsSound(calls);
    TurnsBalance(c.signals, OnConnect, OnDisconnect);
    TurnsBalance(c.threads, Started, JoinedUp);
  }

  /** The plan of the last call that got as far as the listener. */
  function LastAttempt(calls: seq<Call>): Option<Plan> {
    if calls == [] then None
    else
      var (before, call) := (calls[..|calls| - 1], calls[|calls| - 1]);
      if call.Connect? && !AfterCalls(before).running && call.plan.resolve == Resolved then Some(call.plan)
      else LastAttempt(before)
  }

  /** `close` releases nothing a failed connect left behind: a bound listener stays, with no client
      running, exactly when the last attempt bound it and could not finish. It is listening exactly
      when only the io thread was missing. Whether in use, left or stopped, a listener is there exactly
      when the last attempt bound it. */
  lemma {:induction false} LeftBoundExactly(calls: seq<Call>)
    ensures var c, last := AfterCalls(calls), LastAttempt(calls);
            && (!c.running && (c.listener == Idle || c.listener == Listening) <==>
                last.Some? && last.value.listen == Bound && last.value.setup != AllUp)
            && (!c.running && c.listener == Listening <==>
                last.Some? && last.value.listen == Bound && last.value.setup == ThreadFault)
            && (c.listener != NoListener <==> last.Some? && last.value.listen == Bound)
    ensures AfterCalls(calls).running ==> LastAttempt(calls).Some? && LastAttempt(calls).value.setup == AllUp
  {
    if calls == [] {
    } else {
      LeftBoundExactly(calls[..|calls| - 1]);
      EveryRunIsSound(calls[..|calls| - 1]);
    }
  }

  /** Two such runs: `close` after an attempt that failed behind the bound listener. */
  lemma CloseLeavesListener(setup: Setup)
    requires setup != AllUp
    ensures var c := AfterCalls([Connect(Plan(Resolved, Bound, setup)), Close]);
            !c.running && c.io == Open && c.listener == if setup == SocketFault then Idle else Listening
  {
    var calls := [Connect(Plan(Resolved, Bound, setup)), Close];
    assert calls[..1] == [Connect(Plan(Resolved, Bound, setup))] && calls[..1][..0] == [];
    assert AfterCalls(calls[..1]) == AfterConnect(FRESH, Plan(Resolved, Bound, setup));
  }

  // ---------- listeners that outlive their io service ----------

  /** A connect destroys the io service under a listener's socket exactly when it gets as far as building
      one and the last attempt to do so had bound its listener. */
  lemma OrphanedExactly(calls: seq<Call>, p: Plan)
    ensures var (c, last) := (AfterCalls(calls), LastAttempt(calls));
            AfterCalls(calls + [Connect(p)]).tally.orphaned > c.tally.orphaned <==>
            !c.running && p.resolve == Resolved && last.Some? && last.value.listen == Bound
  {
    AfterOneMoreCall(calls, Connect(p));
    LeftBoundExactly(calls);
    hide AfterCalls, LastAttempt;
  }

  /** So does every reconnect of a running client that gets past the address. */
  lemma ReconnectCallsOrphan(calls: seq<Call>, p: Plan)
    requires AfterCalls(calls).running && p.resolve == Resolved
    ensures AfterCalls(calls + [Close] + [Connect(p)]).tally.orphaned == AfterCalls(calls).tally.orphaned + 1
  {
    EveryRunIsSound(calls);
    AfterOneMoreCall(calls, Close);
    AfterOneMoreCall(calls + [Close], Connect(p));
    hide AfterCalls;
  }

  /** Over every run: of n connects that were signalled, at least n - 1 orphaned a listener. */
  lemma ConnectsOrphan(calls: seq<Call>)
    ensures var c := AfterCalls(calls);
            Occurrences(c.signals, OnConnect) <= c.tally.orphaned + 1
  {
    EveryRunIsSound(calls);
    TurnsBalance(AfterCalls(calls).signals, OnConnect, OnDisconnect);
    ConnectsAreBound(calls);
    OnlyTwoSignals(AfterCalls(calls).signals);
  }

  lemma {:induction false} OnlyTwoSignals(log: seq<Signal>)
    ensures Occurrences(log, OnConnect) + Occurrences(log, OnDisconnect) == |log|
  {
    if log == [] {
    } else {
      var n := |log| - 1;
      OnlyTwoSignals(log[..n]);
      assert log[n] == OnConnect || log[n] == OnDisconnect;
    }
  }

  lemma {:induction false} ConnectsAreBound(calls: seq<Call>)
    ensures var c := AfterCalls(calls);
            |c.signals| + (if c.running then 1 else 0) <= 2 * c.tally.bound
  {
    if calls == [] {
    } else {
      ConnectsAreBound(calls[..|calls| - 1]);
    }
  }

  // ---------- the same calls, step by step ----------

  /** Where `connect` is, once it has found the client closed. */
  datatype BodyPc =
    | Resolving | BuildIo | DropListener | BuildListener | BuildSocket | BuildWork | StartListener | StartThread
    | RaiseFlag | Announce

  datatype BodyNext = GoesTo(at: BodyPc) | Returns | Fails | Terminates

  function BodyStep(c: Client, at: BodyPc, p: Plan): (Client, BodyNext) {
    match at
    case Resolving => (c, if p.resolve == Resolved then GoesTo(BuildIo) else Fails)
    case BuildIo => (c.(io := Open, tally := AfterReplacing(c)), GoesTo(DropListener))
    case DropListener => (c.(listener := NoListener), GoesTo(BuildListener))
    case BuildListener =>
      if p.listen == Bound then (c.(listener := Idle, tally := OneMoreBound(c.tally)), GoesTo(BuildSocket))
      else (c, Fails)
    case BuildSocket => if p.setup == SocketFault then (c, Fails) else (c.(outSocket := true), GoesTo(BuildWork))
    case BuildWork => (c.(work := true), GoesTo(StartListener))
    case StartListener => (c.(listener := Listening), GoesTo(StartThread))
    case StartThread =>
      if p.setup == ThreadFault then (c, Fails)
      else if c.thread == Running then (c, Terminates)
      else (c.(thread := Running, threads := c.threads + [Started]), GoesTo(RaiseFlag))
    case RaiseFlag => (c.(running := true), GoesTo(Announce))
    case Announce => (c.(signals := c.signals + [OnConnect]), Returns)
  }

  /** Where `close` is. */
  datatype ClosePc =
    | TestRunning | LowerRunning | DropWork | StopIo | JoinIo | StopListener | DropSocket | SignalDown

  /** `Faults`: something `close` uses is not there. */
  datatype CloseNext = MovesTo(at: ClosePc) | Done | Faults

  function CloseStep(c: Client, at: ClosePc): (Client, CloseNext) {
    match at
    case TestRunning => (c, if c.running then MovesTo(LowerRunning) else Done)
    case LowerRunning => (c.(running := false), MovesTo(DropWork))
    case DropWork => (c.(work := false), MovesTo(StopIo))
    case StopIo => if c.io == NoIo then (c, Faults) else (c.(io := Halted), MovesTo(JoinIo))
    case JoinIo =>
      if c.thread != Running then (c, Faults)
      else (c.(thread := Joined, threads := c.threads + [JoinedUp]), MovesTo(StopListener))
    case StopListener =>
      if c.listener == NoListener then (c, Faults) else (c.(listener := Stopped), MovesTo(DropSocket))
    case DropSocket => (c.(outSocket := false), MovesTo(SignalDown))
    case SignalDown => (c.(signals := c.signals + [OnDisconnect]), Done)
  }

  function BodyRank(at: BodyPc): nat {
    match at
    case Resolving => 10
    case BuildIo => 9
    case DropListener => 8
    case BuildListener => 7
    case BuildSocket => 6
    case BuildWork => 5
    case StartListener => 4
    case StartThread => 3
    case RaiseFlag => 2
    case Announce => 1
  }

  function CloseRank(at: ClosePc): nat {
    match at
    case TestRunning => 8
    case LowerRunning => 7
    case DropWork => 6
    case StopIo => 5
    case JoinIo => 4
    case StopListener => 3
    case DropSocket => 2
    case SignalDown => 1
  }

  /** The steps of a connect body taken without interruption. */
  function RunBody(c: Client, at: BodyPc, p: Plan): (Client, BodyNext)
    decreases BodyRank(at)
  {
    var (d, next) := BodyStep(c, at, p);
    if next.GoesTo? then RunBody(d, next.at, p) else (d, next)
  }

  function RunClose(c: Client, at: ClosePc): (Client, CloseNext)
    decreases CloseRank(at)
  {
    var (d, next) := CloseStep(c, at);
    if next.MovesTo? then RunClose(d, next.at) else (d, next)
  }

  lemma RunBodyStep(c: Client, at: BodyPc, p: Plan)
    ensures var (d, next) := BodyStep(c, at, p);
            RunBody(c, at, p) == if next.GoesTo? then RunBody(d, next.at, p) else (d, next)
  {
  }

  lemma RunCloseStep(c: Client, at: ClosePc)
    ensures var (d, next) := CloseStep(c, at);
            RunClose(c, at) == if next.MovesTo? then RunClose(d, next.at) else (d, next)
  {
  }

  /** How a body ends that returned this from `connect`. */
  function BodyEnd(r: Result): BodyNext {
    match r
    case Connected => Returns
    case Terminated => Terminates
    case _ => Fails
  }

  /** Uninterrupted, the steps of a connect that found the client closed are the call. */
  lemma UninterruptedBody(c: Client, p: Plan)
    requires !c.running
    ensures RunBody(c, Resolving, p) == (AfterConnect(c, p), BodyEnd(ConnectResult(c, p).0))
  {
    var renewed := c.(io := Open, tally := AfterReplacing(c));
    var dropped := renewed.(listener := NoListener);
    var idle := dropped.(listener := Idle, tally := OneMoreBound(dropped.tally));
    BodyFromSocket(idle, p);
    assert RunBody(c, Resolving, p) == if p.resolve == Resolved then RunBody(c, BuildIo, p) else (c, Fails);
    assert RunBody(c, BuildIo, p) == RunBody(renewed, DropListener, p);
    assert RunBody(renewed, DropListener, p) == RunBody(dropped, BuildListener, p);
    assert p.listen == Bound ==> RunBody(dropped, BuildListener, p) == RunBody(idle, BuildSocket, p);
  }

  lemma BodyFromSocket(c: Client, p: Plan)
    requires !c.running && c.io == Open && c.listener == Idle
    ensures RunBody(c, BuildSocket, p).0 == AfterSetUp(c, p.setup)
    ensures RunBody(c, BuildSocket, p).1 ==
            if p.setup != AllUp then Fails else if c.thread == Running then Terminates else Returns
  {
    hide RunBody;
    var plugged := c.(outSocket := true);
    var working := plugged.(work := true);
    var built := working.(listener := Listening);
    var started := built.(thread := Running, threads := built.threads + [Started]);
    RunBodyStep(c, BuildSocket, p);
    RunBodyStep(plugged, BuildWork, p);
    RunBodyStep(working, StartListener, p);
    RunBodyStep(built, StartThread, p);
    RunBodyStep(started, RaiseFlag, p);
    RunBodyStep(started.(running := true), Announce, p);
  }

  /** Uninterrupted, the steps of `close` are the call, and none of them faults. */
  lemma UninterruptedClose(c: Client)
    requires Closable(c)
    ensures RunClose(c, TestRunning) == (AfterClose(c), Done)
  {
  }

  // ---------- undisturbed steps lead from sound clients to sound clients ----------

  /** A connect body at this point, begun on a sound closed client and not disturbed. */
  ghost predicate Built(c: Client, at: BodyPc) {
    match at
    case RaiseFlag => !c.running && Sound(c.(running := true, signals := c.signals + [OnConnect]))
    case Announce => c.running && Sound(c.(signals := c.signals + [OnConnect]))
    case DropListener => !c.running && Sound(c.(listener := NoListener)) && c.io == Open
    case _ =>
      && !c.running && Sound(c)
      && (BodyRank(at) <= BodyRank(DropListener) ==> c.io == Open)
      && (at.BuildListener? ==> c.listener == NoListener)
      && (BodyRank(at) <= BodyRank(BuildSocket) ==> c.listener != NoListener)
      && (BodyRank(at) <= BodyRank(BuildWork) ==> c.outSocket)
      && (BodyRank(at) <= BodyRank(StartListener) ==> c.work)
      && (BodyRank(at) <= BodyRank(StartThread) ==> c.listener == Listening)
  }

  /** A `close` at this point, begun on a sound client and not disturbed. */
  ghost predicate Torn(c: Client, at: ClosePc) {
    match at
    case TestRunning => Sound(c)
    case LowerRunning => Sound(c) && c.running
    case DropWork => !c.running && Sound(c.(running := true))
    case StopIo => !c.running && Sound(c.(running := true, work := true))
    case JoinIo => !c.running && Sound(c.(running := true, work := true, io := Open)) && c.io == Halted
    case _ =>
      && !c.running && Sound(c.(signals := c.signals + [OnDisconnect]))
      && (at.StopListener? ==> c.listener != NoListener)
  }

  lemma BodyStepIsSound(c: Client, at: BodyPc, p: Plan)
    requires Built(c, at)
    ensures var (d, next) := BodyStep(c, at, p);
            match next
            case GoesTo(to) => Built(d, to)
            case Returns => Sound(d) && d.running
            case Fails => Sound(d)
            case Terminates => false
    ensures at == BuildIo ==> c.thread != Running
  {
  }

  lemma CloseStepIsSound(c: Client, at: ClosePc)
    requires Torn(c, at)
    ensures var (d, next) := CloseStep(c, at);
            match next
            case MovesTo(to) => Torn(d, to)
            case Done => Sound(d) && !d.running
            case Faults => false
  {
  }

  class UdpRadioClient {
    var running: bool
    var io: IoService
    var work: bool
    var ioThread: IoThread
    var udpListener: Listener
    var udpOutSocket: bool
    var signals: seq<Signal>
    var threads: seq<ThreadEvent>
    var tally: Tally

    constructor ()
      ensures Contents() == FRESH
    {
      running, io, work, ioThread, udpListener, udpOutSocket := false, NoIo, false, NoThread, NoListener, false;
      signals, threads, tally := [], [], Tally(0, 0);
    }

    function Contents(): Client
      reads this
    {
      Client(running, io, work, ioThread, udpListener, udpOutSocket, signals, threads, tally)
    }

    method Connect(plan: Plan) returns (r: Result, ec: ErrorCode)
      modifies this
      ensures Contents() == AfterConnect(old(Contents()), plan)
      ensures (r, ec) == ConnectResult(old(Contents()), plan)
      ensures old(Sound(Contents())) ==> Sound(Contents()) && r != Terminated
    {
      hide Sound;
      ConnectKeepsSound(Contents(), plan);
      ec := Untouched;
      if running {
        return Refused, ec;
      }
      match plan.resolve {
        case Unresolvable => return Threw, ec;
        case BadAddress => return Threw, InvalidArgument;
        case Resolved =>
      }
      ec := Clear;
      io := Open;
      if udpListener != NoListener {
        tally := Tally(tally.bound, tally.orphaned + 1);
      }
      udpListener := NoListener;
      if plan.listen == BindError {
        return Refused, ListenError;
      }
      if plan.listen == BindFault {
        return Refused, ec;
      }
      udpListener := Idle;
      tally := Tally(tally.bound + 1, tally.orphaned);
      r := SetUp(plan.setup);
    }

    /** The end of `connect`, from the bound listener on. */
    method SetUp(setup: Setup) returns (r: Result)
      requires !running
      modifies this
      ensures Contents() == AfterSetUp(old(Contents()), setup)
      ensures r == if setup != AllUp then Threw else if old(ioThread) == Running then Terminated else Connected
    {
      if setup == SocketFault {
        return Threw;
      }
      udpOutSocket := true;
      work := true;
      udpListener := Listening;
      if setup == ThreadFault {
        return Threw;
      }
      if ioThread == Running {
        return Terminated;
      }
      ioThread := Running;
      threads := threads + [Started];
      running := true;
      signals := signals + [OnConnect];
      return Connected;
    }

    method Close()
      requires Closable(Contents())
      modifies this
      ensures Contents() == AfterClose(old(Contents()))
      ensures old(Sound(Contents())) ==> Sound(Contents())
    {
      hide Sound;
      CloseKeepsSound(Contents());
      if !running {
        return;
      }
      running := false;
      work := false;
      io := Halted;
      ioThread := Joined;
      threads := threads + [JoinedUp];
      udpListener := Stopped;
      udpOutSocket := false;
      signals := signals + [OnDisconnect];
    }
  }
}
