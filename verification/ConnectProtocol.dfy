/** The node's connection protocol as interleaved atomic steps of two parties: the callbacks, which
    the executor runs one at a time, and the connect threads they spawn, both working on one UDP
    client. Reading or writing one flag is one step, and so is building or releasing one resource. */
module ConnectProtocol {
  import opened Bytes
  import opened UdpRadioClients

  /** Where a connect thread is. */
  datatype ThreadPc =
    | Begun               // before the `running` guard of connect
    | InBody(at: BodyPc)  // past the guard
    | Leaving             // connect has returned or thrown; about to clear `connecting`
    | Ended

  /** Who called `close`. */
  datatype Closer = ByReconnect | ByError | ByShutdown

  /** Where the running callback is. */
  datatype CallPc =
    | NoCall
    | Closing(who: Closer, at: ClosePc)
    | ReconnectClearError | ReconnectClearFlag
    // pre_spin, from configure or reconnectSrv
    | TestError | ErrorClear | TestFlag | TestConnected | SetFlag | JoinOld | Spawn
    // handle_on_shutdown
    | ShutdownJoin
    | Down                // no callback either; the last one was a shutdown that finished

  datatype Crew = Crew(
    threads: seq<ThreadPc>,      // every connect thread ever spawned
    handle: Option<nat>,         // connect_thread_: the thread it refers to
    joined: bool)                // that thread has been joined

  /** What has happened so far; no step depends on it. */
  datatype Past = Past(
    attemptFailed: bool,         // an attempt to connect failed since the last reconnect call began
    spawnFailed: bool,           // a connect thread could not be started
    riskyClose: bool,            // when `running` was last lowered a thread was about to pass its guard or announce
    ioLost: bool,                // an io service was destroyed under the io thread
    met: bool)                   // a teardown and a connect body have been under way at once

  datatype State = State(
    call: CallPc,
    crew: Crew,
    connecting: bool,
    client: Client,
    radioError: bool,            // radio_client_error_ is set
    crashed: bool,               // the process has been terminated
    past: Past)

  datatype Action =
    | CallReconnect              // the executor starts a callback
    | CallShutdown
    | CallStep(starts: bool)     // the running callback's next step; a thread it spawns starts, or throws
    | ThreadStep(k: nat, plan: Plan)  // thread k's next step; `plan` says how a library call in it ends
    | ErrorChanges(b: bool)      // the io thread reports an error, or configure clears it

  /** Configure calls pre_spin with a fresh client. */
  const START := State(TestError, Crew([], None, false), false, FRESH, false, false,
                       Past(false, false, false, false, false))

  predicate Alive(w: Crew, k: nat) {
    k < |w.threads| && w.threads[k] != Ended
  }

  predicate Live(s: State, k: nat) {
    Alive(s.crew, k)
  }

  predicate ThreadAt(s: State, k: nat, pc: ThreadPc) {
    k < |s.crew.threads| && s.crew.threads[k] == pc
  }

  function Moved(w: Crew, k: nat, pc: ThreadPc): Crew
    requires k < |w.threads|
  {
    w.(threads := w.threads[k := pc])
  }

  /** The executor can start a callback. */
  predicate Idling(s: State) {
    !s.crashed && (s.call.NoCall? || s.call.Down?)
  }

  /** `connect_thread_->join()` waits for the thread to end. */
  predicate JoinBlocked(w: Crew) {
    w.handle.Some? && Alive(w, w.handle.value)
  }

  /** `close` has lowered `running` and not returned. */
  predicate Tearing(c: CallPc) {
    c.Closing? && !c.at.TestRunning? && !c.at.LowerRunning?
  }

  /** `close` has lowered `running` and not joined the io thread. */
  predicate BeforeIoJoin(c: CallPc) {
    c.Closing? && (c.at.DropWork? || c.at.StopIo? || c.at.JoinIo?)
  }

  /** Some thread can be past its guard before the teardown is over. */
  predicate AtRisk(w: Crew) {
    exists k :: 0 <= k < |w.threads| && (w.threads[k] == Begun || w.threads[k] == InBody(Announce))
  }

  function CallAfterClosing(who: Closer, at: ClosePc, next: CloseNext): CallPc {
    match next
    case MovesTo(to) => Closing(who, to)
    case Done => (match who
                  case ByReconnect => ReconnectClearError
                  case ByError => ErrorClear
                  case ByShutdown => Down)
    case Faults => Closing(who, at)
  }

  function CloseNextState(s: State, who: Closer, at: ClosePc): State {
    var (c, next) := CloseStep(s.client, at);
    s.(client := c, call := CallAfterClosing(who, at, next), crashed := next.Faults?,
       past := s.past.(riskyClose := if at.LowerRunning? then AtRisk(s.crew) else s.past.riskyClose))
  }

  /** `if (connect_thread_) connect_thread_->join()` in pre_spin; joining a joined thread throws. */
  function JoinOldNext(s: State): State {
    if JoinBlocked(s.crew) then s
    else if s.crew.joined then s.(call := NoCall, past := s.past.(attemptFailed := true))
    else s.(call := Spawn, crew := s.crew.(joined := s.crew.handle.Some?))
  }

  function SpawnNext(s: State, starts: bool): State {
    if starts
    then s.(call := NoCall, crew := Crew(s.crew.threads + [Begun], Some(|s.crew.threads|), false))
    else s.(call := NoCall, past := s.past.(attemptFailed := true, spawnFailed := true))
  }

  function ShutdownJoinNext(s: State): State {
    if JoinBlocked(s.crew) then s
    else if s.crew.joined then s.(call := NoCall)
    else s.(call := Closing(ByShutdown, TestRunning), crew := s.crew.(handle := None))
  }

  /** The steps that touch neither client nor threads: where they lead, and what they write. */
  function CallAfterFlagStep(call: CallPc, radioError: bool, connecting: bool, running: bool): CallPc {
    match call
    case ReconnectClearError => ReconnectClearFlag
    case ReconnectClearFlag => TestError
    case TestError => if radioError then Closing(ByError, TestRunning) else TestFlag
    case ErrorClear => TestFlag
    case TestFlag => if connecting then NoCall else TestConnected
    case TestConnected => if running then NoCall else SetFlag
    case SetFlag => JoinOld
    case _ => call
  }

  function FlagNext(s: State): State {
    s.(call := CallAfterFlagStep(s.call, s.radioError, s.connecting, s.client.running),
       radioError := s.radioError && !s.call.ReconnectClearError? && !s.call.ErrorClear?,
       connecting := (s.connecting && !s.call.ReconnectClearFlag?) || s.call.SetFlag?)
  }

  function CallNext(s: State, starts: bool): State {
    match s.call
    case Closing(who, at) => CloseNextState(s, who, at)
    case JoinOld => JoinOldNext(s)
    case Spawn => SpawnNext(s, starts)
    case ShutdownJoin => ShutdownJoinNext(s)
    case _ => FlagNext(s)
  }

  function GuardNext(s: State, k: nat): State
    requires k < |s.crew.threads|
  {
    s.(crew := Moved(s.crew, k, if s.client.running then Leaving else InBody(Resolving)))
  }

  function BodyNextState(s: State, k: nat, at: BodyPc, plan: Plan): State
    requires k < |s.crew.threads|
  {
    var (c, next) := BodyStep(s.client, at, plan);
    var to := match next
              case GoesTo(to) => InBody(to)
              case Terminates => InBody(at)
              case _ => Leaving;
    s.(client := c, crew := Moved(s.crew, k, to), crashed := next.Terminates?,
       past := s.past.(attemptFailed := s.past.attemptFailed || next.Fails?,
                       ioLost := s.past.ioLost || (at.BuildIo? && s.client.thread == Running)))
  }

  function EndNext(s: State, k: nat): State
    requires k < |s.crew.threads|
  {
    s.(crew := Moved(s.crew, k, Ended), connecting := false)
  }

  function ThreadNext(s: State, k: nat, plan: Plan): State
    requires k < |s.crew.threads|
  {
    match s.crew.threads[k]
    case Begun => GuardNext(s, k)
    case InBody(at) => BodyNextState(s, k, at, plan)
    case Leaving => EndNext(s, k)
    case Ended => s
  }

  function ReconnectStart(s: State): State {
    s.(call := Closing(ByReconnect, TestRunning), past := s.past.(attemptFailed := false))
  }

  function Do(s: State, a: Action): State {
    match a
    case CallReconnect => if Idling(s) then ReconnectStart(s) else s
    case CallShutdown => if Idling(s) then s.(call := ShutdownJoin) else s
    case CallStep(starts) => CallNext(s, starts)
    case ThreadStep(k, plan) => if k < |s.crew.threads| then ThreadNext(s, k, plan) else s
    case ErrorChanges(b) => s.(radioError := b)
  }

  /** A teardown and a connect body are under way at once. */
  predicate Meeting(s: State) {
    Tearing(s.call) && exists k :: 0 <= k < |s.crew.threads| && s.crew.threads[k].InBody?
  }

  /** One step; one that is not possible changes nothing, and nothing does once the process has crashed. */
  function Apply(s: State, a: Action): State {
    if s.crashed then s
    else
      var r := Do(s, a);
      r.(past := r.past.(met := s.past.met || Meeting(r)))
  }

  /** The state after any interleaving. */
  function After(run: seq<Action>): State {
    if run == [] then START else Apply(After(run[..|run| - 1]), run[|run| - 1])
  }

  // ---------- the invariant ----------

  /** Where the thread is that connect_thread_ refers to. */
  function Current(w: Crew): ThreadPc {
    if w.handle.Some? && w.handle.value < |w.threads| then w.threads[w.handle.value] else Ended
  }

  /** connect_thread_ refers to a joined thread and will be joined again. */
  predicate Stranded(s: State) {
    s.crew.joined && !s.call.Spawn?
  }

  /** At most one thread is alive: the one connect_thread_ refers to, and that one is not yet joined. */
  ghost predicate OneThread(w: Crew) {
    && (w.handle.Some? ==> w.handle.value < |w.threads|)
    && (w.joined ==> w.handle.Some?)
    && (forall k: nat :: Alive(w, k) ==> w.handle == Some(k) && !w.joined)
  }

  /** A joined thread is only referred to until the next one replaces it, unless that one fails to start. */
  predicate JoinKnown(call: CallPc, w: Crew, spawnFailed: bool) {
    && (call.Spawn? && w.handle.Some? ==> w.joined)
    && (w.joined && !call.Spawn? ==> spawnFailed)
  }

  predicate InPreSpin(c: CallPc) {
    c.TestError? || (c.Closing? && c.who.ByError?) || c.ErrorClear? || c.TestFlag?
  }

  /** While every thread has started, `connecting` is only up while one is alive or pre_spin is about
      to spawn one; pre_spin never finds it up. */
  ghost predicate FlagKnown(call: CallPc, cur: ThreadPc, connecting: bool, spawnFailed: bool) {
    && (connecting && !spawnFailed ==> call.JoinOld? || call.Spawn? || !cur.Ended?)
    && (InPreSpin(call) ==> !connecting)
  }

  /** A connect body that is under way found the client closed, and it stays closed until the body opens
      it; there is an io thread to join exactly while the client runs, a body is about to say so, or
      `close` is about to join it. */
  ghost predicate ClientKnown(call: CallPc, cur: ThreadPc, c: Client) {
    && (cur.InBody? && !cur.at.Announce? ==> !c.running)
    && (call.Closing? && call.at.LowerRunning? ==> c.running)
    && (c.thread == Running <==> c.running || cur == InBody(RaiseFlag) || BeforeIoJoin(call))
    && (BeforeIoJoin(call) ==> !c.running && cur != InBody(RaiseFlag))
    && (c.thread == Running ==> c.io != NoIo)
    && (cur.InBody? && BodyRank(cur.at) < BodyRank(BuildIo) ==> c.io != NoIo)
  }

  ghost predicate ShutdownKnown(call: CallPc, handle: Option<nat>, c: Client) {
    && (call.Closing? && call.who.ByShutdown? ==> handle.None? && (Tearing(call) ==> !c.running))
    && (call.Down? ==> handle.None? && !c.running)
  }

  ghost predicate TeardownKnown(call: CallPc, cur: ThreadPc, riskyClose: bool) {
    Tearing(call) && !riskyClose ==> cur.Leaving? || cur.Ended?
  }

  /** Between callbacks, unless an attempt has failed, the client runs or a thread will see to it. */
  ghost predicate Headed(call: CallPc, cur: ThreadPc, joined: bool, attemptFailed: bool, c: Client) {
    (call.NoCall? || (call.ShutdownJoin? && joined)) && !attemptFailed ==>
      c.running || cur.Begun? || (cur.InBody? && !cur.at.Announce?)
  }

  /** Where the process can have crashed. */
  ghost predicate CrashKnown(call: CallPc, cur: ThreadPc, crashed: bool) {
    crashed ==> cur == InBody(StartThread) || (call.Closing? && call.at.StopListener?)
  }

  /** A body that has built its io service while the old io thread is still to be joined destroyed the
      one that thread runs on. */
  ghost predicate LossKnown(call: CallPc, cur: ThreadPc, ioLost: bool) {
    cur.InBody? && BodyRank(cur.at) < BodyRank(BuildIo) && !cur.at.Announce? && BeforeIoJoin(call) ==> ioLost
  }

  /** Every listener ever bound was orphaned, but for the one that is there; and one is there while the
      client runs or a body is behind binding it. */
  predicate TallyKnown(cur: ThreadPc, c: Client) {
    && c.tally.bound ==
       c.tally.orphaned + (if c.listener != NoListener && cur != InBody(DropListener) then 1 else 0)
    && (cur == InBody(BuildListener) ==> c.listener == NoListener)
    && (c.running || (cur.InBody? && BodyRank(cur.at) < BodyRank(BuildListener)) ==> c.listener != NoListener)
  }

  ghost predicate Inv(s: State) {
    && OneThread(s.crew)
    && JoinKnown(s.call, s.crew, s.past.spawnFailed)
    && FlagKnown(s.call, Current(s.crew), s.connecting, s.past.spawnFailed)
    && ClientKnown(s.call, Current(s.crew), s.client)
    && ShutdownKnown(s.call, s.crew.handle, s.client)
    && TeardownKnown(s.call, Current(s.crew), s.past.riskyClose)
    && Headed(s.call, Current(s.crew), s.crew.joined, s.past.attemptFailed, s.client)
    && CrashKnown(s.call, Current(s.crew), s.crashed)
    && LossKnown(s.call, Current(s.crew), s.past.ioLost)
    && TallyKnown(Current(s.crew), s.client)
  }

  // ----- the crew -----

  lemma NoneAlive(w: Crew)
    requires OneThread(w) && (!JoinBlocked(w) || w.joined || w.handle.None?)
    ensures Current(w) == Ended && forall k: nat :: !Alive(w, k)
  {
  }

  lemma Moves(w: Crew, k: nat, pc: ThreadPc)
    requires OneThread(w) && Alive(w, k)
    ensures OneThread(Moved(w, k, pc)) && Current(w) == w.threads[k] && Current(Moved(w, k, pc)) == pc
    ensures w.handle == Some(k) && !w.joined
  {
  }

  // ----- steps of close -----

  lemma CloseCallKnown(who: Closer, at: ClosePc, next: CloseNext)
    ensures var call := CallAfterClosing(who, at, next);
            !call.Spawn? && !call.NoCall? && !call.ShutdownJoin? && (next.Faults? ==> call == Closing(who, at))
  {
  }

  lemma RiskIsOfCurrent(w: Crew)
    requires OneThread(w)
    ensures AtRisk(w) <==> Current(w) == Begun || Current(w) == InBody(Announce)
  {
    if AtRisk(w) {
      var k :| 0 <= k < |w.threads| && (w.threads[k] == Begun || w.threads[k] == InBody(Announce));
      assert Alive(w, k);
    }
    if Current(w) == Begun || Current(w) == InBody(Announce) {
      assert w.threads[w.handle.value] == Current(w);
    }
  }

  lemma CloseKeepsClientKnown(who: Closer, at: ClosePc, cur: ThreadPc, c: Client, ioLost: bool)
    requires ClientKnown(Closing(who, at), cur, c) && LossKnown(Closing(who, at), cur, ioLost)
    ensures var (d, next) := CloseStep(c, at);
            && ClientKnown(CallAfterClosing(who, at, next), cur, d) && (next.Faults? ==> at.StopListener?)
            && LossKnown(CallAfterClosing(who, at, next), cur, ioLost)
  {
  }

  lemma CloseKeepsRest(who: Closer, at: ClosePc, cur: ThreadPc, handle: Option<nat>, c: Client,
                       connecting: bool, spawnFailed: bool)
    requires FlagKnown(Closing(who, at), cur, connecting, spawnFailed) && TallyKnown(cur, c)
    requires ShutdownKnown(Closing(who, at), handle, c)
    ensures var (d, next) := CloseStep(c, at);
            && FlagKnown(CallAfterClosing(who, at, next), cur, connecting, spawnFailed) && TallyKnown(cur, d)
            && ShutdownKnown(CallAfterClosing(who, at, next), handle, d)
  {
  }

  lemma CloseKeepsTeardownKnown(who: Closer, at: ClosePc, cur: ThreadPc, c: Client, risky: bool, atRisk: bool)
    requires ClientKnown(Closing(who, at), cur, c) && TeardownKnown(Closing(who, at), cur, risky)
    requires atRisk <==> cur == Begun || cur == InBody(Announce)
    ensures TeardownKnown(CallAfterClosing(who, at, CloseStep(c, at).1), cur,
                          if at.LowerRunning? then atRisk else risky)
  {
  }

  lemma ClosingKeepsInv(s: State)
    requires Inv(s) && s.call.Closing? && !s.crashed
    ensures Inv(CloseNextState(s, s.call.who, s.call.at))
  {
    hide CloseStep, CallAfterClosing, AtRisk, OneThread, Current, ClientKnown, FlagKnown, ShutdownKnown, TeardownKnown,
      TallyKnown, LossKnown;
    var (who, at, cur) := (s.call.who, s.call.at, Current(s.crew));
    CloseCallKnown(who, at, CloseStep(s.client, at).1);
    CloseKeepsClientKnown(who, at, cur, s.client, s.past.ioLost);
    CloseKeepsRest(who, at, cur, s.crew.handle, s.client, s.connecting, s.past.spawnFailed);
    RiskIsOfCurrent(s.crew);
    CloseKeepsTeardownKnown(who, at, cur, s.client, s.past.riskyClose, AtRisk(s.crew));
  }

  // ----- the callbacks' other steps -----

  lemma FlagFrame(s: State)
    ensures var r := FlagNext(s);
            && r.crew == s.crew && r.client == s.client && r.crashed == s.crashed && r.past == s.past
            && r.call == CallAfterFlagStep(s.call, s.radioError, s.connecting, s.client.running)
            && r.connecting == ((s.connecting && !s.call.ReconnectClearFlag?) || s.call.SetFlag?)
            && (r.radioError ==> s.radioError)
  {
  }

  lemma JoinOldFrame(s: State)
    ensures var r := JoinOldNext(s);
            && r.client == s.client && r.crashed == s.crashed
            && r.past.ioLost == s.past.ioLost && r.past.met == s.past.met
            && r.crew.threads == s.crew.threads && r.crew.handle == s.crew.handle
  {
  }

  lemma ShutdownJoinFrame(s: State)
    ensures var r := ShutdownJoinNext(s);
            && r.client == s.client && r.crashed == s.crashed
            && r.past.ioLost == s.past.ioLost && r.past.met == s.past.met
            && r.crew.threads == s.crew.threads
  {
  }

  lemma SpawnFrame(s: State, starts: bool)
    ensures var r := SpawnNext(s, starts);
            r.client == s.client && r.crashed == s.crashed && r.past.ioLost == s.past.ioLost && r.past.met == s.past.met
  {
  }

  lemma FlagStepKeepsInv(s: State)
    requires Inv(s) && !s.crashed
    requires !s.call.Closing? && !s.call.JoinOld? && !s.call.Spawn? && !s.call.ShutdownJoin?
    ensures Inv(FlagNext(s))
  {
  }

  lemma JoinOldKeepsInv(s: State)
    requires Inv(s) && !s.crashed && s.call.JoinOld?
    ensures Inv(JoinOldNext(s))
  {
    if !JoinBlocked(s.crew) {
      NoneAlive(s.crew);
      assert forall k: nat :: Alive(JoinOldNext(s).crew, k) ==> Alive(s.crew, k);
    }
  }

  lemma ShutdownJoinKeepsInv(s: State)
    requires Inv(s) && !s.crashed && s.call.ShutdownJoin?
    ensures Inv(ShutdownJoinNext(s))
  {
    if !JoinBlocked(s.crew) {
      NoneAlive(s.crew);
      assert forall k: nat :: Alive(ShutdownJoinNext(s).crew, k) ==> Alive(s.crew, k);
    }
  }

  lemma SpawnKeepsInv(s: State, starts: bool)
    requires Inv(s) && !s.crashed && s.call.Spawn?
    ensures Inv(SpawnNext(s, starts))
  {
  }

  lemma CallKeepsInv(s: State, starts: bool)
    requires Inv(s) && !s.crashed
    ensures Inv(CallNext(s, starts))
  {
    hide Inv, FlagNext, JoinOldNext, SpawnNext, ShutdownJoinNext, CloseNextState;
    match s.call {
      case Closing(_, _) => ClosingKeepsInv(s);
      case JoinOld => JoinOldKeepsInv(s);
      case ShutdownJoin => ShutdownJoinKeepsInv(s);
      case Spawn => SpawnKeepsInv(s, starts);
      case _ => FlagStepKeepsInv(s);
    }
  }

  // ----- the threads' steps -----

  lemma BodyKeepsClientKnown(call: CallPc, at: BodyPc, c: Client, plan: Plan)
    requires ClientKnown(call, InBody(at), c)
    ensures var (d, next) := BodyStep(c, at, plan);
            match next
            case GoesTo(to) => ClientKnown(call, InBody(to), d)
            case Terminates => d == c && at.StartThread?
            case _ => ClientKnown(call, Leaving, d)
  {
  }

  lemma BodyKeepsTally(at: BodyPc, c: Client, plan: Plan)
    requires TallyKnown(InBody(at), c) && (at.Announce? || !c.running)
    ensures var (d, next) := BodyStep(c, at, plan);
            match next
            case GoesTo(to) => TallyKnown(InBody(to), d)
            case Terminates => TallyKnown(InBody(at), d)
            case _ => TallyKnown(Leaving, d)
  {
  }

  lemma BodyKeepsLossKnown(call: CallPc, at: BodyPc, c: Client, plan: Plan, ioLost: bool)
    requires ClientKnown(call, InBody(at), c) && LossKnown(call, InBody(at), ioLost)
    ensures var next := BodyStep(c, at, plan).1;
            match next
            case GoesTo(to) => LossKnown(call, InBody(to), ioLost || (at.BuildIo? && c.thread == Running))
            case _ => true
  {
  }

  lemma BodyFrame(c: Client, at: BodyPc, plan: Plan)
    ensures var (d, next) := BodyStep(c, at, plan);
            && (c.running ==> d.running)
            && (next.Returns? <==> at.Announce?)
            && (next.GoesTo? && next.at.Announce? ==> d.running)
            && (next.Terminates? ==> at.StartThread?)
  {
  }

  /** What is known of the rest when the thread moves from `pc` to `to`. */
  lemma RestKnown(call: CallPc, pc: ThreadPc, to: ThreadPc, handle: Option<nat>, c: Client, d: Client,
                  connecting: bool, spawnFailed: bool, risky: bool)
    requires handle.Some? && !pc.Ended? && !to.Ended? && !to.Begun? && (to.InBody? ==> pc.InBody? || pc.Begun?)
    requires FlagKnown(call, pc, connecting, spawnFailed) && TeardownKnown(call, pc, risky)
    requires ShutdownKnown(call, handle, c)
    ensures FlagKnown(call, to, connecting, spawnFailed) && TeardownKnown(call, to, risky)
    ensures ShutdownKnown(call, handle, d)
  {
  }

  lemma BodyKeepsInv(s: State, k: nat, at: BodyPc, plan: Plan)
    requires Inv(s) && !s.crashed && ThreadAt(s, k, InBody(at))
    ensures Inv(BodyNextState(s, k, at, plan))
  {
    var r := BodyNextState(s, k, at, plan);
    var to := r.crew.threads[k];
    Moves(s.crew, k, to);
    BodyKeepsClientKnown(s.call, at, s.client, plan);
    BodyFrame(s.client, at, plan);
    BodyKeepsTally(at, s.client, plan);
    BodyKeepsLossKnown(s.call, at, s.client, plan, s.past.ioLost);
    hide BodyStep, OneThread, Current, Moved, ClientKnown, FlagKnown, TeardownKnown, ShutdownKnown, TallyKnown;
    RestKnown(s.call, InBody(at), to, s.crew.handle, s.client, r.client, s.connecting, s.past.spawnFailed,
              s.past.riskyClose);
  }

  lemma GuardKeepsClientKnown(call: CallPc, c: Client)
    requires ClientKnown(call, Begun, c)
    ensures ClientKnown(call, if c.running then Leaving else InBody(Resolving), c)
  {
  }

  lemma GuardKeepsInv(s: State, k: nat)
    requires Inv(s) && !s.crashed && ThreadAt(s, k, Begun)
    ensures Inv(GuardNext(s, k))
  {
    var to := if s.client.running then Leaving else InBody(Resolving);
    Moves(s.crew, k, to);
    hide OneThread, Current, Moved, ClientKnown, FlagKnown, TeardownKnown, ShutdownKnown;
    GuardKeepsClientKnown(s.call, s.client);
    RestKnown(s.call, Begun, to, s.crew.handle, s.client, s.client, s.connecting, s.past.spawnFailed,
              s.past.riskyClose);
  }

  lemma EndKeepsInv(s: State, k: nat)
    requires Inv(s) && !s.crashed && ThreadAt(s, k, Leaving)
    ensures Inv(EndNext(s, k))
  {
  }

  lemma ThreadKeepsInv(s: State, k: nat, plan: Plan)
    requires Inv(s) && !s.crashed && k < |s.crew.threads|
    ensures Inv(ThreadNext(s, k, plan))
  {
    hide Inv, BodyNextState, GuardNext, EndNext;
    match s.crew.threads[k] {
      case InBody(at) => BodyKeepsInv(s, k, at, plan);
      case Begun => GuardKeepsInv(s, k);
      case Leaving => EndKeepsInv(s, k);
      case Ended =>
    }
  }

  lemma ReconnectStartKeepsInv(s: State)
    requires Inv(s) && Idling(s)
    ensures Inv(ReconnectStart(s))
  {
  }

  lemma ShutdownStartKeepsInv(s: State)
    requires Inv(s) && Idling(s)
    ensures Inv(s.(call := ShutdownJoin))
  {
  }

  lemma ErrorChangeKeepsInv(s: State, b: bool)
    requires Inv(s)
    ensures Inv(s.(radioError := b))
  {
  }

  lemma DoKeepsInv(s: State, a: Action)
    requires Inv(s) && !s.crashed
    ensures Inv(Do(s, a))
  {
    hide Inv, CallNext, ThreadNext, ReconnectStart;
    match a {
      case CallStep(starts) => CallKeepsInv(s, starts);
      case ThreadStep(k, plan) =>
        if k < |s.crew.threads| {
          ThreadKeepsInv(s, k, plan);
        }
      case CallReconnect =>
        if Idling(s) {
          ReconnectStartKeepsInv(s);
        }
      case CallShutdown =>
        if Idling(s) {
          ShutdownStartKeepsInv(s);
        }
      case ErrorChanges(b) => ErrorChangeKeepsInv(s, b);
    }
  }

  lemma NoteKeepsInv(r: State, met: bool)
    requires Inv(r)
    ensures Inv(r.(past := r.past.(met := met)))
  {
  }

  lemma StepKeepsInv(s: State, a: Action)
    requires Inv(s)
    ensures Inv(Apply(s, a))
  {
    hide Inv, Do, Meeting;
    if !s.crashed {
      DoKeepsInv(s, a);
      NoteKeepsInv(Do(s, a), s.past.met || Meeting(Do(s, a)));
    }
  }

  lemma {:induction false} InvHolds(run: seq<Action>)
    ensures Inv(After(run))
  {
    if run == [] {
    } else {
      hide Inv, Apply;
      InvHolds(run[..|run| - 1]);
      StepKeepsInv(After(run[..|run| - 1]), run[|run| - 1]);
    }
  }

  // ---------- what every interleaving keeps ----------

  lemma AfterOneMore(run: seq<Action>, a: Action)
    ensures After(run + [a]) == Apply(After(run), a)
  {
  }

  /** At most one connect thread is alive, it is the one connect_thread_ refers to, none is when one is
      spawned, and no join is made twice unless a thread has failed to start. */
  lemma AtMostOneThread(run: seq<Action>)
    ensures var s := After(run);
            && (forall j: nat, k: nat :: Live(s, j) && Live(s, k) ==> j == k)
            && (forall k: nat :: Live(s, k) ==> s.crew.handle == Some(k))
            && (s.call.Spawn? ==> forall k: nat :: !Live(s, k))
            && (s.call.JoinOld? || s.call.ShutdownJoin? ==> s.crew.joined ==> s.past.spawnFailed)
  {
    hide After, FlagKnown, ClientKnown, ShutdownKnown, TeardownKnown, Headed, CrashKnown;
    InvHolds(run);
  }

  /** While every thread has started, `connecting` is only up while one is alive or pre_spin is between
      raising it and spawning; pre_spin itself never finds it up, so it never turns a call away. */
  lemma ConnectingMeansAlive(run: seq<Action>)
    ensures var s := After(run);
            && (s.connecting && !s.past.spawnFailed ==> s.call.JoinOld? || s.call.Spawn? || exists k: nat :: Live(s, k))
            && (s.call.TestFlag? ==> !s.connecting)
  {
    hide After, ClientKnown, ShutdownKnown, TeardownKnown, Headed, CrashKnown;
    InvHolds(run);
    CurrentIsLive(After(run));
  }

  lemma CurrentIsLive(s: State)
    requires OneThread(s.crew)
    ensures !Current(s.crew).Ended? <==> exists k: nat :: Live(s, k)
  {
    if !Current(s.crew).Ended? {
      assert Live(s, s.crew.handle.value);
    }
  }

  lemma BodyIsCurrent(s: State, k: nat, p: BodyPc)
    requires OneThread(s.crew) && ThreadAt(s, k, InBody(p))
    ensures Current(s.crew) == InBody(p) && s.crew.handle == Some(k)
  {
    assert Alive(s.crew, k);
  }

  /** Connect bodies never overlap, and until a body opens the client it stays closed, whatever the
      callbacks do meanwhile. */
  lemma ConnectBodiesAreExclusive(run: seq<Action>)
    ensures var s := After(run);
            && (forall j: nat, k: nat, p, q :: ThreadAt(s, j, InBody(p)) && ThreadAt(s, k, InBody(q)) ==> j == k)
            && (forall k: nat, p :: ThreadAt(s, k, InBody(p)) && p != Announce ==> !s.client.running)
  {
    InvHolds(run);
    var s := After(run);
    hide After, OneThread, Current, ThreadAt, FlagKnown, ShutdownKnown, TeardownKnown, Headed, CrashKnown;
    forall j: nat, k: nat, p, q | ThreadAt(s, j, InBody(p)) && ThreadAt(s, k, InBody(q)) ensures j == k {
      BodyIsCurrent(s, j, p);
      BodyIsCurrent(s, k, q);
    }
    forall k: nat, p | ThreadAt(s, k, InBody(p)) && p != Announce ensures !s.client.running {
      BodyIsCurrent(s, k, p);
    }
  }

  // ----- the io thread -----

  lemma BodyReplacesIoThread(call: CallPc, at: BodyPc, c: Client, plan: Plan)
    requires ClientKnown(call, InBody(at), c)
    ensures BodyStep(c, at, plan).1.Terminates? <==> at.StartThread? && plan.setup != ThreadFault && BeforeIoJoin(call)
    ensures at.BuildIo? ==> (c.thread == Running <==> BeforeIoJoin(call))
  {
  }

  lemma ThreadReplacesIoThread(s: State, k: nat, plan: Plan)
    requires Inv(s) && !s.crashed && k < |s.crew.threads|
    ensures ThreadNext(s, k, plan).crashed <==>
            ThreadAt(s, k, InBody(StartThread)) && plan.setup != ThreadFault && BeforeIoJoin(s.call)
    ensures ThreadNext(s, k, plan).crashed ==> s.past.ioLost
    ensures ThreadNext(s, k, plan).past.ioLost <==>
            s.past.ioLost || (ThreadAt(s, k, InBody(BuildIo)) && BeforeIoJoin(s.call))
  {
    hide OneThread, Current, ClientKnown, BodyStep, BeforeIoJoin, TallyKnown;
    match s.crew.threads[k] {
      case InBody(at) =>
        BodyIsCurrent(s, k, at);
        BodyReplacesIoThread(s.call, at, s.client, plan);
      case _ =>
    }
  }

  /** A connect body replaces an io thread that was never joined, which ends the process, exactly when it
      starts the new one while a callback's `close` has lowered `running` and not yet joined; and every
      such thread lost its io service before. */
  lemma IoThreadReplacedExactly(run: seq<Action>, k: nat, plan: Plan)
    requires !After(run).crashed
    ensures After(run + [ThreadStep(k, plan)]).crashed <==>
            ThreadAt(After(run), k, InBody(StartThread)) && plan.setup != ThreadFault && BeforeIoJoin(After(run).call)
    ensures After(run + [ThreadStep(k, plan)]).crashed ==> After(run).past.ioLost
  {
    InvHolds(run);
    AfterOneMore(run, ThreadStep(k, plan));
    hide After, Inv, Meeting, BeforeIoJoin, ThreadNext;
    if k < |After(run).crew.threads| {
      ThreadReplacesIoThread(After(run), k, plan);
    }
  }

  /** A connect body destroys the io service under a running io thread exactly when it builds the new one
      while a callback's `close` has lowered `running` and not yet joined. */
  lemma IoServiceLostExactly(run: seq<Action>, k: nat, plan: Plan)
    requires !After(run).crashed && !After(run).past.ioLost
    ensures After(run + [ThreadStep(k, plan)]).past.ioLost <==>
            ThreadAt(After(run), k, InBody(BuildIo)) && BeforeIoJoin(After(run).call)
  {
    InvHolds(run);
    AfterOneMore(run, ThreadStep(k, plan));
    hide After, Inv, Meeting, BeforeIoJoin, ThreadNext;
    if k < |After(run).crew.threads| {
      ThreadReplacesIoThread(After(run), k, plan);
    }
  }

  // ----- the io service and its listener -----

  lemma BodyOrphans(at: BodyPc, c: Client, plan: Plan)
    requires TallyKnown(InBody(at), c)
    ensures BodyStep(c, at, plan).0.tally.orphaned ==
            c.tally.orphaned + if at.BuildIo? && c.tally.bound > c.tally.orphaned then 1 else 0
  {
  }

  lemma CloseKeepsTally(c: Client, at: ClosePc)
    ensures CloseStep(c, at).0.tally == c.tally
  {
  }

  lemma CallKeepsTally(s: State, starts: bool)
    ensures CallNext(s, starts).client.tally == s.client.tally
  {
    hide FlagNext, JoinOldNext, SpawnNext, ShutdownJoinNext, CloseStep, CallAfterClosing, AtRisk;
    match s.call {
      case Closing(_, at) => CloseKeepsTally(s.client, at);
      case JoinOld => JoinOldFrame(s);
      case ShutdownJoin => ShutdownJoinFrame(s);
      case Spawn => SpawnFrame(s, starts);
      case _ => FlagFrame(s);
    }
  }

  lemma ThreadOrphans(s: State, k: nat, plan: Plan)
    requires Inv(s) && k < |s.crew.threads|
    ensures ThreadNext(s, k, plan).client.tally.orphaned == s.client.tally.orphaned +
            if ThreadAt(s, k, InBody(BuildIo)) && s.client.tally.bound > s.client.tally.orphaned then 1 else 0
  {
    hide OneThread, Current, ClientKnown, BodyStep, TallyKnown;
    match s.crew.threads[k] {
      case InBody(at) =>
        BodyIsCurrent(s, k, at);
        BodyOrphans(at, s.client, plan);
      case _ =>
    }
  }

  /** In every interleaving an io service is destroyed under a listener's socket exactly when a connect
      body builds a new one while some listener bound before was not yet orphaned; and outside that step
      all of them were, but for the listener that is there. */
  lemma ListenerOrphanedExactly(run: seq<Action>, a: Action)
    requires !After(run).crashed
    ensures var (s, r) := (After(run), After(run + [a]));
            r.client.tally.orphaned == s.client.tally.orphaned +
            if a.ThreadStep? && ThreadAt(s, a.k, InBody(BuildIo)) && s.client.tally.bound > s.client.tally.orphaned
            then 1 else 0
    ensures var s := After(run);
            (forall k: nat :: !ThreadAt(s, k, InBody(DropListener))) ==>
              s.client.tally.bound == s.client.tally.orphaned + if s.client.listener == NoListener then 0 else 1
  {
    InvHolds(run);
    AfterOneMore(run, a);
    var s := After(run);
    if Current(s.crew) == InBody(DropListener) {
      assert ThreadAt(s, s.crew.handle.value, InBody(DropListener));
    }
    hide After, OneThread, Current, ClientKnown, FlagKnown, ShutdownKnown, TeardownKnown, Headed, CrashKnown, LossKnown,
      Meeting, ThreadNext, CallNext;
    match a {
      case CallStep(starts) => CallKeepsTally(s, starts);
      case ThreadStep(k, plan) =>
        if k < |s.crew.threads| {
          ThreadOrphans(s, k, plan);
        }
      case _ =>
    }
  }

  lemma CallFaults(s: State, starts: bool)
    requires ClientKnown(s.call, Current(s.crew), s.client) && !s.crashed
    ensures CallNext(s, starts).crashed <==>
            s.call.Closing? && s.call.at.StopListener? && s.client.listener == NoListener
  {
  }

  /** `close` finds what it uses, io service and io thread included, but for the listener: it faults
      exactly when it would stop one that a connect body has dropped. */
  lemma CloseFaultsExactly(run: seq<Action>, starts: bool)
    requires !After(run).crashed
    ensures After(run + [CallStep(starts)]).crashed <==>
            After(run).call.Closing? && After(run).call.at.StopListener? && After(run).client.listener == NoListener
  {
    InvHolds(run);
    AfterOneMore(run, CallStep(starts));
    hide After, ClientKnown, Meeting, CallNext;
    CallFaults(After(run), starts);
  }

  // ----- threads that fail to start -----

  /** A thread fails to start while connect_thread_ still refers to the one before it. */
  predicate LosesThread(s: State, a: Action) {
    s.call.Spawn? && s.crew.handle.Some? && a == CallStep(false)
  }

  lemma JoinedMeansNoneAlive(w: Crew)
    requires OneThread(w) && w.joined
    ensures forall k: nat :: !Alive(w, k)
    ensures !JoinBlocked(w)
  {
  }

  lemma ThreadsOfStranded(s: State, k: nat, plan: Plan)
    requires OneThread(s.crew) && k < |s.crew.threads|
    ensures ThreadNext(s, k, plan).crew.joined == s.crew.joined && ThreadNext(s, k, plan).call == s.call
    ensures s.crew.joined ==> ThreadNext(s, k, plan) == s
  {
    hide BodyStep, OneThread;
    if s.crew.joined {
      JoinedMeansNoneAlive(s.crew);
      assert !Alive(s.crew, k);
    } else {
      match s.crew.threads[k] {
        case InBody(at) => assert ThreadNext(s, k, plan) == BodyNextState(s, k, at, plan);
        case _ =>
      }
    }
  }

  lemma JoinOldOfStranded(s: State)
    requires OneThread(s.crew) && s.call.JoinOld?
    ensures Stranded(JoinOldNext(s)) <==> Stranded(s)
    ensures Stranded(s) ==> JoinOldNext(s).crew == s.crew
  {
  }

  lemma ShutdownJoinOfStranded(s: State)
    requires OneThread(s.crew) && s.call.ShutdownJoin?
    ensures Stranded(ShutdownJoinNext(s)) <==> Stranded(s)
    ensures Stranded(s) ==> ShutdownJoinNext(s).crew == s.crew
  {
  }

  lemma SpawnOfStranded(s: State, starts: bool)
    requires OneThread(s.crew) && JoinKnown(s.call, s.crew, s.past.spawnFailed) && s.call.Spawn?
    ensures Stranded(SpawnNext(s, starts)) <==> LosesThread(s, CallStep(starts))
  {
  }

  lemma CallOfStranded(s: State, starts: bool)
    requires OneThread(s.crew) && JoinKnown(s.call, s.crew, s.past.spawnFailed)
    ensures var r := CallNext(s, starts);
            && (Stranded(r) <==> Stranded(s) || LosesThread(s, CallStep(starts)))
            && (Stranded(s) ==> r.crew == s.crew && (r.client.running ==> s.client.running))
  {
    hide OneThread, JoinKnown, CloseStep, CallAfterClosing, CallAfterFlagStep, AtRisk, FlagNext, JoinOldNext,
      ShutdownJoinNext, SpawnNext;
    match s.call {
      case Closing(who, at) =>
        CloseCallKnown(who, at, CloseStep(s.client, at).1);
        CloseNeverOpens(s.client, at);
      case JoinOld =>
        JoinOldOfStranded(s);
        JoinOldFrame(s);
      case ShutdownJoin =>
        ShutdownJoinOfStranded(s);
        ShutdownJoinFrame(s);
      case Spawn => SpawnOfStranded(s, starts);
      case _ =>
        FlagFrame(s);
        FlagStepNeverSpawns(s.call, s.radioError, s.connecting, s.client.running);
    }
  }

  lemma CloseNeverOpens(c: Client, at: ClosePc)
    ensures CloseStep(c, at).0.running ==> c.running
  {
  }

  lemma FlagStepNeverSpawns(call: CallPc, radioError: bool, connecting: bool, running: bool)
    requires !call.Spawn?
    ensures !CallAfterFlagStep(call, radioError, connecting, running).Spawn?
  {
  }

  lemma StrandedStep(s: State, a: Action)
    requires Inv(s)
    ensures Stranded(Apply(s, a)) <==> Stranded(s) || LosesThread(s, a)
    ensures Stranded(s) ==> Apply(s, a).crew == s.crew && (Apply(s, a).client.running ==> s.client.running)
  {
    hide CallNext, ThreadNext, OneThread, ClientKnown, FlagKnown, ShutdownKnown, TeardownKnown, Headed, Meeting;
    if s.crashed {
      CrashedIsNotSpawning(s);
    } else {
      match a {
        case CallStep(starts) => CallOfStranded(s, starts);
        case ThreadStep(k, plan) =>
          if k < |s.crew.threads| {
            ThreadsOfStranded(s, k, plan);
          }
        case _ =>
      }
    }
  }

  lemma CrashedIsNotSpawning(s: State)
    requires Inv(s) && s.crashed
    ensures !s.call.Spawn?
  {
  }

  lemma StrandedAgain(run: seq<Action>)
    requires run != []
    ensures var before := After(run[..|run| - 1]);
            && (Stranded(After(run)) <==> Stranded(before) || LosesThread(before, run[|run| - 1]))
            && (Stranded(before) ==> After(run).crew == before.crew)
            && (Stranded(before) && After(run).client.running ==> before.client.running)
  {
    InvHolds(run[..|run| - 1]);
    hide Inv, Apply, Stranded, LosesThread;
    StrandedStep(After(run[..|run| - 1]), run[|run| - 1]);
  }

  /** connect_thread_ is left at a joined thread, so that the next join of it throws, exactly when some
      thread failed to start while connect_thread_ still referred to an earlier one; the very first
      thread's failure is harmless. */
  lemma {:induction false} StrandedExactly(run: seq<Action>)
    ensures Stranded(After(run)) <==> exists i :: 0 <= i < |run| && LosesThread(After(run[..i]), run[i])
  {
    hide After, Stranded, LosesThread;
    if run == [] {
      AfterNothing();
      assert !Stranded(START) by { StartIsNotStranded(); }
    } else {
      var n := |run| - 1;
      StrandedExactly(run[..n]);
      StrandedAgain(run);
      assert forall i :: 0 <= i < n ==> run[..n][..i] == run[..i] && run[..n][i] == run[i];
    }
  }

  lemma AfterNothing()
    ensures After([]) == START
  {
  }

  lemma StartIsNotStranded()
    ensures !Stranded(START)
  {
  }

  /** From then on no connect thread is ever started again, and once closed the client stays closed. */
  lemma {:induction false} StrandedForever(run: seq<Action>, more: seq<Action>)
    requires Stranded(After(run))
    ensures Stranded(After(run + more)) && After(run + more).crew == After(run).crew
    ensures After(run + more).client.running ==> After(run).client.running
  {
    hide After, Stranded, LosesThread;
    if more == [] {
      assert run + more == run;
    } else {
      var n := |more| - 1;
      StrandedForever(run, more[..n]);
      StrandedAgain(run + more);
      assert (run + more)[..|run + more| - 1] == run + more[..n];
    }
  }

  // ----- shutdown -----

  /** A shutdown that finished leaves no connect thread and a closed client, until the next callback. */
  lemma ShutdownOutcome(run: seq<Action>)
    requires After(run).call.Down?
    ensures var s := After(run);
            !s.client.running && s.client.thread != Running && s.crew.handle.None? && forall k: nat :: !Live(s, k)
  {
    hide After, FlagKnown, TeardownKnown, Headed, CrashKnown;
    InvHolds(run);
    NoneAlive(After(run).crew);
  }

  lemma ShutdownJoinLeads(s: State, starts: bool)
    requires s.call.ShutdownJoin? && !s.crashed && !JoinBlocked(s.crew)
    ensures var r := Apply(s, CallStep(starts));
            && (r.call == NoCall <==> Stranded(s)) && (r.call == Closing(ByShutdown, TestRunning) <==> !Stranded(s))
            && r.client == s.client
  {
  }

  /** Once its thread has ended, shutdown goes on to close the client exactly when no connect thread has
      ever failed to start while connect_thread_ referred to an earlier one. Otherwise it leaves at its
      join, and the client stays as it is. */
  lemma ShutdownThrowsExactly(run: seq<Action>, starts: bool)
    requires After(run).call.ShutdownJoin? && !After(run).crashed && !JoinBlocked(After(run).crew)
    ensures var (s, r) := (After(run), After(run + [CallStep(starts)]));
            && (r.call == NoCall <==> exists i :: 0 <= i < |run| && LosesThread(After(run[..i]), run[i]))
            && (r.call == Closing(ByShutdown, TestRunning) <==>
                forall i :: 0 <= i < |run| ==> !LosesThread(After(run[..i]), run[i]))
            && r.client == s.client
  {
    hide After, Apply, Stranded, LosesThread, JoinBlocked;
    StrandedExactly(run);
    AfterOneMore(run, CallStep(starts));
    ShutdownJoinLeads(After(run), starts);
  }

  // ---------- callbacks return ----------

  /** How many more steps the running callback and the connect thread can take at most. */
  function StepsLeft(s: State): nat {
    if s.crashed then 0 else ThreadSteps(Current(s.crew)) + CallSteps(s.call)
  }

  function ThreadSteps(pc: ThreadPc): nat {
    match pc
    case Begun => 12
    case InBody(at) => 1 + BodyRank(at)
    case Leaving => 1
    case Ended => 0
  }

  function CallSteps(c: CallPc): nat {
    match c
    case NoCall => 0
    case Down => 0
    case ShutdownJoin => 9
    case Spawn => 13
    case JoinOld => 14
    case SetFlag => 15
    case TestConnected => 16
    case TestFlag => 17
    case ErrorClear => 18
    case TestError => 27
    case ReconnectClearFlag => 28
    case ReconnectClearError => 29
    case Closing(who, at) => CloseRank(at) + match who case ByReconnect => 29 case ByError => 18 case ByShutdown => 0
  }

  /** A step of the callback or of a thread that does something. */
  predicate Effective(s: State, a: Action) {
    (a.CallStep? || a.ThreadStep?) && !s.crashed && Do(s, a) != s
  }

  /** Neither callback nor thread has anything left to do. */
  ghost predicate Settled(s: State) {
    forall a :: !Effective(s, a)
  }

  lemma BodyCountsDown(c: Client, at: BodyPc, plan: Plan)
    ensures var next := BodyStep(c, at, plan).1;
            0 < BodyRank(at) && (next.GoesTo? ==> BodyRank(next.at) < BodyRank(at))
  {
  }

  lemma CloseCountsDown(c: Client, who: Closer, at: ClosePc)
    ensures var next := CloseStep(c, at).1;
            && (next.Faults? || CallSteps(CallAfterClosing(who, at, next)) < CallSteps(Closing(who, at)))
            && (next.MovesTo? ==> CloseRank(next.at) < CloseRank(at))
  {
  }

  lemma ThreadStepCounts(s: State, k: nat, plan: Plan)
    requires OneThread(s.crew) && k < |s.crew.threads| && !s.crashed && Alive(s.crew, k)
    ensures StepsLeft(ThreadNext(s, k, plan)) < StepsLeft(s)
  {
  }

  /** The callback is inside a join or `close`, or can go on. */
  lemma CallStepCounts(s: State, starts: bool)
    requires OneThread(s.crew) && JoinKnown(s.call, s.crew, s.past.spawnFailed)
    requires !s.crashed && CallNext(s, starts) != s
    ensures StepsLeft(CallNext(s, starts)) < StepsLeft(s)
  {
    hide BodyRank, CloseRank;
    match s.call {
      case Closing(who, at) => CloseStepCounts(s, who, at);
      case JoinOld => JoinCounts(s);
      case ShutdownJoin => ShutdownJoinCounts(s);
      case Spawn => SpawnCounts(s, starts);
      case NoCall => IdleFlagStep(s);
      case Down => IdleFlagStep(s);
      case _ => FlagCounts(s);
    }
  }

  lemma CloseStepCounts(s: State, who: Closer, at: ClosePc)
    requires s.call == Closing(who, at) && !s.crashed
    ensures StepsLeft(CloseNextState(s, who, at)) < StepsLeft(s)
  {
  }

  lemma FlagCounts(s: State)
    requires !s.call.Closing? && !s.call.JoinOld? && !s.call.Spawn? && !s.call.ShutdownJoin?
    requires !s.call.NoCall? && !s.call.Down?
    requires !s.crashed
    ensures StepsLeft(FlagNext(s)) < StepsLeft(s)
  {
  }

  lemma IdleFlagStep(s: State)
    requires s.call.NoCall? || s.call.Down?
    ensures FlagNext(s) == s
  {
  }

  lemma JoinCounts(s: State)
    requires OneThread(s.crew) && s.call.JoinOld? && !s.crashed && JoinOldNext(s) != s
    ensures StepsLeft(JoinOldNext(s)) < StepsLeft(s)
  {
  }

  lemma ShutdownJoinCounts(s: State)
    requires OneThread(s.crew) && s.call.ShutdownJoin? && !s.crashed && ShutdownJoinNext(s) != s
    ensures StepsLeft(ShutdownJoinNext(s)) < StepsLeft(s)
  {
  }

  lemma SpawnCounts(s: State, starts: bool)
    requires OneThread(s.crew) && JoinKnown(s.call, s.crew, s.past.spawnFailed) && s.call.Spawn? && !s.crashed
    ensures StepsLeft(SpawnNext(s, starts)) < StepsLeft(s)
  {
  }

  lemma SettledMeansDone(s: State)
    requires Inv(s) && Settled(s) && !s.crashed
    ensures Idling(s) && forall k: nat :: !Live(s, k)
  {
    forall k: nat ensures !Live(s, k) {
      if Live(s, k) {
        assert !Effective(s, ThreadStep(k, ALL_UP));
        ThreadStepCounts(s, k, ALL_UP);
      }
    }
    assert !Effective(s, CallStep(true));
    hide Inv, Effective;
    if !s.call.NoCall? && !s.call.Down? {
      CallStepMoves(s);
    }
  }

  lemma CallStepMoves(s: State)
    requires !s.call.NoCall? && !s.call.Down? && !s.crashed && forall k: nat :: !Live(s, k)
    ensures CallNext(s, true) != s
  {
    hide CloseNextState, FlagNext, StepsLeft;
    assert JoinBlocked(s.crew) ==> Live(s, s.crew.handle.value);
    match s.call {
      case Closing(who, at) => CloseStepCounts(s, who, at);
      case JoinOld =>
      case ShutdownJoin =>
      case Spawn =>
      case _ => FlagCounts(s);
    }
  }

  lemma EffectiveStepCounts(s: State, a: Action)
    requires Inv(s) && Effective(s, a)
    ensures StepsLeft(Do(s, a)) < StepsLeft(s)
  {
    hide CallNext, ThreadNext, StepsLeft, OneThread, JoinKnown, FlagKnown, ClientKnown, ShutdownKnown, TeardownKnown,
      Headed;
    match a {
      case CallStep(starts) => CallStepCounts(s, starts);
      case ThreadStep(k, plan) =>
        if !Alive(s.crew, k) {
          EndedStaysPut(s, k, plan);
        }
        ThreadStepCounts(s, k, plan);
    }
  }

  lemma EndedStaysPut(s: State, k: nat, plan: Plan)
    requires k < |s.crew.threads| && !Alive(s.crew, k)
    ensures ThreadNext(s, k, plan) == s
  {
  }

  lemma NoteKeepsSteps(r: State, met: bool)
    ensures StepsLeft(r.(past := r.past.(met := met))) == StepsLeft(r)
  {
  }

  /** No callback hangs: every effective step uses up one of at most 49, error reports use up none, and
      when no step has an effect any more the callback has returned and no thread is alive, unless the
      process has crashed. */
  lemma NoCallbackHangs(run: seq<Action>, a: Action)
    ensures StepsLeft(After(run)) <= 49
    ensures Effective(After(run), a) ==> StepsLeft(After(run + [a])) < StepsLeft(After(run))
    ensures a.ErrorChanges? ==> StepsLeft(After(run + [a])) == StepsLeft(After(run))
    ensures Settled(After(run)) && !After(run).crashed ==> Idling(After(run)) && forall k: nat :: !Live(After(run), k)
  {
    hide After, Do, Inv, StepsLeft, Settled, Idling, Live;
    var s := After(run);
    InvHolds(run);
    AfterOneMore(run, a);
    StepsBound(s);
    if Effective(s, a) {
      EffectiveStepCounts(s, a);
    }
    NoteKeepsSteps(Do(s, a), s.past.met || Meeting(Do(s, a)));
    if a.ErrorChanges? {
      ErrorKeepsSteps(s, a.b);
    }
    if Settled(s) && !s.crashed {
      SettledMeansDone(s);
    }
  }

  lemma StepsBound(s: State)
    ensures StepsLeft(s) <= 49
  {
  }

  lemma ErrorKeepsSteps(s: State, b: bool)
    ensures StepsLeft(Do(s, ErrorChanges(b))) == StepsLeft(s)
  {
  }
}
