/** What reconnecting comes to: runs in which `close` and a connect body never overlap leave a sound
    client; when they can overlap; and what becomes of the process then. */
module ReconnectRuns {
  import opened Bytes
  import opened UdpRadioClients
  import opened ConnectProtocol

  // ---------- runs without a meeting ----------

  /** The client is sound, but for what the connect body or the teardown under way has yet to do. */
  ghost predicate SoundSoFar(call: CallPc, cur: ThreadPc, c: Client) {
    if cur.InBody? then Built(c, cur.at)
    else if Tearing(call) then Torn(c, call.at)
    else Sound(c)
  }

  ghost predicate Apart(call: CallPc, cur: ThreadPc) {
    !Tearing(call) || !cur.InBody?
  }

  ghost predicate Undisturbed(s: State) {
    !s.crashed && !s.past.ioLost && SoundSoFar(s.call, Current(s.crew), s.client)
  }

  lemma ApartMeansNoMeeting(s: State)
    requires OneThread(s.crew)
    ensures Meeting(s) <==> !Apart(s.call, Current(s.crew))
  {
    if Meeting(s) {
      var k :| 0 <= k < |s.crew.threads| && s.crew.threads[k].InBody?;
      BodyIsCurrent(s, k, s.crew.threads[k].at);
    }
  }

  lemma CloseStaysSound(who: Closer, at: ClosePc, cur: ThreadPc, c: Client)
    requires ClientKnown(Closing(who, at), cur, c) && SoundSoFar(Closing(who, at), cur, c)
    requires Apart(Closing(who, at), cur)
    ensures var (d, next) := CloseStep(c, at);
            && !next.Faults?
            && (Apart(CallAfterClosing(who, at, next), cur) ==> SoundSoFar(CallAfterClosing(who, at, next), cur, d))
  {
  }

  lemma OutsideStaysSound(call: CallPc, next: CallPc, cur: ThreadPc, c: Client)
    requires !call.Closing? && (next.Closing? ==> next.at.TestRunning?)
    ensures SoundSoFar(call, cur, c) ==> SoundSoFar(next, cur, c)
    ensures SoundSoFar(call, Ended, c) ==> SoundSoFar(next, Begun, c)
  {
  }

  lemma BodyStaysSound(call: CallPc, at: BodyPc, c: Client, plan: Plan)
    requires Built(c, at) && !Tearing(call)
    ensures var (d, next) := BodyStep(c, at, plan);
            match next
            case GoesTo(to) => SoundSoFar(call, InBody(to), d)
            case Terminates => false
            case _ => SoundSoFar(call, Leaving, d)
    ensures at == BuildIo ==> c.thread != Running
  {
  }

  lemma CallStaysSound(s: State, starts: bool)
    requires Inv(s) && Undisturbed(s) && Apart(s.call, Current(s.crew))
    ensures var r := CallNext(s, starts);
            Apart(r.call, Current(r.crew)) ==> Undisturbed(r)
  {
    hide OneThread, JoinKnown, FlagKnown, ClientKnown, ShutdownKnown, TeardownKnown, Headed, CrashKnown, SoundSoFar,
      Apart, CloseStep, CallAfterClosing, FlagNext, JoinOldNext, ShutdownJoinNext, SpawnNext, AtRisk, Current;
    match s.call {
      case Closing(who, at) => CloseStaysSound(who, at, Current(s.crew), s.client);
      case JoinOld =>
        JoinOldCrew(s);
        JoinOldFrame(s);
        OutsideStaysSound(s.call, JoinOldNext(s).call, Current(s.crew), s.client);
      case ShutdownJoin =>
        ShutdownJoinCrew(s);
        ShutdownJoinFrame(s);
        OutsideStaysSound(s.call, ShutdownJoinNext(s).call, Current(s.crew), s.client);
      case Spawn =>
        SpawnCrew(s, starts);
        SpawnFrame(s, starts);
        OutsideStaysSound(s.call, NoCall, Current(s.crew), s.client);
      case _ =>
        FlagFrame(s);
        FlagStepEntersClose(s.call, s.radioError, s.connecting, s.client.running);
        OutsideStaysSound(s.call, FlagNext(s).call, Current(s.crew), s.client);
    }
  }

  lemma JoinOldCrew(s: State)
    requires OneThread(s.crew)
    ensures Current(JoinOldNext(s).crew) == Current(s.crew)
    ensures s.call.JoinOld? ==> !JoinOldNext(s).call.Closing?
  {
  }

  lemma ShutdownJoinCrew(s: State)
    requires OneThread(s.crew)
    ensures Current(ShutdownJoinNext(s).crew) == Current(s.crew)
    ensures s.call.ShutdownJoin? && ShutdownJoinNext(s).call.Closing? ==> ShutdownJoinNext(s).call.at.TestRunning?
  {
  }

  lemma SpawnCrew(s: State, starts: bool)
    requires OneThread(s.crew) && JoinKnown(s.call, s.crew, s.past.spawnFailed) && s.call.Spawn?
    ensures Current(s.crew) == Ended && Current(SpawnNext(s, starts).crew) == if starts then Begun else Ended
    ensures SpawnNext(s, starts).call == NoCall
  {
  }

  lemma FlagStepEntersClose(call: CallPc, radioError: bool, connecting: bool, running: bool)
    requires !call.Closing?
    ensures var next := CallAfterFlagStep(call, radioError, connecting, running);
            next.Closing? ==> next.at.TestRunning?
  {
  }

  lemma ThreadStaysSound(s: State, k: nat, plan: Plan)
    requires Inv(s) && Undisturbed(s) && Apart(s.call, Current(s.crew)) && k < |s.crew.threads|
    ensures var r := ThreadNext(s, k, plan);
            Apart(r.call, Current(r.crew)) ==> Undisturbed(r)
  {
    if Alive(s.crew, k) {
      Moves(s.crew, k, ThreadNext(s, k, plan).crew.threads[k]);
      hide OneThread, JoinKnown, FlagKnown, ClientKnown, ShutdownKnown, TeardownKnown, Headed, CrashKnown, Current,
        Moved, BodyStep;
      match s.crew.threads[k] {
        case InBody(at) => BodyStaysSound(s.call, at, s.client, plan);
        case _ => hide Sound;
      }
    } else {
      EndedStaysPut(s, k, plan);
    }
  }

  lemma UndisturbedStep(s: State, a: Action)
    requires Inv(s) && Undisturbed(s) && !Meeting(s) && !Meeting(Do(s, a))
    ensures Undisturbed(Do(s, a))
  {
    ApartMeansNoMeeting(s);
    DoKeepsInv(s, a);
    ApartMeansNoMeeting(Do(s, a));
    hide CallNext, ThreadNext, Inv, SoundSoFar, Meeting, Apart;
    match a {
      case CallStep(starts) => CallStaysSound(s, starts);
      case ThreadStep(k, plan) =>
        if k < |s.crew.threads| {
          ThreadStaysSound(s, k, plan);
        }
      case CallReconnect =>
        if Idling(s) {
          OutsideStaysSound(s.call, ReconnectStart(s).call, Current(s.crew), s.client);
        }
      case CallShutdown =>
        if Idling(s) {
          OutsideStaysSound(s.call, ShutdownJoin, Current(s.crew), s.client);
        }
      case ErrorChanges(_) =>
    }
  }

  lemma {:induction false} MeetingFreeRuns(run: seq<Action>)
    requires !After(run).past.met
    ensures Undisturbed(After(run)) && !Meeting(After(run))
  {
    if run == [] {
      assert Sound(FRESH);
    } else {
      var n := |run| - 1;
      var s, a := After(run[..n]), run[n];
      InvHolds(run[..n]);
      MetStays(s, a);
      MeetingFreeRuns(run[..n]);
      hide After, Inv, Do, Meeting, SoundSoFar;
      UndisturbedStep(s, a);
      NoteChangesNothing(Do(s, a), false);
    }
  }

  /** Whether they have met is remembered. */
  lemma MetStays(s: State, a: Action)
    ensures Apply(s, a).past.met <==> s.past.met || (!s.crashed && Meeting(Do(s, a)))
    ensures !s.crashed ==> Apply(s, a) == Do(s, a).(past := Do(s, a).past.(met := Apply(s, a).past.met))
  {
  }

  lemma NoteChangesNothing(r: State, met: bool)
    ensures Undisturbed(r.(past := r.past.(met := met))) == Undisturbed(r)
    ensures Meeting(r.(past := r.past.(met := met))) == Meeting(r)
  {
  }

  /** As long as no teardown has met a connect body, the process has not crashed and no io service is
      lost; every body begins on a sound closed client; and whenever neither a body nor a teardown is
      under way the client is sound. */
  lemma UndisturbedRunsAreSound(run: seq<Action>)
    requires !After(run).past.met
    ensures var s := After(run);
            && !s.crashed && !s.past.ioLost
            && (forall k: nat :: ThreadAt(s, k, InBody(Resolving)) ==> Sound(s.client) && !s.client.running)
            && ((forall k: nat, p :: !ThreadAt(s, k, InBody(p))) && !Tearing(s.call) ==> Sound(s.client))
  {
    InvHolds(run);
    MeetingFreeRuns(run);
    hide After, Sound, ClientKnown, FlagKnown, ShutdownKnown, TeardownKnown, Headed, CrashKnown;
    var s := After(run);
    forall k: nat | ThreadAt(s, k, InBody(Resolving)) ensures Built(s.client, Resolving) {
      BodyIsCurrent(s, k, Resolving);
    }
    if Current(s.crew).InBody? {
      assert ThreadAt(s, s.crew.handle.value, InBody(Current(s.crew).at));
    }
  }

  // ---------- runs that never meet ----------

  /** Every reconnect call is made while `connecting` is down. */
  ghost predicate Polite(run: seq<Action>) {
    forall i :: 0 <= i < |run| && run[i].CallReconnect? && Idling(After(run[..i])) ==> !After(run[..i]).connecting
  }

  /** While a thread is alive the flag is up and no callback but a shutdown waiting for it has begun. */
  ghost predicate Orderly(call: CallPc, cur: ThreadPc, connecting: bool) {
    && (!cur.Ended? ==> connecting && (call.NoCall? || call.ShutdownJoin?))
    && (call.JoinOld? || call.Spawn? ==> connecting)
  }

  lemma OrderlyThreadStep(s: State, k: nat, plan: Plan)
    requires Inv(s) && Orderly(s.call, Current(s.crew), s.connecting) && k < |s.crew.threads|
    ensures var r := ThreadNext(s, k, plan);
            Orderly(r.call, Current(r.crew), r.connecting)
  {
    if Alive(s.crew, k) {
      Moves(s.crew, k, ThreadNext(s, k, plan).crew.threads[k]);
      hide OneThread, JoinKnown, FlagKnown, ClientKnown, ShutdownKnown, TeardownKnown, Headed, CrashKnown, Current,
        Moved, BodyStep;
    } else {
      EndedStaysPut(s, k, plan);
    }
  }

  lemma OrderlyCallStep(s: State, starts: bool)
    requires Inv(s) && Orderly(s.call, Current(s.crew), s.connecting)
    ensures var r := CallNext(s, starts);
            Orderly(r.call, Current(r.crew), r.connecting)
  {
    hide OneThread, FlagKnown, ClientKnown, ShutdownKnown, TeardownKnown, Headed, CrashKnown,
      CloseStep, CallAfterClosing, AtRisk, Current, JoinBlocked, CallAfterFlagStep;
    match s.call {
      case Closing(who, at) => CloseCallIsPlain(who, at, CloseStep(s.client, at).1);
      case JoinOld => JoinOldCrew(s);
      case ShutdownJoin =>
        ShutdownJoinCrew(s);
        if !JoinBlocked(s.crew) {
          NoneAlive(s.crew);
        }
      case Spawn => SpawnCrew(s, starts);
      case _ => OrderlyFlagStep(s.call, Current(s.crew), s.radioError, s.connecting, s.client.running);
    }
  }

  lemma CloseCallIsPlain(who: Closer, at: ClosePc, next: CloseNext)
    ensures var call := CallAfterClosing(who, at, next);
            !call.Spawn? && !call.JoinOld?
  {
  }

  lemma OrderlyFlagStep(call: CallPc, cur: ThreadPc, radioError: bool, connecting: bool, running: bool)
    requires !call.Closing? && !call.JoinOld? && !call.Spawn? && !call.ShutdownJoin?
    requires Orderly(call, cur, connecting)
    ensures Orderly(CallAfterFlagStep(call, radioError, connecting, running), cur,
                    (connecting && !call.ReconnectClearFlag?) || call.SetFlag?)
  {
  }

  lemma OrderlyStep(s: State, a: Action)
    requires Inv(s) && Orderly(s.call, Current(s.crew), s.connecting)
    requires a.CallReconnect? && Idling(s) ==> !s.connecting
    ensures var r := Do(s, a);
            Orderly(r.call, Current(r.crew), r.connecting)
  {
    hide CallNext, ThreadNext, Inv, Current;
    match a {
      case CallStep(starts) => OrderlyCallStep(s, starts);
      case ThreadStep(k, plan) =>
        if k < |s.crew.threads| {
          OrderlyThreadStep(s, k, plan);
        }
      case _ =>
    }
  }

  /** When every reconnect call is made while `connecting` is down, no teardown ever meets a connect
      body, so everything said of undisturbed runs holds. */
  lemma {:induction false} PoliteRunsNeverMeet(run: seq<Action>)
    requires Polite(run)
    ensures !After(run).past.met
    ensures Orderly(After(run).call, Current(After(run).crew), After(run).connecting)
  {
    if run == [] {
    } else {
      var n := |run| - 1;
      var s, a := After(run[..n]), run[n];
      PoliteBefore(run);
      InvHolds(run[..n]);
      PoliteRunsNeverMeet(run[..n]);
      MetStays(s, a);
      if !s.crashed {
        DoKeepsInv(s, a);
        hide After, Do, Current, Meeting, ClientKnown, OneThread, FlagKnown, ShutdownKnown, TeardownKnown, Headed,
          CrashKnown;
        OrderlyStep(s, a);
        ApartMeansNoMeeting(Do(s, a));
      }
    }
  }

  lemma PoliteBefore(run: seq<Action>)
    requires Polite(run) && run != []
    ensures var n := |run| - 1;
            && Polite(run[..n])
            && (run[n].CallReconnect? && Idling(After(run[..n])) ==> !After(run[..n]).connecting)
  {
    hide After, Idling;
    var n := |run| - 1;
    forall i | 0 <= i < n && run[..n][i].CallReconnect? && Idling(After(run[..n][..i]))
      ensures !After(run[..n][..i]).connecting
    {
      assert run[..n][..i] == run[..i];
    }
  }

  // ---------- what a reconnect call comes to ----------

  /** Once a reconnect call has returned and no thread is alive, the client is running and sound, unless
      an attempt failed after the call began or a teardown met a connect body. */
  lemma ReconnectOutcome(run: seq<Action>)
    ensures var s := After(run);
            s.call.NoCall? && !s.past.attemptFailed && !s.past.met && (forall k: nat :: !Live(s, k)) ==>
              s.client.running && Sound(s.client)
  {
    var s := After(run);
    InvHolds(run);
    CurrentIsLive(s);
    if !s.past.met {
      MeetingFreeRuns(run);
    }
    hide After, Sound, ClientKnown, FlagKnown, ShutdownKnown, TeardownKnown, CrashKnown, OneThread, Live, Meeting;
  }

  /** No shutdown is called, every thread starts and every library call succeeds. */
  predicate Benign(a: Action) {
    !a.CallShutdown? && (a.CallStep? ==> a.starts) && (a.ThreadStep? ==> a.plan == ALL_UP)
  }

  /** On the way to a connected client. */
  ghost predicate OnTheWay(s: State) {
    && !s.call.ShutdownJoin? && !s.call.Down? && (s.call.Closing? ==> !s.call.who.ByShutdown?)
    && !s.past.attemptFailed && !Stranded(s)
  }

  lemma BenignCallStep(s: State)
    requires OnTheWay(s)
    ensures OnTheWay(CallNext(s, true))
  {
  }

  lemma BenignThreadStep(s: State, k: nat)
    requires OnTheWay(s) && k < |s.crew.threads|
    ensures OnTheWay(ThreadNext(s, k, ALL_UP))
  {
  }

  lemma BenignStep(s: State, a: Action)
    requires OnTheWay(s) && Benign(a)
    ensures OnTheWay(Apply(s, a))
  {
    hide CallNext, ThreadNext, Meeting;
    match a {
      case CallStep(_) => BenignCallStep(s);
      case ThreadStep(k, _) =>
        if k < |s.crew.threads| {
          BenignThreadStep(s, k);
        }
      case _ =>
    }
  }

  lemma {:induction false} BenignSteps(run: seq<Action>, more: seq<Action>)
    requires OnTheWay(After(run)) && forall a :: a in more ==> Benign(a)
    ensures OnTheWay(After(run + more))
  {
    hide Apply, OnTheWay, Benign, After;
    if more == [] {
      assert run + more == run;
    } else {
      var n := |more| - 1;
      BenignSteps(run, more[..n]);
      BenignStep(After(run + more[..n]), more[n]);
      AfterOneMore(run + more[..n], more[n]);
      assert run + more == run + more[..n] + [more[n]];
    }
  }

  lemma ReconnectStarts(run: seq<Action>)
    requires Idling(After(run))
    ensures var s := After(run + [CallReconnect]);
            && s.call == Closing(ByReconnect, TestRunning) && !s.past.attemptFailed && s.crew == After(run).crew
            && !s.crashed && s.past.met == After(run).past.met
  {
  }

  /** The node is stranded, and the client closed or about to be. */
  ghost predicate ClosedForGood(s: State) {
    Stranded(s) && (s.client.running ==> s.call.Closing? && (s.call.at.TestRunning? || s.call.at.LowerRunning?))
  }

  lemma ClosedCallStep(s: State, starts: bool)
    requires ClosedForGood(s) && OneThread(s.crew) && JoinKnown(s.call, s.crew, s.past.spawnFailed)
    ensures ClosedForGood(CallNext(s, starts))
  {
  }

  lemma ClosedStep(s: State, a: Action)
    requires ClosedForGood(s) && Inv(s)
    ensures ClosedForGood(Apply(s, a))
  {
    hide CallNext, ThreadNext, Meeting, OneThread, FlagKnown, ClientKnown, ShutdownKnown, TeardownKnown, Headed,
      CrashKnown;
    if !s.crashed {
      match a {
        case CallStep(starts) => ClosedCallStep(s, starts);
        case ThreadStep(k, plan) =>
          if k < |s.crew.threads| {
            ThreadsOfStranded(s, k, plan);
          }
        case _ =>
      }
    }
  }

  lemma {:induction false} ClosedSteps(run: seq<Action>, more: seq<Action>)
    requires ClosedForGood(After(run))
    ensures ClosedForGood(After(run + more))
  {
    hide Apply, ClosedForGood, After, Inv;
    if more == [] {
      assert run + more == run;
    } else {
      var n := |more| - 1;
      ClosedSteps(run, more[..n]);
      InvHolds(run + more[..n]);
      ClosedStep(After(run + more[..n]), more[n]);
      AfterOneMore(run + more[..n], more[n]);
      assert run + more == run + more[..n] + [more[n]];
    }
  }

  /** After any run, however an earlier connect thread stands: once nothing is left to do and nothing has
      failed since a reconnect call, and no teardown has met a connect body, the client is running and
      sound, exactly when the call did not find the node stranded. */
  lemma ReconnectBringsUpExactly(run: seq<Action>, more: seq<Action>)
    requires Idling(After(run)) && forall a :: a in more ==> Benign(a)
    requires Settled(After(run + [CallReconnect] + more)) && !After(run + [CallReconnect] + more).past.met
    ensures var s := After(run + [CallReconnect] + more);
            s.client.running && Sound(s.client) <==> !Stranded(After(run))
  {
    var all := run + [CallReconnect] + more;
    ReconnectStarts(run);
    InvHolds(all);
    MeetingFreeRuns(all);
    hide After, Inv, Settled, Sound, Live, Meeting, SoundSoFar;
    SettledMeansDone(After(all));
    if Stranded(After(run)) {
      ClosedSteps(run + [CallReconnect], more);
    } else {
      BenignSteps(run + [CallReconnect], more);
      ReconnectOutcome(all);
    }
  }

  // ----- what such an end costs -----

  /** More than `n` io services have been destroyed under a listener; or not yet, and the listener is still
      there, the client closed or about to be, and no body has got as far as building a new io service. */
  ghost predicate OrphansFirst(call: CallPc, cur: ThreadPc, c: Client, n: nat) {
    || c.tally.orphaned > n
    || (&& c.tally.orphaned == n && c.tally.bound > n
        && (c.running ==> call.Closing? && (call.at.TestRunning? || call.at.LowerRunning?))
        && (cur.InBody? ==> cur.at.Resolving? || cur.at.BuildIo? || cur.at.Announce?))
  }

  lemma BodyOrphansFirst(call: CallPc, at: BodyPc, c: Client, plan: Plan, n: nat)
    requires TallyKnown(InBody(at), c) && OrphansFirst(call, InBody(at), c, n)
    ensures var (d, next) := BodyStep(c, at, plan);
            OrphansFirst(call, match next
                               case GoesTo(to) => InBody(to)
                               case Terminates => InBody(at)
                               case _ => Leaving, d, n)
  {
  }

  lemma ThreadOrphansFirst(s: State, k: nat, plan: Plan, n: nat)
    requires Inv(s) && k < |s.crew.threads| && OrphansFirst(s.call, Current(s.crew), s.client, n)
    ensures var r := ThreadNext(s, k, plan);
            OrphansFirst(r.call, Current(r.crew), r.client, n)
  {
    if Alive(s.crew, k) {
      Moves(s.crew, k, ThreadNext(s, k, plan).crew.threads[k]);
      hide OneThread, JoinKnown, FlagKnown, ClientKnown, ShutdownKnown, TeardownKnown, Headed, CrashKnown, LossKnown,
        TallyKnown, Current, Moved, BodyStep;
      match s.crew.threads[k] {
        case InBody(at) => BodyOrphansFirst(s.call, at, s.client, plan, n);
        case _ =>
      }
    } else {
      EndedStaysPut(s, k, plan);
    }
  }

  lemma CloseOrphansFirst(who: Closer, at: ClosePc, cur: ThreadPc, c: Client, n: nat)
    requires OrphansFirst(Closing(who, at), cur, c, n)
    ensures var (d, next) := CloseStep(c, at);
            OrphansFirst(CallAfterClosing(who, at, next), cur, d, n)
  {
  }

  lemma CallOrphansFirst(s: State, starts: bool, n: nat)
    requires Inv(s) && OrphansFirst(s.call, Current(s.crew), s.client, n)
    ensures var r := CallNext(s, starts);
            OrphansFirst(r.call, Current(r.crew), r.client, n)
  {
    hide OneThread, FlagKnown, ClientKnown, ShutdownKnown, TeardownKnown, Headed, CrashKnown, LossKnown, TallyKnown,
      CloseStep, CallAfterClosing, AtRisk, Current, FlagNext, JoinOldNext, ShutdownJoinNext, SpawnNext;
    match s.call {
      case Closing(who, at) => CloseOrphansFirst(who, at, Current(s.crew), s.client, n);
      case JoinOld =>
        JoinOldCrew(s);
        JoinOldFrame(s);
      case ShutdownJoin =>
        ShutdownJoinCrew(s);
        ShutdownJoinFrame(s);
      case Spawn =>
        SpawnCrew(s, starts);
        SpawnFrame(s, starts);
      case _ => FlagFrame(s);
    }
  }

  lemma StepOrphansFirst(s: State, a: Action, n: nat)
    requires Inv(s) && OrphansFirst(s.call, Current(s.crew), s.client, n)
    ensures var r := Apply(s, a);
            OrphansFirst(r.call, Current(r.crew), r.client, n)
  {
    hide CallNext, ThreadNext, Inv, Current, Meeting;
    match a {
      case CallStep(starts) => CallOrphansFirst(s, starts, n);
      case ThreadStep(k, plan) =>
        if k < |s.crew.threads| {
          ThreadOrphansFirst(s, k, plan, n);
        }
      case _ =>
    }
  }

  lemma {:induction false} StepsOrphanFirst(run: seq<Action>, more: seq<Action>, n: nat)
    requires OrphansFirst(After(run).call, Current(After(run).crew), After(run).client, n)
    ensures var s := After(run + more);
            OrphansFirst(s.call, Current(s.crew), s.client, n)
  {
    hide Apply, OrphansFirst, After, Inv, Current;
    if more == [] {
      assert run + more == run;
    } else {
      var m := |more| - 1;
      StepsOrphanFirst(run, more[..m], n);
      InvHolds(run + more[..m]);
      StepOrphansFirst(After(run + more[..m]), more[m], n);
      AfterOneMore(run + more[..m], more[m]);
      assert run + more == run + more[..m] + [more[m]];
    }
  }

  /** A reconnect of a running client has its price: in every interleaving, when the client runs again
      between callbacks, an io service has been destroyed under the old listener's socket since the call. */
  lemma ReconnectOrphans(run: seq<Action>, more: seq<Action>)
    requires Idling(After(run)) && After(run).client.running
    requires Idling(After(run + [CallReconnect] + more)) && After(run + [CallReconnect] + more).client.running
    ensures After(run + [CallReconnect] + more).client.tally.orphaned > After(run).client.tally.orphaned
  {
    var n := After(run).client.tally.orphaned;
    InvHolds(run);
    AfterOneMore(run, CallReconnect);
    CallStartsOrphansFirst(After(run));
    hide After, Inv, Current, OrphansFirst;
    StepsOrphanFirst(run + [CallReconnect], more, n);
    var s := After(run + [CallReconnect] + more);
    assert OrphansFirst(s.call, Current(s.crew), s.client, n) ==> s.client.tally.orphaned > n by {
      RunningBetweenCalls(s, n);
    }
  }

  lemma CallStartsOrphansFirst(s: State)
    requires Inv(s) && Idling(s) && s.client.running
    ensures var r := Apply(s, CallReconnect);
            OrphansFirst(r.call, Current(r.crew), r.client, s.client.tally.orphaned)
  {
    hide OneThread, Meeting;
  }

  lemma RunningBetweenCalls(s: State, n: nat)
    requires Idling(s) && s.client.running
    ensures OrphansFirst(s.call, Current(s.crew), s.client, n) ==> s.client.tally.orphaned > n
  {
  }

  // ----- every reconnect call can be brought to such an end -----

  /** No thread is alive during a teardown. */
  ghost predicate Quiet(s: State) {
    Tearing(s.call) ==> forall k: nat :: !Live(s, k)
  }

  lemma ThreadStepIsQuiet(s: State, k: nat)
    requires Inv(s) && Quiet(s) && Live(s, k) && !s.crashed
    ensures var a := ThreadStep(k, ALL_UP);
            Effective(s, a) && Quiet(Do(s, a)) && !Meeting(Do(s, a))
  {
  }

  lemma CallStepIsQuiet(s: State)
    requires forall k: nat :: !Live(s, k)
    ensures Quiet(Do(s, CallStep(true))) && !Meeting(Do(s, CallStep(true)))
  {
    var r := CallNext(s, true);
    CallStepCrew(s);
    hide CallNext;
    if r.call != NoCall {
      forall k: nat ensures !Live(r, k) && (k < |r.crew.threads| ==> !r.crew.threads[k].InBody?) {
        assert !Live(s, k);
      }
    }
  }

  lemma CallStepCrew(s: State)
    ensures CallNext(s, true).crew.threads == s.crew.threads || CallNext(s, true).call == NoCall
  {
  }

  /** Threads first, then the callback. */
  lemma NextStep(s: State) returns (next: Option<Action>)
    requires Inv(s) && Quiet(s)
    ensures next.Some? ==> Effective(s, next.value) && Benign(next.value)
    ensures next.Some? ==> Quiet(Do(s, next.value)) && !Meeting(Do(s, next.value))
    ensures next.None? ==> Settled(s)
  {
    next := None;
    if s.crashed {
    } else if exists k: nat :: Live(s, k) {
      var k: nat :| Live(s, k);
      ThreadStepIsQuiet(s, k);
      next := Some(ThreadStep(k, ALL_UP));
    } else if Effective(s, CallStep(true)) {
      CallStepIsQuiet(s);
      next := Some(CallStep(true));
    } else {
      NothingLeft(s);
    }
  }

  lemma NothingLeft(s: State)
    requires (forall k: nat :: !Live(s, k)) && !Effective(s, CallStep(true))
    ensures Settled(s)
  {
    hide ThreadNext;
    forall a ensures !Effective(s, a) {
      if a.ThreadStep? && a.k < |s.crew.threads| {
        assert !Live(s, a.k);
        EndedStaysPut(s, a.k, a.plan);
      } else if a.CallStep? {
        StartsOnlyMattersToSpawn(s, a.starts);
      }
    }
  }

  lemma StartsOnlyMattersToSpawn(s: State, starts: bool)
    ensures CallNext(s, starts) == s <==> CallNext(s, true) == s
  {
  }

  /** From anywhere quiet, callback and thread can take their steps until none is left, without meeting. */
  lemma {:induction false} Settle(run: seq<Action>) returns (more: seq<Action>)
    requires Quiet(After(run))
    ensures forall a :: a in more ==> Benign(a)
    ensures Settled(After(run + more)) && (After(run + more).past.met <==> After(run).past.met)
    decreases StepsLeft(After(run))
  {
    hide After, Do, Inv, StepsLeft, Meeting, Quiet, Settled, Benign;
    more := [];
    assert run + more == run;
    InvHolds(run);
    var next := NextStep(After(run));
    if next.None? {
    } else {
      var a := next.value;
      NoCallbackHangs(run, a);
      AfterOneMore(run, a);
      MetStays(After(run), a);
      NoteKeepsQuiet(Do(After(run), a), After(run + [a]).past.met);
      var rest := Settle(run + [a]);
      more := [a] + rest;
      assert run + more == run + [a] + rest;
    }
  }

  lemma NoteKeepsQuiet(r: State, met: bool)
    ensures Quiet(r.(past := r.past.(met := met))) <==> Quiet(r)
  {
    assert forall k: nat :: Live(r.(past := r.past.(met := met)), k) <==> Live(r, k);
  }

  /** So after every run in which no teardown has met a connect body and the node is not stranded, a
      reconnect call can be brought to its end, and ends with the client running and sound; at the price
      above, if it ran before. */
  lemma ReconnectSettles(run: seq<Action>) returns (more: seq<Action>)
    requires Idling(After(run)) && !Stranded(After(run)) && !After(run).past.met
    ensures forall a :: a in more ==> Benign(a)
    ensures var s := After(run + [CallReconnect] + more);
            && Settled(s) && s.client.running && Sound(s.client)
            && (After(run).client.running ==> s.client.tally.orphaned > After(run).client.tally.orphaned)
  {
    ReconnectStarts(run);
    hide After, Apply, Benign, Settled, Stranded, Sound, Idling, Live, Inv;
    more := Settle(run + [CallReconnect]);
    var all := run + [CallReconnect] + more;
    ReconnectBringsUpExactly(run, more);
    if After(run).client.running {
      InvHolds(all);
      UndisturbedRunsAreSound(all);
      SettledMeansDone(After(all));
      ReconnectOrphans(run, more);
    }
  }

  // ---------- close against connect ----------

  /** A teardown meets a connect body only if, when it lowered `running`, a thread was about to pass its
      guard or to announce the connection; and never at shutdown. */
  lemma TeardownMeetsConnectOnlyAtRisk(run: seq<Action>)
    requires Meeting(After(run))
    ensures After(run).past.riskyClose && !After(run).call.who.ByShutdown?
  {
    InvHolds(run);
    ApartMeansNoMeeting(After(run));
    hide After, Meeting;
  }

  lemma LowerAndPass(s: State, starts: bool)
    requires Inv(s) && s.call.Closing? && s.call.at.LowerRunning? && !s.crashed
    ensures var r := CallNext(s, starts);
            && !r.crashed && Tearing(r.call) && r.crew == s.crew && !r.client.running
            && (Meeting(r) <==> Current(s.crew) == InBody(Announce))
  {
    var r := CallNext(s, starts);
    ApartMeansNoMeeting(r);
  }

  lemma PassAfterLower(r: State, k: nat, plan: Plan)
    requires OneThread(r.crew) && Tearing(r.call) && !r.client.running && !r.crashed
    requires Current(r.crew).InBody? ==> Current(r.crew).at.Announce?
    ensures Meeting(Do(r, ThreadStep(k, plan))) <==>
            ThreadAt(r, k, Begun) || (Current(r.crew).InBody? && !ThreadAt(r, k, Current(r.crew)))
  {
    var q := Do(r, ThreadStep(k, plan));
    if k < |r.crew.threads| && Alive(r.crew, k) {
      Moves(r.crew, k, q.crew.threads[k]);
      ApartMeansNoMeeting(q);
      hide OneThread, Current, Moved, Meeting;
    } else {
      if k < |r.crew.threads| {
        EndedStaysPut(r, k, plan);
      }
      ApartMeansNoMeeting(r);
      hide OneThread, Current, Meeting;
    }
  }

  /** From a close about to lower `running`, with no meeting so far, that step and a thread's next step
      bring one about exactly when that thread is before its guard, or one is about to announce. */
  lemma TeardownMeetsConnectExactly(run: seq<Action>, starts: bool, k: nat, plan: Plan)
    requires After(run).call.Closing? && After(run).call.at.LowerRunning? && !After(run).crashed && !After(run).past.met
    ensures After(run + [CallStep(starts)] + [ThreadStep(k, plan)]).past.met <==>
            ThreadAt(After(run), k, Begun) || exists j: nat :: ThreadAt(After(run), j, InBody(Announce))
  {
    var s, call, step := After(run), CallStep(starts), ThreadStep(k, plan);
    InvHolds(run);
    AfterOneMore(run, call);
    AfterOneMore(run + [call], step);
    MetStays(s, call);
    MetStays(After(run + [call]), step);
    LowerAndPass(s, starts);
    if Current(s.crew) == InBody(Announce) {
      assert ThreadAt(s, s.crew.handle.value, InBody(Announce));
    }
    forall j: nat | ThreadAt(s, j, InBody(Announce)) ensures Current(s.crew) == InBody(Announce) {
      BodyIsCurrent(s, j, Announce);
    }
    AnnounceOrClosed(s);
    hide After, Inv, Meeting, OneThread, CallNext, Do;
    PassAfterLower(After(run + [call]), k, plan);
  }

  lemma AnnounceOrClosed(s: State)
    requires Inv(s) && s.call.Closing? && s.call.at.LowerRunning?
    ensures OneThread(s.crew) && (Current(s.crew).InBody? ==> Current(s.crew).at.Announce?)
  {
  }

  // ---------- uninterrupted, the steps are the calls ----------

  /** Thread `k` went through a connect body, or through a part of it, which ended so. */
  ghost predicate BodyRan(s: State, r: State, k: nat, end: (Client, BodyNext)) {
    && r.client == end.0 && r.call == s.call && r.connecting == s.connecting && r.radioError == s.radioError
    && (r.crashed <==> end.1.Terminates?)
    && k < |s.crew.threads| && (!r.crashed ==> r.crew == Moved(s.crew, k, ThreadAfterBody(end.1)))
  }

  function ThreadAfterBody(next: BodyNext): ThreadPc {
    if next.GoesTo? then InBody(next.at) else Leaving
  }

  /** No io service is destroyed under a running io thread from here on, if the body goes on alone. */
  predicate KeepsIo(s: State, at: BodyPc) {
    BodyRank(at) < BodyRank(BuildIo) || s.client.thread != Running
  }

  lemma KeepsIoOn(c: Client, at: BodyPc, plan: Plan)
    ensures var (d, next) := BodyStep(c, at, plan);
            next.GoesTo? && (BodyRank(at) < BodyRank(BuildIo) || c.thread != Running) ==>
              BodyRank(next.at) < BodyRank(BuildIo) || d.thread != Running
  {
  }

  lemma OneBodyStep(run: seq<Action>, k: nat, at: BodyPc, plan: Plan)
    requires !After(run).crashed && ThreadAt(After(run), k, InBody(at))
    ensures BodyRan(After(run), After(run + [ThreadStep(k, plan)]), k, BodyStep(After(run).client, at, plan))
    ensures !at.BuildIo? || After(run).client.thread != Running ==>
              After(run + [ThreadStep(k, plan)]).past.ioLost == After(run).past.ioLost
  {
  }

  lemma BodyRanOn(s: State, q: State, r: State, k: nat, next: (Client, BodyNext), end: (Client, BodyNext))
    requires BodyRan(s, q, k, next) && next.1.GoesTo? && BodyRan(q, r, k, end)
    ensures BodyRan(s, r, k, end)
  {
  }

  lemma FirstBodyStep(run: seq<Action>, k: nat, at: BodyPc, plan: Plan)
    requires !After(run).crashed && ThreadAt(After(run), k, InBody(at))
    ensures var (next, q) := (BodyStep(After(run).client, at, plan), After(run + [ThreadStep(k, plan)]));
            && BodyRan(After(run), q, k, next)
            && (next.1.GoesTo? ==> !q.crashed && ThreadAt(q, k, InBody(next.1.at)) && q.client == next.0)
            && (next.1.GoesTo? ==> BodyRank(next.1.at) < BodyRank(at))
            && RunBody(After(run).client, at, plan) ==
               (if next.1.GoesTo? then RunBody(next.0, next.1.at, plan) else next)
            && (KeepsIo(After(run), at) ==>
                  q.past.ioLost == After(run).past.ioLost && (next.1.GoesTo? ==> KeepsIo(q, next.1.at)))
  {
    hide After, BodyStep, RunBody;
    OneBodyStep(run, k, at, plan);
    KeepsIoOn(After(run).client, at, plan);
    BodyCountsDown(After(run).client, at, plan);
    RunBodyStep(After(run).client, at, plan);
    hide BodyRank;
  }

  /** A connect body's steps in a row are what the call does from there. */
  lemma {:induction false} BodyRuns(run: seq<Action>, k: nat, at: BodyPc, plan: Plan) returns (more: seq<Action>)
    requires !After(run).crashed && ThreadAt(After(run), k, InBody(at))
    ensures forall a :: a in more ==> a == ThreadStep(k, plan)
    ensures BodyRan(After(run), After(run + more), k, RunBody(After(run).client, at, plan))
    ensures KeepsIo(After(run), at) ==> After(run + more).past.ioLost == After(run).past.ioLost
    decreases BodyRank(at)
  {
    hide *;
    var a, next := ThreadStep(k, plan), BodyStep(After(run).client, at, plan);
    FirstBodyStep(run, k, at, plan);
    if next.1.GoesTo? {
      var rest := BodyRuns(run + [a], k, next.1.at, plan);
      more := [a] + rest;
      assert run + more == run + [a] + rest;
      BodyRanOn(After(run), After(run + [a]), After(run + more), k, next, RunBody(next.0, next.1.at, plan));
    } else {
      more := [a];
    }
  }

  lemma PassGuard(run: seq<Action>, k: nat, plan: Plan)
    requires !After(run).crashed && ThreadAt(After(run), k, Begun) && !After(run).client.running
    ensures var q := After(run + [ThreadStep(k, plan)]);
            && BodyRan(After(run), q, k, (After(run).client, GoesTo(Resolving)))
            && !q.crashed && ThreadAt(q, k, InBody(Resolving)) && q.client == After(run).client
            && q.past.ioLost == After(run).past.ioLost
            && (After(run).client.thread != Running ==> KeepsIo(q, Resolving))
  {
  }

  /** A thread that passes its guard and then runs without interruption does what `Connect` does. */
  lemma ThreadRunsConnect(run: seq<Action>, k: nat, plan: Plan) returns (more: seq<Action>)
    requires !After(run).crashed && ThreadAt(After(run), k, Begun) && !After(run).client.running
    ensures forall a :: a in more ==> a == ThreadStep(k, plan)
    ensures var c := After(run).client;
            BodyRan(After(run), After(run + more), k, (AfterConnect(c, plan), BodyEnd(ConnectResult(c, plan).0)))
    ensures After(run).client.thread != Running ==> After(run + more).past.ioLost == After(run).past.ioLost
  {
    hide *;
    var a, s := ThreadStep(k, plan), After(run);
    PassGuard(run, k, plan);
    UninterruptedBody(s.client, plan);
    var rest := BodyRuns(run + [a], k, Resolving, plan);
    more := [a] + rest;
    assert run + more == run + [a] + rest;
    BodyRanOn(s, After(run + [a]), After(run + more), k, (s.client, GoesTo(Resolving)),
              RunBody(s.client, Resolving, plan));
  }

  /** The callback went through `close`, or through a part of it, which ended so. */
  ghost predicate CloseRan(s: State, r: State, who: Closer, end: (Client, CloseNext)) {
    && r.client == end.0 && r.crew == s.crew && r.connecting == s.connecting && r.radioError == s.radioError
    && (r.crashed <==> end.1.Faults?) && r.past.ioLost == s.past.ioLost
    && (!r.crashed ==> r.call == CallAfterClosing(who, SignalDown, end.1))
  }

  lemma OneCloseStep(run: seq<Action>, who: Closer, at: ClosePc)
    requires !After(run).crashed && After(run).call == Closing(who, at)
    ensures CloseRan(After(run), After(run + [CallStep(true)]), who, CloseStep(After(run).client, at))
  {
  }

  lemma CloseRanOn(s: State, q: State, r: State, who: Closer, next: (Client, CloseNext), end: (Client, CloseNext))
    requires CloseRan(s, q, who, next) && next.1.MovesTo? && CloseRan(q, r, who, end)
    ensures CloseRan(s, r, who, end)
  {
  }

  lemma FirstCloseStep(run: seq<Action>, who: Closer, at: ClosePc)
    requires !After(run).crashed && After(run).call == Closing(who, at)
    ensures var (next, q) := (CloseStep(After(run).client, at), After(run + [CallStep(true)]));
            && CloseRan(After(run), q, who, next)
            && (next.1.MovesTo? ==> !q.crashed && q.call == Closing(who, next.1.at) && q.client == next.0)
            && (next.1.MovesTo? ==> CloseRank(next.1.at) < CloseRank(at))
            && RunClose(After(run).client, at) == if next.1.MovesTo? then RunClose(next.0, next.1.at) else next
  {
    OneCloseStep(run, who, at);
    CloseCountsDown(After(run).client, who, at);
    RunCloseStep(After(run).client, at);
    hide After, CloseStep, CloseRank, RunClose, CallSteps;
  }

  lemma {:induction false} CloseRuns(run: seq<Action>, who: Closer, at: ClosePc) returns (more: seq<Action>)
    requires !After(run).crashed && After(run).call == Closing(who, at)
    ensures forall a :: a in more ==> a == CallStep(true)
    ensures CloseRan(After(run), After(run + more), who, RunClose(After(run).client, at))
    decreases CloseRank(at)
  {
    hide *;
    var a, next := CallStep(true), CloseStep(After(run).client, at);
    FirstCloseStep(run, who, at);
    if next.1.MovesTo? {
      var rest := CloseRuns(run + [a], who, next.1.at);
      more := [a] + rest;
      assert run + more == run + [a] + rest;
      CloseRanOn(After(run), After(run + [a]), After(run + more), who, next, RunClose(next.0, next.1.at));
    } else {
      more := [a];
    }
  }

  /** A callback that runs `close` without interruption does what `Close` does. */
  lemma CallbackRunsClose(run: seq<Action>, who: Closer) returns (more: seq<Action>)
    requires !After(run).crashed && After(run).call == Closing(who, TestRunning) && Closable(After(run).client)
    ensures forall a :: a in more ==> a == CallStep(true)
    ensures CloseRan(After(run), After(run + more), who, (AfterClose(After(run).client), Done))
  {
    UninterruptedClose(After(run).client);
    hide After, RunClose, CloseRan, AfterClose;
    more := CloseRuns(run, who, TestRunning);
  }

  // ---------- a run that crashes ----------

  const CALL := CallStep(true)

  /** Only the callback's own place and the flags have changed. */
  ghost predicate Reached(s: State, r: State, call: CallPc, connecting: bool) {
    && r.call == call && r.connecting == connecting && r.crew == s.crew && r.client == s.client
    && !r.radioError && !r.crashed && r.past.ioLost == s.past.ioLost
  }

  lemma FlagStepOn(run: seq<Action>)
    requires var s := After(run);
             && !s.crashed && !s.radioError
             && !s.call.Closing? && !s.call.JoinOld? && !s.call.Spawn? && !s.call.ShutdownJoin?
    ensures var s := After(run);
            Reached(s, After(run + [CALL]), CallAfterFlagStep(s.call, false, s.connecting, s.client.running),
                    (s.connecting && !s.call.ReconnectClearFlag?) || s.call.SetFlag?)
  {
    AfterOneMore(run, CALL);
    FlagFrame(After(run));
    hide After, CallAfterFlagStep, FlagNext, Meeting;
  }

  /** pre_spin on a closed client, up to the join. */
  lemma PreSpinReachesJoin(run: seq<Action>)
    requires var s := After(run);
             !s.crashed && s.call.TestError? && !s.radioError && !s.connecting && !s.client.running
    ensures Reached(After(run), After(run + [CALL] + [CALL] + [CALL] + [CALL]), JoinOld, true)
  {
    hide After;
    TwoFlagSteps(run, TestFlag, TestConnected, false, false);
    TwoFlagSteps(run + [CALL] + [CALL], SetFlag, JoinOld, false, true);
  }

  lemma TwoFlagSteps(run: seq<Action>, first: CallPc, second: CallPc, up1: bool, up2: bool)
    requires var s := After(run);
             && !s.crashed && !s.radioError && (s.call.TestError? || s.call.TestConnected?)
             && first == CallAfterFlagStep(s.call, false, s.connecting, s.client.running) && up1 == s.connecting
             && second == CallAfterFlagStep(first, false, up1, s.client.running)
             && (first.TestFlag? || first.SetFlag?) && up2 == (up1 || first.SetFlag?)
    ensures Reached(After(run), After(run + [CALL] + [CALL]), second, up2)
  {
    FlagStepOn(run);
    FlagStepOn(run + [CALL]);
    hide After, CallAfterFlagStep;
  }

  lemma JoinPasses(run: seq<Action>)
    requires var s := After(run);
             !s.crashed && s.call.JoinOld? && !s.radioError && !JoinBlocked(s.crew) && !s.crew.joined
    ensures var s := After(run);
            Reached(s.(crew := s.crew.(joined := s.crew.handle.Some?)), After(run + [CALL]), Spawn, s.connecting)
  {
    AfterOneMore(run, CALL);
    hide After, Meeting, JoinBlocked;
  }

  lemma SpawnEnds(run: seq<Action>, starts: bool)
    requires !After(run).crashed && After(run).call.Spawn? && !After(run).radioError
    ensures var (s, r) := (After(run), After(run + [CallStep(starts)]));
            && Reached(s.(crew := r.crew), r, NoCall, s.connecting)
            && r.crew == if starts then Crew(s.crew.threads + [Begun], Some(|s.crew.threads|), false) else s.crew
  {
    AfterOneMore(run, CallStep(starts));
    hide After, Meeting;
  }

  lemma JoinAndSpawn(run: seq<Action>)
    requires var s := After(run);
             !s.crashed && s.call.JoinOld? && !s.radioError && !JoinBlocked(s.crew) && !s.crew.joined
    ensures var (s, r) := (After(run), After(run + [CALL] + [CALL]));
            && Reached(s.(crew := r.crew), r, NoCall, s.connecting)
            && r.crew == Crew(s.crew.threads + [Begun], Some(|s.crew.threads|), false)
  {
    hide After, JoinBlocked;
    JoinPasses(run);
    SpawnEnds(run + [CALL], true);
  }

  lemma ReconnectFindsClosed(s: State)
    requires Idling(s) && !s.radioError && !s.client.running
    ensures Reached(s, Apply(Apply(s, CallReconnect), CALL), ReconnectClearError, s.connecting)
  {
    hide Meeting, AtRisk;
  }

  /** A reconnect call that finds the client closed, up to pre_spin. */
  lemma ReconnectReachesPreSpin(run: seq<Action>)
    requires Idling(After(run)) && !After(run).radioError && !After(run).client.running
    ensures Reached(After(run), After(run + [CallReconnect] + [CALL] + [CALL] + [CALL]), TestError, false)
  {
    AfterOneMore(run, CallReconnect);
    AfterOneMore(run + [CallReconnect], CALL);
    ReconnectFindsClosed(After(run));
    FlagStepOn(run + [CallReconnect] + [CALL]);
    FlagStepOn(run + [CallReconnect] + [CALL] + [CALL]);
    hide After;
  }

  /** A reconnect call that finds the client running, up to where `running` is down. */
  lemma ReconnectLowers(run: seq<Action>)
    requires Idling(After(run)) && !After(run).radioError && After(run).client.running
    ensures var (s, r) := (After(run), After(run + [CallReconnect] + [CALL] + [CALL]));
            Reached(s.(client := s.client.(running := false)), r, Closing(ByReconnect, DropWork), s.connecting)
  {
    AfterOneMore(run, CallReconnect);
    AfterOneMore(run + [CallReconnect], CALL);
    AfterOneMore(run + [CallReconnect] + [CALL], CALL);
    hide After, Meeting, AtRisk;
  }

  lemma ThreadEnds(run: seq<Action>, k: nat)
    requires !After(run).crashed && !After(run).radioError && ThreadAt(After(run), k, Leaving)
    ensures var (s, r) := (After(run), After(run + [ThreadStep(k, ALL_UP)]));
            Reached(s.(crew := Moved(s.crew, k, Ended)), r, s.call, false)
  {
    hide *;
    AfterOneMore(run, ThreadStep(k, ALL_UP));
    EndStep(After(run), k);
  }

  lemma EndStep(s: State, k: nat)
    requires !s.crashed && !s.radioError && ThreadAt(s, k, Leaving)
    ensures Reached(s.(crew := Moved(s.crew, k, Ended)), Apply(s, ThreadStep(k, ALL_UP)), s.call, false)
  {
    hide Meeting, Moved, CallNext;
  }

  /** The first attempt is under way when a reconnect call comes; at its join the client runs. */
  lemma SecondJoinReached() returns (run: seq<Action>)
    ensures forall a :: a in run ==> Benign(a)
    ensures var s := After(run);
            && !s.crashed && !s.radioError && s.call.JoinOld? && s.crew == Crew([Ended], Some(0), false)
            && s.client == AfterConnect(FRESH, ALL_UP) && !s.past.ioLost
  {
    run := [];
    AfterNothing();
    hide After;
    PreSpinReachesJoin(run);
    run := run + [CALL] + [CALL] + [CALL] + [CALL];
    JoinAndSpawn(run);
    run := run + [CALL] + [CALL];
    assert After(run).crew == Crew([Begun], Some(0), false);
    ReconnectReachesPreSpin(run);
    run := run + [CallReconnect] + [CALL] + [CALL] + [CALL];
    PreSpinReachesJoin(run);
    run := run + [CALL] + [CALL] + [CALL] + [CALL];
    var body := ThreadRunsConnect(run, 0, ALL_UP);
    assert After(run + body).crew == Crew([Leaving], Some(0), false);
    run := run + body;
    ThreadEnds(run, 0);
    run := run + [ThreadStep(0, ALL_UP)];
    assert After(run).crew == Crew([Ended], Some(0), false);
  }

  /** It spawns a second thread, which has not looked at the client yet. */
  lemma SecondThreadSpawned() returns (run: seq<Action>)
    ensures forall a :: a in run ==> Benign(a)
    ensures var s := After(run);
            && !s.crashed && !s.radioError && s.call.NoCall? && s.crew == Crew([Ended, Begun], Some(1), false)
            && s.client == AfterConnect(FRESH, ALL_UP) && !s.past.ioLost
  {
    run := SecondJoinReached();
    hide After;
    JoinAndSpawn(run);
    run := run + [CALL] + [CALL];
    assert After(run).crew.threads == [Ended, Begun];
  }

  /** The meeting does happen, and ends the process, with nothing having failed: a second reconnect call
      before that thread has looked at the client. */
  lemma ReconnectCanCrash() returns (run: seq<Action>)
    ensures forall a :: a in run ==> Benign(a)
    ensures var s := After(run);
            && s.crashed && s.past.met && s.call == Closing(ByReconnect, DropWork)
            && exists k: nat :: ThreadAt(s, k, InBody(StartThread))
  {
    run := SecondThreadSpawned();
    hide After;
    ReconnectLowers(run);
    run := run + [CallReconnect] + [CALL] + [CALL];
    var body := ThreadRunsConnect(run, 1, ALL_UP);
    run := run + body;
    InvHolds(run);
    CrashIsAtStart(After(run));
    if !After(run).past.met {
      UndisturbedRunsAreSound(run);
    }
  }

  lemma CrashIsAtStart(s: State)
    requires Inv(s) && s.crashed && s.call == Closing(ByReconnect, DropWork)
    ensures s.crew.handle.Some? && ThreadAt(s, s.crew.handle.value, InBody(StartThread))
  {
  }

  /** A second thread has passed its guard while `close` was under way, and waits until that has joined
      the io thread. */
  lemma ThreadWaitsForJoin() returns (run: seq<Action>)
    ensures forall a :: a in run ==> Benign(a)
    ensures var s := After(run);
            && !s.crashed && !s.past.ioLost && s.client.thread == Joined
            && s.call == Closing(ByReconnect, StopListener) && ThreadAt(s, 1, InBody(BuildIo))
  {
    run := SecondThreadSpawned();
    hide After;
    ReconnectLowers(run);
    run := run + [CallReconnect] + [CALL] + [CALL];
    PassGuard(run, 1, ALL_UP);
    run := run + [ThreadStep(1, ALL_UP)];
    OneBodyStep(run, 1, Resolving, ALL_UP);
    run := run + [ThreadStep(1, ALL_UP)];
    CloseReachesStop(run);
    run := run + [CALL] + [CALL] + [CALL];
  }

  lemma CloseReachesStop(run: seq<Action>)
    requires var s := After(run);
             !s.crashed && s.call == Closing(ByReconnect, DropWork) && s.client.io != NoIo && s.client.thread == Running
    ensures var (s, r) := (After(run), After(run + [CALL] + [CALL] + [CALL]));
            && !r.crashed && r.call == Closing(ByReconnect, StopListener) && r.crew == s.crew
            && r.client.thread == Joined && r.past.ioLost == s.past.ioLost
  {
    hide After;
    OneCloseStep(run, ByReconnect, DropWork);
    OneCloseStep(run + [CALL], ByReconnect, StopIo);
    OneCloseStep(run + [CALL] + [CALL], ByReconnect, JoinIo);
  }

  /** It can end the process in another way, with nothing having failed either and every io thread joined:
      that thread goes on and drops the listener that `close` is about to stop. */
  lemma CloseCanFault() returns (run: seq<Action>)
    ensures forall a :: a in run ==> Benign(a)
    ensures var s := After(run);
            && s.crashed && s.past.met && !s.past.ioLost && s.client.thread == Joined
            && s.call == Closing(ByReconnect, StopListener) && s.client.listener == NoListener
  {
    run := ThreadWaitsForJoin();
    hide After;
    OneBodyStep(run, 1, BuildIo, ALL_UP);
    run := run + [ThreadStep(1, ALL_UP)];
    OneBodyStep(run, 1, DropListener, ALL_UP);
    run := run + [ThreadStep(1, ALL_UP)];
    FaultsAtStop(run);
    run := run + [CALL];
    if !After(run).past.met {
      UndisturbedRunsAreSound(run);
    }
  }

  lemma FaultsAtStop(run: seq<Action>)
    requires var s := After(run);
             !s.crashed && s.call == Closing(ByReconnect, StopListener) && s.client.listener == NoListener
    ensures var (s, r) := (After(run), After(run + [CALL]));
            r.crashed && r.call == s.call && r.client == s.client && r.past.ioLost == s.past.ioLost
  {
    AfterOneMore(run, CALL);
    hide After, Meeting;
  }

  // ---------- a run that strands the node ----------

  lemma JoinAndFail(run: seq<Action>)
    requires var s := After(run);
             && !s.crashed && s.call.JoinOld? && !s.radioError
             && !JoinBlocked(s.crew) && !s.crew.joined && s.crew.handle.Some?
    ensures var (s, r) := (After(run), After(run + [CALL] + [CallStep(false)]));
            Reached(s.(crew := s.crew.(joined := true)), r, NoCall, s.connecting)
  {
    hide After, JoinBlocked;
    JoinPasses(run);
    SpawnEnds(run + [CALL], false);
  }

  /** One thread that fails to start is enough: the first attempt finds no address, and the thread of the
      reconnect call after it does not start. `connecting` stays up with no thread alive. */
  lemma OneFailedStartStrands() returns (run: seq<Action>)
    ensures var s := After(run);
            Stranded(s) && Idling(s) && s.connecting && !s.client.running && forall k: nat :: !Live(s, k)
  {
    run := [];
    AfterNothing();
    hide After;
    PreSpinReachesJoin(run);
    run := run + [CALL] + [CALL] + [CALL] + [CALL];
    JoinAndSpawn(run);
    run := run + [CALL] + [CALL];
    var body := ThreadRunsConnect(run, 0, Plan(Unresolvable, Bound, AllUp));
    assert After(run + body).crew == Crew([Leaving], Some(0), false);
    run := run + body;
    ThreadEnds(run, 0);
    run := run + [ThreadStep(0, ALL_UP)];
    assert After(run).crew == Crew([Ended], Some(0), false);
    ReconnectReachesPreSpin(run);
    run := run + [CallReconnect] + [CALL] + [CALL] + [CALL];
    PreSpinReachesJoin(run);
    run := run + [CALL] + [CALL] + [CALL] + [CALL];
    JoinAndFail(run);
    run := run + [CALL] + [CallStep(false)];
  }

  /** And when the thread before had meanwhile brought the client up, shutdown leaves it running, its io
      thread unjoined. */
  lemma ShutdownCanLeaveClientRunning() returns (run: seq<Action>)
    ensures var s := After(run + [CallShutdown] + [CALL]);
            Idling(s) && s.client.running && s.client.thread == Running
  {
    run := SecondJoinReached();
    hide After;
    JoinAndFail(run);
    run := run + [CALL] + [CallStep(false)];
    ShutdownThrowsOn(run);
  }

  lemma ShutdownThrowsOn(run: seq<Action>)
    requires var s := After(run);
             Idling(s) && s.crew.joined && !JoinBlocked(s.crew)
    ensures var (s, r) := (After(run), After(run + [CallShutdown] + [CALL]));
            Idling(r) && r.call.NoCall? && r.client == s.client
  {
    AfterOneMore(run, CallShutdown);
    AfterOneMore(run + [CallShutdown], CALL);
    hide After, Meeting, JoinBlocked;
  }

  // ---------- whole calls ----------

  lemma AlwaysClosable(run: seq<Action>)
    ensures Closable(After(run).client)
  {
    hide After;
    InvHolds(run);
  }

  /** Nothing but the callback's steps. */
  ghost predicate Alone(more: seq<Action>) {
    forall a :: a in more ==> a == CALL
  }

  lemma AloneConcat(p: seq<Action>, q: seq<Action>)
    requires Alone(p) && Alone(q)
    ensures Alone(p + q)
  {
  }

  lemma Regroup(a: seq<Action>, b: seq<Action>, c: seq<Action>)
    ensures a + b + c == a + (b + c)
  {
  }

  lemma ClearErrorStep(run: seq<Action>)
    requires !After(run).crashed && (After(run).call.ReconnectClearError? || After(run).call.ErrorClear?)
    ensures var s := After(run);
            Reached(s, After(run + [CALL]), if s.call.ErrorClear? then TestFlag else ReconnectClearFlag, s.connecting)
  {
    AfterOneMore(run, CALL);
    hide After, Meeting;
  }

  /** From the call's close to the end of pre_spin. */
  lemma ClearedAndSpawned(run: seq<Action>) returns (more: seq<Action>)
    requires var s := After(run);
             !s.crashed && s.call.ReconnectClearError? && !s.client.running && !JoinBlocked(s.crew) && !s.crew.joined
    ensures Alone(more)
    ensures Spawned(After(run), After(run + more))
  {
    hide After, JoinBlocked;
    var r := run + [CALL] + [CALL];
    ClearErrorStep(run);
    FlagStepOn(run + [CALL]);
    PreSpinReachesJoin(r);
    JoinAndSpawn(r + [CALL] + [CALL] + [CALL] + [CALL]);
    more := [CALL, CALL, CALL, CALL, CALL, CALL, CALL, CALL];
    assert r + [CALL] + [CALL] + [CALL] + [CALL] + [CALL] + [CALL] == run + more by { EightCalls(run); }
  }

  lemma EightCalls(run: seq<Action>)
    ensures run + [CALL] + [CALL] + [CALL] + [CALL] + [CALL] + [CALL] + [CALL] + [CALL] ==
            run + [CALL, CALL, CALL, CALL, CALL, CALL, CALL, CALL]
  {
  }

  /** pre_spin has ended by spawning one thread. */
  ghost predicate Spawned(s: State, r: State) {
    && !r.crashed && r.call.NoCall? && r.connecting && !r.radioError && r.client == s.client
    && r.crew == Crew(s.crew.threads + [Begun], Some(|s.crew.threads|), false)
  }

  /** No callback is under way, no thread is alive, and the next join will not throw. */
  ghost predicate AtRest(s: State) {
    Idling(s) && !s.crew.joined && forall k: nat :: !Live(s, k)
  }

  lemma NoneIsJoinable(s: State)
    requires AtRest(s)
    ensures !JoinBlocked(s.crew)
  {
    if s.crew.handle.Some? {
      assert !Live(s, s.crew.handle.value);
    }
  }

  lemma ReconnectEntersClose(run: seq<Action>)
    requires Idling(After(run))
    ensures var (s, r) := (After(run), After(run + [CallReconnect]));
            r.client == s.client && r.crew == s.crew && !r.crashed && r.call == Closing(ByReconnect, TestRunning)
  {
    AfterOneMore(run, CallReconnect);
    hide After, Meeting;
  }

  lemma ClosedAndCleared(s: State, q: State, who: Closer)
    requires CloseRan(s, q, who, (AfterClose(s.client), Done))
    ensures q.client == AfterClose(s.client) && !q.client.running && q.crew == s.crew && !q.crashed
    ensures q.call == (match who
                       case ByReconnect => ReconnectClearError
                       case ByError => ErrorClear
                       case ByShutdown => Down)
    ensures q.connecting == s.connecting
  {
  }

  /** pre_spin alone, without an error: it leaves a running client to itself, and spawns one thread for a
      closed one. */
  lemma PreSpinWhole(run: seq<Action>) returns (more: seq<Action>)
    requires var s := After(run);
             !s.crashed && s.call.TestError? && !s.radioError && !s.connecting && !JoinBlocked(s.crew) && !s.crew.joined
    ensures Alone(more)
    ensures var (s, r) := (After(run), After(run + more));
            if s.client.running then Reached(s, r, NoCall, false) else Spawned(s, r)
  {
    hide After, JoinBlocked;
    var r := run + [CALL] + [CALL];
    if After(run).client.running {
      TwoFlagSteps(run, TestFlag, TestConnected, false, false);
      FlagStepOn(r);
      more := [CALL, CALL, CALL];
      assert r + [CALL] == run + more;
    } else {
      PreSpinReachesJoin(run);
      JoinAndSpawn(r + [CALL] + [CALL]);
      more := [CALL, CALL, CALL, CALL, CALL, CALL];
      assert r + [CALL] + [CALL] + [CALL] + [CALL] == run + more;
    }
  }

  /** A reconnect call that no thread disturbs closes the client, clears the error and spawns one thread. */
  lemma ReconnectCallWhole(run: seq<Action>) returns (more: seq<Action>)
    requires AtRest(After(run))
    ensures Alone(more)
    ensures var s := After(run);
            Spawned(s.(client := AfterClose(s.client)), After(run + [CallReconnect] + more))
  {
    var begun, s := run + [CallReconnect], After(run);
    NoneIsJoinable(s);
    ReconnectEntersClose(run);
    AlwaysClosable(begun);
    hide After, JoinBlocked, Live, AfterClose, Closable, CloseRan, Reached;
    var closing := CallbackRunsClose(begun, ByReconnect);
    ClosedAndCleared(After(begun), After(begun + closing), ByReconnect);
    var rest := ClearedAndSpawned(begun + closing);
    more := closing + rest;
    AloneConcat(closing, rest);
    Regroup(begun, closing, rest);
  }

  lemma PreSpinFindsError(run: seq<Action>)
    requires !After(run).crashed && After(run).call.TestError?
    ensures var (s, r) := (After(run), After(run + [ErrorChanges(true)] + [CALL]));
            && !r.crashed && r.call == Closing(ByError, TestRunning) && r.client == s.client && r.crew == s.crew
            && r.connecting == s.connecting
  {
    AfterOneMore(run, ErrorChanges(true));
    AfterOneMore(run + [ErrorChanges(true)], CALL);
    hide After, Meeting;
  }

  /** An error reported before pre_spin looks for it makes pre_spin close the client and clear the error. */
  lemma PreSpinOnError(run: seq<Action>) returns (more: seq<Action>)
    requires !After(run).crashed && After(run).call.TestError?
    ensures Alone(more)
    ensures var (s, r) := (After(run), After(run + [ErrorChanges(true)] + more));
            && !r.crashed && r.call.TestFlag? && !r.radioError && r.client == AfterClose(s.client)
            && r.crew == s.crew && r.connecting == s.connecting
  {
    PreSpinFindsError(run);
    var told := run + [ErrorChanges(true)];
    var begun := told + [CALL];
    AlwaysClosable(begun);
    hide After, AfterClose, Closable, CloseRan;
    var closing := CallbackRunsClose(begun, ByError);
    ClosedAndCleared(After(begun), After(begun + closing), ByError);
    ClearErrorStep(begun + closing);
    more := [CALL] + (closing + [CALL]);
    AloneConcat(closing, [CALL]);
    AloneConcat([CALL], closing + [CALL]);
    Regroup(begun, closing, [CALL]);
    Regroup(told, [CALL], closing + [CALL]);
  }

  lemma ShutdownEntersClose(run: seq<Action>)
    requires AtRest(After(run))
    ensures var (s, r) := (After(run), After(run + [CallShutdown] + [CALL]));
            && !r.crashed && r.call == Closing(ByShutdown, TestRunning) && r.client == s.client
            && r.crew == Crew(s.crew.threads, None, false)
  {
    hide *;
    NoneIsJoinable(After(run));
    AfterOneMore(run, CallShutdown);
    AfterOneMore(run + [CallShutdown], CALL);
    ShutdownSteps(After(run));
  }

  lemma ShutdownSteps(s: State)
    requires AtRest(s) && !JoinBlocked(s.crew)
    ensures var r := Apply(Apply(s, CallShutdown), CALL);
            && !r.crashed && r.call == Closing(ByShutdown, TestRunning) && r.client == s.client
            && r.crew == Crew(s.crew.threads, None, false)
  {
    hide Meeting, JoinBlocked, Live;
    var q := Apply(s, CallShutdown);
    assert !q.crashed && q.call == ShutdownJoin && q.client == s.client && q.crew == s.crew;
  }

  /** A shutdown that no thread disturbs lets go of its thread and closes the client. */
  lemma ShutdownCallWhole(run: seq<Action>) returns (more: seq<Action>)
    requires AtRest(After(run))
    ensures Alone(more)
    ensures var (s, r) := (After(run), After(run + [CallShutdown] + more));
            && !r.crashed && r.call.Down? && r.client == AfterClose(s.client)
            && r.crew == Crew(s.crew.threads, None, false)
  {
    var called := run + [CallShutdown];
    ShutdownEntersClose(run);
    AlwaysClosable(called + [CALL]);
    hide After, AfterClose, Closable, JoinBlocked, Live, CloseRan, AtRest;
    var closing := CallbackRunsClose(called + [CALL], ByShutdown);
    ClosedAndCleared(After(called + [CALL]), After(called + [CALL] + closing), ByShutdown);
    more := [CALL] + closing;
    AloneConcat([CALL], closing);
    Regroup(called, [CALL], closing);
  }

  lemma NeverTerminatesAlone(run: seq<Action>, p: Plan)
    requires AtRest(After(run))
    ensures ConnectResult(AfterClose(After(run).client), p).0 != Terminated
  {
    InvHolds(run);
    CurrentIsLive(After(run));
    hide After, OneThread, Live, Current;
    OnlyUnjoinedTerminates(AfterClose(After(run).client), p);
  }

  lemma OnlyUnjoinedTerminates(c: Client, p: Plan)
    ensures c.thread != Running ==> ConnectResult(c, p).0 != Terminated
  {
  }

  lemma ThreadEndsAtRest(s: State, q: State, w: Crew)
    requires forall k: nat :: !Alive(w, k)
    requires !s.crashed && s.call.NoCall?
    requires s.crew == Moved(Crew(w.threads + [Begun], Some(|w.threads|), false), |w.threads|, Leaving)
    requires Reached(s.(crew := Moved(s.crew, |w.threads|, Ended)), q, s.call, false)
    ensures AtRest(q) && !q.connecting && !q.radioError && q.client == s.client
  {
    forall k: nat ensures !Live(q, k) {
      if k < |w.threads| {
        assert !Alive(w, k);
      }
    }
  }

  /** Undisturbed, a reconnect call and its thread are the two calls, one after the other: for every way
      connect can end, the client is what connect makes of the closed one, and the node is at rest again. */
  lemma UninterruptedReconnect(run: seq<Action>, plan: Plan) returns (more: seq<Action>)
    requires AtRest(After(run))
    ensures var (s, r) := (After(run), After(run + [CallReconnect] + more));
            r.client == AfterConnect(AfterClose(s.client), plan) && AtRest(r) && !r.connecting && !r.radioError
  {
    var s := After(run);
    var n := |s.crew.threads|;
    var begun, last := run + [CallReconnect], ThreadStep(n, ALL_UP);
    NeverTerminatesAlone(run, plan);
    ClosedIsClosed(s.client);
    assert forall k: nat :: !Alive(s.crew, k) by { RestMeansNoneAlive(s); }
    hide After, AfterClose, AfterConnect, ConnectResult, AtRest, Live, Alive, Alone, Reached, Moved;
    var calls := ReconnectCallWhole(run);
    var q := After(begun + calls);
    assert ThreadAt(q, n, Begun);
    var body := ThreadRunsConnect(begun + calls, n, plan);
    BodyEnded(q, After(begun + calls + body), n, AfterConnect(q.client, plan), ConnectResult(q.client, plan).0);
    ThreadEnds(begun + calls + body, n);
    ThreadEndsAtRest(After(begun + calls + body), After(begun + calls + body + [last]), s.crew);
    more := calls + (body + [last]);
    Regroup(begun + calls, body, [last]);
    Regroup(begun, calls, body + [last]);
  }

  lemma BodyEnded(q: State, r: State, k: nat, c: Client, result: Result)
    requires BodyRan(q, r, k, (c, BodyEnd(result))) && result != Terminated
    ensures !r.crashed && r.client == c && r.call == q.call && r.radioError == q.radioError
    ensures k < |q.crew.threads| && r.crew == Moved(q.crew, k, Leaving) && ThreadAt(r, k, Leaving)
  {
  }

  lemma ClosedIsClosed(c: Client)
    ensures !AfterClose(c).running
  {
  }

  lemma RestMeansNoneAlive(s: State)
    requires AtRest(s)
    ensures forall k: nat :: !Alive(s.crew, k)
  {
    forall k: nat ensures !Alive(s.crew, k) {
      assert !Live(s, k);
    }
  }
}
