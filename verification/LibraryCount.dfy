/** The MQTT client's library reference count, with every constructor and destructor split into its
    atomic counter step and the library call that may follow it. */
module LibraryCount {

  datatype Phase =
    | InitPending     // raised the counter from 0 and has yet to call mosquitto_lib_init
    | Alive           // constructed
    | CleanupPending  // lowered the counter to 0 and has yet to call mosquitto_lib_cleanup
    | Gone

  datatype Library = Library(counter: int, clients: seq<Phase>, inits: nat, cleanups: nat)

  function Count(s: Library, p: Phase): nat {
    multiset(s.clients)[p]
  }

  /** A step names the client that takes it; a new client takes the next number. */
  datatype Action = Construct | CallInit(k: nat) | Destroy(k: nat) | CallCleanup(k: nat)

  const START := Library(0, [], 0, 0)

  function Move(s: Library, k: nat, p: Phase): Library
    requires k < |s.clients|
  {
    s.(clients := s.clients[k := p])
  }

  predicate At(s: Library, k: nat, p: Phase) {
    k < |s.clients| && s.clients[k] == p
  }

  /** One atomic step; a step that is not possible changes nothing. */
  function Apply(s: Library, a: Action): Library {
    match a
    case Construct =>
      s.(counter := s.counter + 1, clients := s.clients + [if s.counter == 0 then InitPending else Alive])
    case CallInit(k) =>
      if At(s, k, InitPending) then Move(s, k, Alive).(inits := s.inits + 1) else s
    case Destroy(k) =>
      if At(s, k, Alive)
      then Move(s, k, if s.counter == 1 then CleanupPending else Gone).(counter := s.counter - 1)
      else s
    case CallCleanup(k) =>
      if At(s, k, CleanupPending) then Move(s, k, Gone).(cleanups := s.cleanups + 1) else s
  }

  /** The state after any interleaving of any number of clients' steps. */
  function After(run: seq<Action>): Library {
    if run == [] then START else Apply(After(run[..|run| - 1]), run[|run| - 1])
  }

  ghost predicate Balanced(s: Library) {
    && s.counter == Count(s, InitPending) + Count(s, Alive)
    && s.inits + Count(s, InitPending) - s.cleanups - Count(s, CleanupPending) == (if s.counter > 0 then 1 else 0)
    && Count(s, InitPending) <= 1
  }

  lemma MoveCounts(s: Library, k: nat, p: Phase)
    requires k < |s.clients|
    ensures forall q :: Count(Move(s, k, p), q) ==
                        Count(s, q) - (if s.clients[k] == q then 1 else 0) + (if p == q then 1 else 0)
  {
  }

  lemma BirthCounts(s: Library, p: Phase)
    ensures forall q :: Count(s.(clients := s.clients + [p]), q) == Count(s, q) + (if p == q then 1 else 0)
  {
  }

  lemma SameCounts(s: Library, r: Library)
    requires s.clients == r.clients
    ensures forall q :: Count(s, q) == Count(r, q)
  {
  }

  lemma StepKeepsBalance(s: Library, a: Action)
    requires Balanced(s)
    ensures Balanced(Apply(s, a))
  {
    hide Count;
    match a {
      case Construct =>
        var born := s.(clients := s.clients + [if s.counter == 0 then InitPending else Alive]);
        BirthCounts(s, if s.counter == 0 then InitPending else Alive);
        SameCounts(born, Apply(s, a));
      case CallInit(k) =>
        if At(s, k, InitPending) {
          MoveCounts(s, k, Alive);
          SameCounts(Move(s, k, Alive), Apply(s, a));
        }
      case Destroy(k) =>
        if At(s, k, Alive) {
          MoveCounts(s, k, if s.counter == 1 then CleanupPending else Gone);
          SameCounts(Move(s, k, if s.counter == 1 then CleanupPending else Gone), Apply(s, a));
        }
      case CallCleanup(k) =>
        if At(s, k, CleanupPending) {
          MoveCounts(s, k, Gone);
          SameCounts(Move(s, k, Gone), Apply(s, a));
        }
    }
  }

  /** In every interleaving the counter is the number of clients between their two counter steps, and
      inits issued or pending exceed cleanups issued or pending by one while it is positive. */
  lemma {:induction false} EveryRunIsBalanced(run: seq<Action>)
    ensures Balanced(After(run))
  {
    if run == [] {
    } else {
      EveryRunIsBalanced(run[..|run| - 1]);
      StepKeepsBalance(After(run[..|run| - 1]), run[|run| - 1]);
    }
  }

  /** Once no library call is outstanding the library has been initialised exactly if a client exists. */
  lemma QuietLibrary(run: seq<Action>)
    requires Count(After(run), InitPending) == 0 && Count(After(run), CleanupPending) == 0
    ensures After(run).inits - After(run).cleanups == (if exists k: nat :: At(After(run), k, Alive) then 1 else 0)
  {
    EveryRunIsBalanced(run);
    AliveCounted(After(run));
  }

  lemma AliveCounted(s: Library)
    ensures Count(s, Alive) > 0 <==> exists k: nat :: At(s, k, Alive)
  {
    if Count(s, Alive) > 0 {
      assert Alive in multiset(s.clients);
      var k :| 0 <= k < |s.clients| && s.clients[k] == Alive;
      assert At(s, k, Alive);
    }
  }

  /** A constructed client does not imply an initialised library: it fails exactly while the first
      client's init, and no cleanup, is outstanding. */
  lemma UninitialisedExactly(run: seq<Action>, k: nat)
    requires At(After(run), k, Alive)
    ensures After(run).inits <= After(run).cleanups <==>
            Count(After(run), InitPending) == 1 && Count(After(run), CleanupPending) == 0
  {
    EveryRunIsBalanced(run);
    AliveCounted(After(run));
  }

  // ---------- every step has its effect ----------

  lemma AfterOneMore(run: seq<Action>, a: Action)
    ensures After(run + [a]) == Apply(After(run), a)
  {
    assert (run + [a])[..|run|] == run;
  }

  /** Client `k` is between its two counter steps. */
  predicate Counted(s: Library, k: nat) {
    At(s, k, InitPending) || At(s, k, Alive)
  }

  lemma OnlyOneCounted(s: Library, k: nat)
    requires Balanced(s) && Counted(s, k)
    ensures s.counter >= 1
    ensures s.counter == 1 <==> forall j: nat :: Counted(s, j) ==> j == k
  {
    var rest := Move(s, k, Gone);
    MoveCounts(s, k, Gone);
    SomeoneCounted(rest);
    assert forall j: nat :: Counted(rest, j) <==> Counted(s, j) && j != k;
  }

  lemma SomeoneCounted(s: Library)
    ensures Count(s, InitPending) + Count(s, Alive) > 0 <==> exists k: nat :: Counted(s, k)
  {
    AliveCounted(s);
    if Count(s, InitPending) > 0 {
      assert InitPending in multiset(s.clients);
      var k :| 0 <= k < |s.clients| && s.clients[k] == InitPending;
      assert Counted(s, k);
    }
    if Count(s, Alive) > 0 {
      var k: nat :| At(s, k, Alive);
      assert Counted(s, k);
    }
  }

  /** Destroying a client ends its life and lowers the counter by one; it leaves a cleanup to be made
      exactly when no other client is counted. */
  lemma DestroyTakesEffect(run: seq<Action>, k: nat)
    requires At(After(run), k, Alive)
    ensures var (s, r) := (After(run), After(run + [Destroy(k)]));
            && r.counter == s.counter - 1 && r.inits == s.inits && r.cleanups == s.cleanups
            && |r.clients| == |s.clients|
            && (forall j: nat :: j < |s.clients| && j != k ==> r.clients[j] == s.clients[j])
            && (At(r, k, CleanupPending) <==> forall j: nat :: Counted(s, j) ==> j == k)
            && (At(r, k, Gone) <==> exists j: nat :: Counted(s, j) && j != k)
  {
    EveryRunIsBalanced(run);
    AfterOneMore(run, Destroy(k));
    OnlyOneCounted(After(run), k);
    hide After, Balanced, Counted;
  }

  /** A new client raises the counter by one, and has an init to make exactly when no client is counted. */
  lemma ConstructTakesEffect(run: seq<Action>)
    ensures var (s, r) := (After(run), After(run + [Construct]));
            && r.counter == s.counter + 1 && r.inits == s.inits && r.cleanups == s.cleanups
            && |r.clients| == |s.clients| + 1 && r.clients[..|s.clients|] == s.clients
            && (At(r, |s.clients|, InitPending) <==> forall j: nat :: !Counted(s, j))
            && (At(r, |s.clients|, Alive) <==> exists j: nat :: Counted(s, j))
  {
    EveryRunIsBalanced(run);
    AfterOneMore(run, Construct);
    SomeoneCounted(After(run));
    hide After, Counted, Count;
  }

  /** A pending library call can be made, and completes its constructor or destructor. */
  lemma PendingCallsTakeEffect(run: seq<Action>, k: nat)
    ensures At(After(run), k, InitPending) ==>
              var (s, r) := (After(run), After(run + [CallInit(k)]));
              At(r, k, Alive) && r.inits == s.inits + 1 && r.cleanups == s.cleanups && r.counter == s.counter
    ensures At(After(run), k, CleanupPending) ==>
              var (s, r) := (After(run), After(run + [CallCleanup(k)]));
              At(r, k, Gone) && r.cleanups == s.cleanups + 1 && r.inits == s.inits && r.counter == s.counter
  {
    AfterOneMore(run, CallInit(k));
    AfterOneMore(run, CallCleanup(k));
    hide After;
  }

  /** The steps its clients have still to take. */
  function Work(s: Library): nat {
    3 * Count(s, InitPending) + 2 * Count(s, Alive) + Count(s, CleanupPending)
  }

  /** The next step of a client that is not gone. */
  function NextStep(s: Library, k: nat): Action
    requires k < |s.clients|
  {
    match s.clients[k]
    case InitPending => CallInit(k)
    case Alive => Destroy(k)
    case _ => CallCleanup(k)
  }

  lemma NextStepWorks(s: Library, k: nat)
    requires k < |s.clients| && s.clients[k] != Gone
    ensures Work(Apply(s, NextStep(s, k))) < Work(s)
  {
    var r := Apply(s, NextStep(s, k));
    MoveCounts(s, k, r.clients[k]);
    SameCounts(Move(s, k, r.clients[k]), r);
    hide Count;
  }

  lemma AllGoneMeansIdle(s: Library)
    requires Balanced(s) && forall k: nat :: k < |s.clients| ==> s.clients[k] == Gone
    ensures s.counter == 0 && s.inits == s.cleanups
  {
    assert forall p :: p in multiset(s.clients) ==> p == Gone;
  }

  /** From every run, its clients can finish without a new one being constructed: then none is left, the
      counter is zero and every init has its cleanup. */
  lemma {:induction false} EveryRunWindsDown(run: seq<Action>) returns (more: seq<Action>)
    ensures forall a :: a in more ==> !a.Construct?
    ensures var s := After(run + more);
            && (forall k: nat :: k < |s.clients| ==> s.clients[k] == Gone)
            && s.counter == 0 && s.inits == s.cleanups
    decreases Work(After(run))
  {
    hide After, Work, Count;
    more := [];
    assert run + more == run;
    var s := After(run);
    if k: nat :| k < |s.clients| && s.clients[k] != Gone {
      var a := NextStep(s, k);
      NextStepWorks(s, k);
      AfterOneMore(run, a);
      var rest := EveryRunWindsDown(run + [a]);
      more := [a] + rest;
      assert run + more == run + [a] + rest;
    } else {
      EveryRunIsBalanced(run);
      AllGoneMeansIdle(s);
    }
  }

  /** Such a run: a second client is complete before the first has called the library. */
  lemma SecondClientComesFirst()
    ensures At(After([Construct, Construct]), 1, Alive) && After([Construct, Construct]).inits == 0
  {
    var run := [Construct, Construct];
    assert run[..1] == [Construct] && run[..1][..0] == [];
    assert After([Construct]) == Library(1, [InitPending], 0, 0);
  }
}
