/** What each handler of the receiver amounts to as a whole: its effect on the shared state, and what it reports, when
    nothing happens in between. */
module Handlers {
  import opened Wrappers
  import opened SpeakerAlignment
  import opened Handshake
  import opened Transcript
  import opened Submissions

  // ---------- Running a handler to its end ----------

  /** The receiver waits: in its event loop, for the outcome of dialling, or for a request. */
  predicate Settled(r: Receiver) {
    r.Run? || r.Dial? || r.Poll? || r.Stopped?
  }

  /** At most n steps of the receiver, until it waits; the account of what it reports is kept along the way. */
  function Through(c: Config, k: Control, m: Account, n: nat): (Control, Account)
    decreases n
  {
    if n == 0 || Settled(k.receiver) then (k, m) else Through(c, ReceiverStep(c, k), ObserveReceiver(c, k, m), n - 1)
  }

  /** No handler takes more steps than this. */
  const LONGEST: nat := 10

  /** An action that makes the receiver start, and the handler that it starts. */
  function Handled(c: Config, k: Control, m: Account, a: Action): (Control, Account)
    requires Enabled(k, a)
  {
    Through(c, Apply(c, k, a), Observe(c, k, m, a), LONGEST)
  }

  function Moves(n: nat): seq<Action> {
    if n == 0 then [] else [ReceiverMoves] + Moves(n - 1)
  }

  lemma FirstMove(c: Config, s: State, m: Account, moves: nat)
    requires Executable(c, Step(c, s, ReceiverMoves), Moves(moves))
    ensures Executable(c, s, Moves(moves + 1))
    ensures Execute(c, s, Moves(moves + 1)) == Execute(c, Step(c, s, ReceiverMoves), Moves(moves))
    ensures Observed(c, s, m, Moves(moves + 1)) ==
            Observed(c, Step(c, s, ReceiverMoves), ObserveReceiver(c, s.k, m), Moves(moves))
  {
    assert Moves(moves + 1)[0] == ReceiverMoves && Moves(moves + 1)[1..] == Moves(moves);
    hide ReceiverStep, ObserveReceiver, ContentStep;
  }

  lemma NoMove(c: Config, s: State, m: Account)
    ensures Executable(c, s, Moves(0)) && Execute(c, s, Moves(0)) == s && Observed(c, s, m, Moves(0)) == m
  {
  }

  lemma MovedBy(c: Config, s: State)
    ensures Enabled(s.k, ReceiverMoves) && Step(c, s, ReceiverMoves).k == ReceiverStep(c, s.k)
  {
    hide ReceiverStep, ContentStep;
  }

  /** That is a run in which nobody else moves. */
  lemma {:induction false} ThroughIsARun(c: Config, s: State, m: Account, n: nat) returns (moves: nat)
    ensures moves <= n && Executable(c, s, Moves(moves))
    ensures Through(c, s.k, m, n) == (Execute(c, s, Moves(moves)).k, Observed(c, s, m, Moves(moves)))
    decreases n
  {
    if n == 0 || Settled(s.k.receiver) {
      moves := 0;
      assert Through(c, s.k, m, n) == (s.k, m);
      hide *;
      NoMove(c, s, m);
    } else {
      OneStep(c, s.k, m, n);
      hide *;
      MovedBy(c, s);
      var rest := ThroughIsARun(c, Step(c, s, ReceiverMoves), ObserveReceiver(c, s.k, m), n - 1);
      FirstMove(c, s, m, rest);
      moves := rest + 1;
    }
  }

  lemma OneStep(c: Config, k: Control, m: Account, n: nat)
    requires n > 0 && !Settled(k.receiver)
    ensures Through(c, k, m, n) == Through(c, ReceiverStep(c, k), ObserveReceiver(c, k, m), n - 1)
  {
    hide ReceiverStep, ObserveReceiver;
  }

  lemma Waiting(c: Config, k: Control, m: Account, n: nat)
    requires Settled(k.receiver)
    ensures Through(c, k, m, n) == (k, m)
  {
  }

  // One step in each part of the program.

  lemma LoopMoves(c: Config, k: Control, m: Account, n: nat)
    requires n > 0 && (k.receiver.AfterRun? || k.receiver.Crash? || k.receiver.EndClear?)
    ensures Through(c, k, m, n) == Through(c, LoopStep(k), m, n - 1)
  {
    OneStep(c, k, m, n);
    hide Through, LoopStep;
  }

  lemma StartupMoves(c: Config, k: Control, m: Account, n: nat)
    requires n > 0 && Startup(k.receiver) && !k.receiver.Dial?
    ensures Through(c, k, m, n) == Through(c, StartupStep(k), m, n - 1)
  {
    OneStep(c, k, m, n);
    hide Through, StartupStep;
  }

  lemma CompletionMoves(c: Config, k: Control, m: Account, n: nat)
    requires n > 0 && Completing(k.receiver)
    ensures Through(c, k, m, n) == Through(c, CompletionStep(c, k), ObserveReceiver(c, k, m), n - 1)
  {
    OneStep(c, k, m, n);
    hide Through, CompletionStep, ObserveReceiver;
  }

  lemma CloseMoves(c: Config, k: Control, m: Account, n: nat)
    requires n > 0 && ClosingUp(k.receiver)
    ensures Through(c, k, m, n) == Through(c, CloseStep(c, k), ObserveReceiver(c, k, m), n - 1)
  {
    OneStep(c, k, m, n);
    hide Through, CloseStep, ObserveReceiver;
  }

  lemma ErrorMoves(c: Config, k: Control, m: Account, n: nat)
    requires n > 0 && (k.receiver.ErrorLoad? || k.receiver.ErrorSend?)
    ensures Through(c, k, m, n) == Through(c, ErrorStep(k), ObserveReceiver(c, k, m), n - 1)
  {
    OneStep(c, k, m, n);
    hide Through, ErrorStep, ObserveReceiver;
  }

  predicate Branching(r: Receiver) {
    r.Greet? || r.ErrorStore? || r.UttFlush? || r.UttLoad? || r.UttWrite? || r.Label?
  }

  lemma BranchingSteps(c: Config, k: Control)
    requires Branching(k.receiver)
    ensures !Settled(k.receiver) && ReceiverStep(c, k) == MessageStep(c, k)
  {
    hide MessageStep, LoopStep, StartupStep, CompletionStep, CloseStep, ErrorStep;
  }

  lemma MessageMoves(c: Config, k: Control, m: Account, n: nat)
    requires n > 0 && Branching(k.receiver)
    ensures Through(c, k, m, n) == Through(c, MessageStep(c, k), ObserveReceiver(c, k, m), n - 1)
  {
    BranchingSteps(c, k);
    hide *;
    OneStep(c, k, m, n);
  }

  // ---------- The end of a connection ----------

  /** One more marker, if a conversation is marked. */
  function Marks(marked: nat, ended: bool): nat {
    if ended then marked + 1 else marked
  }

  lemma FromEndClear(c: Config, k: Control, m: Account, n: nat)
    requires k.receiver == EndClear && n >= 1
    ensures Through(c, k, m, n) == (k.(recent := None, receiver := Poll), m)
  {
    var k1 := k.(recent := None, receiver := Poll);
    assert LoopStep(k) == k1 && Settled(k1.receiver);
    hide *;
    LoopMoves(c, k, m, n);
    Waiting(c, k1, m, n - 1);
  }

  lemma AfterRunMoves(c: Config, k: Control, m: Account, n: nat)
    requires k.receiver == AfterRun && n > 0
    ensures Through(c, k, m, n) == Through(c, k.(receiver := EndClear), m, n - 1)
  {
    assert LoopStep(k) == k.(receiver := EndClear);
    hide LoopStep, Through, ObserveReceiver;
    LoopMoves(c, k, m, n);
  }

  lemma FromAfterRun(c: Config, k: Control, m: Account, n: nat)
    requires k.receiver == AfterRun && n >= 2
    ensures Through(c, k, m, n) == (k.(recent := None, receiver := Poll), m)
  {
    hide *;
    AfterRunMoves(c, k, m, n);
    FromEndClear(c, k.(receiver := EndClear), m, n - 1);
  }

  lemma CrashMoves(c: Config, k: Control, m: Account, n: nat)
    requires k.receiver == Crash && n > 0
    ensures Through(c, k, m, n) == Through(c, k.(ws := Crashed, receiver := EndClear), m, n - 1)
  {
    assert LoopStep(k) == k.(ws := Crashed, receiver := EndClear);
    hide LoopStep, Through, ObserveReceiver;
    LoopMoves(c, k, m, n);
  }

  lemma FromCrash(c: Config, k: Control, m: Account, n: nat)
    requires k.receiver == Crash && n >= 2
    ensures Through(c, k, m, n) == (k.(ws := Crashed, recent := None, receiver := Poll), m)
  {
    hide *;
    CrashMoves(c, k, m, n);
    FromEndClear(c, k.(ws := Crashed, receiver := EndClear), m, n - 1);
  }

  lemma CloseStoreMoves(c: Config, k: Control, m: Account, n: nat)
    requires k.receiver == CloseStore && n > 0
    ensures Through(c, k, m, n) == Through(c, k.(ws := Closed, receiver := AfterRun), m, n - 1)
  {
    assert ClosingUp(k.receiver) && CloseStep(c, k) == k.(ws := Closed, receiver := AfterRun);
    assert ObserveReceiver(c, k, m) == m;
    hide CloseStep, Through, ObserveReceiver;
    CloseMoves(c, k, m, n);
  }

  lemma FromCloseStore(c: Config, k: Control, m: Account, n: nat)
    requires k.receiver == CloseStore && n >= 3
    ensures Through(c, k, m, n) == (k.(ws := Closed, recent := None, receiver := Poll), m)
  {
    hide *;
    CloseStoreMoves(c, k, m, n);
    FromAfterRun(c, k.(ws := Closed, receiver := AfterRun), m, n - 1);
  }

  lemma CloseClearMoves(c: Config, k: Control, m: Account, n: nat)
    requires k.receiver == CloseClear && n > 0
    ensures Through(c, k, m, n) == Through(c, k.(recent := None, receiver := CloseStore), m, n - 1)
  {
    assert ClosingUp(k.receiver) && CloseStep(c, k) == k.(recent := None, receiver := CloseStore);
    assert ObserveReceiver(c, k, m) == m;
    hide CloseStep, Through, ObserveReceiver;
    CloseMoves(c, k, m, n);
  }

  lemma FromCloseClear(c: Config, k: Control, m: Account, n: nat)
    requires k.receiver == CloseClear && n >= 4
    ensures Through(c, k, m, n) == (k.(ws := Closed, recent := None, receiver := Poll), m)
  {
    hide *;
    CloseClearMoves(c, k, m, n);
    FromCloseStore(c, k.(recent := None, receiver := CloseStore), m, n - 1);
  }

  lemma CloseMarkerMoves(c: Config, k: Control, m: Account, n: nat)
    requires k.receiver == CloseMarker && n > 0
    ensures Through(c, k, m, n) == Through(c, k.(marked := Marks(k.marked, true), receiver := CloseClear), m, n - 1)
  {
    assert ClosingUp(k.receiver) && CloseStep(c, k) == k.(marked := Marks(k.marked, true), receiver := CloseClear);
    assert ObserveReceiver(c, k, m) == m;
    hide CloseStep, Through, ObserveReceiver;
    CloseMoves(c, k, m, n);
  }

  lemma FromCloseMarker(c: Config, k: Control, m: Account, n: nat)
    requires k.receiver == CloseMarker && n >= 5
    ensures Through(c, k, m, n) == (k.(ws := Closed, recent := None, marked := Marks(k.marked, true), receiver := Poll), m)
  {
    hide *;
    CloseMarkerMoves(c, k, m, n);
    FromCloseClear(c, k.(marked := Marks(k.marked, true), receiver := CloseClear), m, n - 1);
  }

  lemma FromCloseDone(c: Config, k: Control, m: Account, n: nat, t: TupleId)
    requires k.receiver == CloseDone(t) && n >= 6
    ensures Through(c, k, m, n) ==
      (k.(ws := Closed, recent := None, marked := Marks(k.marked, true), receiver := Poll),
       Reporting(m, Completion(t in m.faulty)))
  {
    var k1, m1 := k.(receiver := CloseMarker), Reporting(m, Completion(t in m.faulty));
    assert ClosingUp(k.receiver) && CloseStep(c, k) == k1 && ObserveReceiver(c, k, m) == m1;
    hide *;
    CloseMoves(c, k, m, n);
    FromCloseMarker(c, k1, m1, n - 1);
  }

  /** A conversation that still has a tuple is reported completed, if such reports are requested. */
  function Completed(c: Config, recent: Option<TupleId>, m: Account): Account {
    if recent.Some? && c.completedRequested then Reporting(m, Completion(recent.value in m.faulty)) else m
  }

  /** What remains of on_close: a conversation that still has a tuple gets its completion and its marker. */
  lemma FromCloseLoad(c: Config, k: Control, m: Account, n: nat)
    requires k.receiver == CloseLoad && n >= 7
    ensures Through(c, k, m, n) ==
      (k.(ws := Closed, recent := None, marked := Marks(k.marked, k.recent.Some?), receiver := Poll),
       Completed(c, k.recent, m))
  {
    hide Through, ObserveReceiver, Reporting;
    NoMark(k.marked);
    ClosingObserves(c, k, m);
    CloseMoves(c, k, m, n);
    if k.recent == None {
      FromCloseClear(c, k.(receiver := CloseClear), m, n - 1);
    } else if c.completedRequested {
      FromCloseDone(c, k.(receiver := CloseDone(k.recent.value)), m, n - 1, k.recent.value);
    } else {
      FromCloseMarker(c, k.(receiver := CloseMarker), m, n - 1);
    }
  }

  lemma ClosingObserves(c: Config, k: Control, m: Account)
    requires k.receiver == CloseLoad
    ensures ObserveReceiver(c, k, m) == m
  {
  }

  // ---------- Setting up a connection ----------

  /** A connection that could not be established. */
  lemma DialFailed(c: Config, k: Control, m: Account)
    requires k.receiver == Dial
    ensures Handled(c, k, m, Dialled(false)) == (k.(ws := Failed, recent := None, receiver := Poll), m)
  {
    hide Through, LoopStep, CompletionStep, CloseStep, ErrorStep, MessageStep, ObserveReceiver;
    var k1 := k.(receiver := FailRecent);
    var k2 := k1.(recent := None, receiver := FailStore);
    var k3 := k2.(ws := Failed, receiver := AfterRun);
    assert Handled(c, k, m, Dialled(false)) == Through(c, k1, m, LONGEST) && LONGEST == 10;
    assert Startup(k1.receiver) && Startup(k2.receiver) && StartupStep(k1) == k2 && StartupStep(k2) == k3;
    hide *;
    StartupMoves(c, k1, m, LONGEST);
    StartupMoves(c, k2, m, LONGEST - 1);
    FromAfterRun(c, k3, m, LONGEST - 2);
  }

  /** A connection that was established: on_open sends the start message. */
  lemma DialSucceeded(c: Config, k: Control, m: Account)
    requires k.receiver == Dial
    ensures Handled(c, k, m, Dialled(true)) ==
      (k.(ws := Open, handle := k.client, line := AwaitGreeting, receiver := Run), m)
  {
    hide LoopStep, CompletionStep, CloseStep, ErrorStep, MessageStep;
  }

  /** A requested connection is dialled with a new client. */
  lemma StartTaken(c: Config, k: Control, m: Account)
    requires k.receiver == Poll && k.ws == Start
    ensures Handled(c, k, m, ReceiverMoves) ==
      (k.(ws := Connecting, used := None, client := k.client + 1, receiver := Dial), m)
  {
    hide CompletionStep, CloseStep, ErrorStep, MessageStep;
  }

  // ---------- The answer to a stop ----------

  lemma FromFinalize(c: Config, k: Control, m: Account, n: nat)
    requires k.receiver == Finalize && n >= 1
    ensures Through(c, k, m, n) == (k.(finalized := true, receiver := Run), m)
  {
    var k1 := k.(finalized := true, receiver := Run);
    assert Completing(k.receiver) && CompletionStep(c, k) == k1 && Settled(k1.receiver);
    assert ObserveReceiver(c, k, m) == m;
    hide *;
    CompletionMoves(c, k, m, n);
    Waiting(c, k1, m, n - 1);
  }

  lemma DoneMarkerMoves(c: Config, k: Control, m: Account, n: nat)
    requires k.receiver == DoneMarker && n > 0
    ensures Through(c, k, m, n) == Through(c, k.(marked := Marks(k.marked, true), receiver := Finalize), m, n - 1)
  {
    assert Completing(k.receiver) && CompletionStep(c, k) == k.(marked := Marks(k.marked, true), receiver := Finalize);
    assert ObserveReceiver(c, k, m) == m;
    hide CompletionStep, Through, ObserveReceiver;
    CompletionMoves(c, k, m, n);
  }

  lemma FromDoneMarker(c: Config, k: Control, m: Account, n: nat)
    requires k.receiver == DoneMarker && n >= 2
    ensures Through(c, k, m, n) == (k.(finalized := true, marked := Marks(k.marked, true), receiver := Run), m)
  {
    hide *;
    DoneMarkerMoves(c, k, m, n);
    FromFinalize(c, k.(marked := Marks(k.marked, true), receiver := Finalize), m, n - 1);
  }

  lemma DoneClearMoves(c: Config, k: Control, m: Account, n: nat)
    requires k.receiver == DoneClear && n > 0
    ensures Through(c, k, m, n) == Through(c, k.(recent := None, receiver := DoneMarker), m, n - 1)
  {
    assert Completing(k.receiver) && CompletionStep(c, k) == k.(recent := None, receiver := DoneMarker);
    assert ObserveReceiver(c, k, m) == m;
    hide CompletionStep, Through, ObserveReceiver;
    CompletionMoves(c, k, m, n);
  }

  lemma FromDoneClear(c: Config, k: Control, m: Account, n: nat)
    requires k.receiver == DoneClear && n >= 3
    ensures Through(c, k, m, n) ==
      (k.(recent := None, finalized := true, marked := Marks(k.marked, true), receiver := Run), m)
  {
    hide *;
    DoneClearMoves(c, k, m, n);
    FromDoneMarker(c, k.(recent := None, receiver := DoneMarker), m, n - 1);
  }

  lemma FromDoneSend(c: Config, k: Control, m: Account, n: nat, t: TupleId)
    requires k.receiver == DoneSend(t) && n >= 4
    ensures Through(c, k, m, n) ==
      (k.(recent := None, finalized := true, marked := Marks(k.marked, true), receiver := Run),
       Reporting(m, Completion(t in m.faulty)))
  {
    var k1, m1 := k.(receiver := DoneClear), Reporting(m, Completion(t in m.faulty));
    assert Completing(k.receiver) && CompletionStep(c, k) == k1 && ObserveReceiver(c, k, m) == m1;
    hide *;
    CompletionMoves(c, k, m, n);
    FromDoneClear(c, k1, m1, n - 1);
  }

  lemma FromDoneLoad(c: Config, k: Control, m: Account, n: nat)
    requires k.receiver == DoneLoad && n >= 5 && c.completedRequested
    ensures Through(c, k, m, n) ==
      (k.(recent := None, finalized := true, marked := Marks(k.marked, true), receiver := Run), Completed(c, k.recent, m))
  {
    hide Through, Reporting;
    CompletionMoves(c, k, m, n);
    if k.recent == None {
      FromDoneClear(c, k.(receiver := DoneClear), m, n - 1);
    } else {
      FromDoneSend(c, k.(receiver := DoneSend(k.recent.value)), m, n - 1, k.recent.value);
    }
  }

  /** A result that waits is reported, without labels. */
  function WithoutWaiting(used: Option<TupleId>, m: Account): Account {
    Released(m, WaitingTuple(used), None)
  }

  lemma FlushMoves(c: Config, k: Control, m: Account, n: nat)
    requires k.receiver == Flush && n > 0
    ensures Through(c, k, m, n) ==
      Through(c, k.(used := None, receiver := if c.completedRequested then DoneLoad else DoneClear),
              WithoutWaiting(k.used, m), n - 1)
  {
    hide Through, Released;
    assert ObserveReceiver(c, k, m) == WithoutWaiting(k.used, m);
    hide ObserveReceiver, WithoutWaiting;
    CompletionMoves(c, k, m, n);
  }

  lemma FromFlush(c: Config, k: Control, m: Account, n: nat)
    requires k.receiver == Flush && n >= 6
    ensures Through(c, k, m, n) ==
      (k.(used := None, recent := None, finalized := true, marked := Marks(k.marked, true), receiver := Run),
       Completed(c, k.recent, WithoutWaiting(k.used, m)))
  {
    var m1 := WithoutWaiting(k.used, m);
    hide Through, WithoutWaiting, Reporting;
    FlushMoves(c, k, m, n);
    if c.completedRequested {
      FromDoneLoad(c, k.(used := None, receiver := DoneLoad), m1, n - 1);
    } else {
      FromDoneClear(c, k.(used := None, receiver := DoneClear), m1, n - 1);
    }
  }

  lemma CallCloseMoves(c: Config, k: Control, m: Account, n: nat)
    requires k.receiver == CallClose && n > 0
    ensures Through(c, k, m, n) == Through(c, k.(receiver := Flush), m, n - 1)
  {
    assert Completing(k.receiver) && CompletionStep(c, k) == k.(receiver := Flush) && ObserveReceiver(c, k, m) == m;
    hide CompletionStep, Through, ObserveReceiver;
    CompletionMoves(c, k, m, n);
  }

  lemma FromCallClose(c: Config, k: Control, m: Account, n: nat)
    requires k.receiver == CallClose && n >= 7
    ensures Through(c, k, m, n) ==
      (k.(used := None, recent := None, finalized := true, marked := Marks(k.marked, true), receiver := Run),
       Completed(c, k.recent, WithoutWaiting(k.used, m)))
  {
    hide *;
    CallCloseMoves(c, k, m, n);
    FromFlush(c, k.(receiver := Flush), m, n - 1);
  }

  lemma StoreClosingMoves(c: Config, k: Control, m: Account, n: nat)
    requires k.receiver == StoreClosing && n > 0
    ensures Through(c, k, m, n) == Through(c, k.(ws := Closing, receiver := CallClose), m, n - 1)
  {
    assert Completing(k.receiver) && CompletionStep(c, k) == k.(ws := Closing, receiver := CallClose);
    assert ObserveReceiver(c, k, m) == m;
    hide CompletionStep, Through, ObserveReceiver;
    CompletionMoves(c, k, m, n);
  }

  lemma FromStoreClosing(c: Config, k: Control, m: Account, n: nat)
    requires k.receiver == StoreClosing && n >= 8
    ensures Through(c, k, m, n) ==
      (k.(ws := Closing, used := None, recent := None, finalized := true, marked := Marks(k.marked, true), receiver := Run),
       Completed(c, k.recent, WithoutWaiting(k.used, m)))
  {
    hide *;
    StoreClosingMoves(c, k, m, n);
    FromCallClose(c, k.(ws := Closing, receiver := CallClose), m, n - 1);
  }

  lemma TestQueuedMoves(c: Config, k: Control, m: Account, n: nat)
    requires k.receiver == TestQueued && n > 0
    ensures Through(c, k, m, n) == Through(c, k.(receiver := if k.queued then Flush else StoreClosing), m, n - 1)
  {
    assert Completing(k.receiver) && CompletionStep(c, k) == k.(receiver := if k.queued then Flush else StoreClosing);
    assert ObserveReceiver(c, k, m) == m;
    hide CompletionStep, Through, ObserveReceiver;
    CompletionMoves(c, k, m, n);
  }

  lemma FromTestQueued(c: Config, k: Control, m: Account, n: nat)
    requires k.receiver == TestQueued && n >= 9
    ensures Through(c, k, m, n) ==
      (k.(ws := if k.queued then k.ws else Closing, used := None, recent := None, finalized := true,
          marked := Marks(k.marked, true), receiver := Run),
       Completed(c, k.recent, WithoutWaiting(k.used, m)))
  {
    hide *;
    TestQueuedMoves(c, k, m, n);
    if k.queued {
      FromFlush(c, k.(receiver := Flush), m, n - 1);
    } else {
      FromStoreClosing(c, k.(receiver := StoreClosing), m, n - 1);
    }
  }

  lemma RunsThrough(c: Config, k: Control, m: Account, a: Action, k1: Control, m1: Account)
    requires Enabled(k, a) && Apply(c, k, a) == k1 && Observe(c, k, m, a) == m1
    ensures Handled(c, k, m, a) == Through(c, k1, m1, LONGEST)
  {
    hide Through, Apply, Observe, Enabled;
  }

  /** An acceptable message leaves the account with its utterance and labels. */
  function Heard(m: Account, msg: Message): Account
    requires msg.Decoded?
  {
    m.(heard := msg.utterance, labels := msg.labels)
  }

  /** A `listening` on an open connection. */
  lemma GreetingHandled(c: Config, k: Control, m: Account, msg: Message)
    requires k.receiver == Run && k.ws == Open && Expected(k.line, msg)
    requires Acceptable(k.ws, msg) && msg.state.Some?
    ensures Handled(c, k, m, Message(msg)) == (k.(ws := Listening, line := Talking), Heard(m, msg))
  {
    var k1 := k.(line := Talking, receiver := Greet);
    assert Apply(c, k, Message(msg)) == k1 && Observe(c, k, m, Message(msg)) == Heard(m, msg);
    assert Enabled(k, Message(msg));
    assert LONGEST == 10;
    hide *;
    RunsThrough(c, k, m, Message(msg), k1, Heard(m, msg));
    GreetMoves(c, k1, Heard(m, msg), LONGEST);
    RunWaits(c, k1.(ws := Listening, receiver := Run), Heard(m, msg), LONGEST - 1);
  }

  lemma GreetMoves(c: Config, k: Control, m: Account, n: nat)
    requires k.receiver == Greet && n > 0
    ensures Through(c, k, m, n) == Through(c, k.(ws := Listening, receiver := Run), m, n - 1)
  {
    assert Branching(k.receiver) && MessageStep(c, k) == k.(ws := Listening, receiver := Run);
    assert ObserveReceiver(c, k, m) == m;
    hide MessageStep, Through, ObserveReceiver;
    MessageMoves(c, k, m, n);
  }

  lemma RunWaits(c: Config, k: Control, m: Account, n: nat)
    requires k.receiver == Run
    ensures Through(c, k, m, n) == (k, m)
  {
  }

  /** A `listening` that answers a stop: the waiting result and the completion are reported, the conversation is marked and
      final, and the connection is closed unless another conversation is queued. */
  lemma CompletionHandled(c: Config, k: Control, m: Account, msg: Message)
    requires k.receiver == Run && k.ws == Listening && Expected(k.line, msg)
    requires Acceptable(k.ws, msg) && msg.state.Some?
    ensures Handled(c, k, m, Message(msg)) ==
      (k.(ws := if k.queued then Listening else Closing, used := None, recent := None, finalized := true,
          marked := Marks(k.marked, true), line := Talking),
       Completed(c, k.recent, WithoutWaiting(k.used, Heard(m, msg))))
  {
    assert LONGEST == 10 && msg.Decoded?;
    hide *;
    var k1 := k.(line := Talking, receiver := TestQueued);
    ListeningArrives(c, k, m, msg);
    RunsThrough(c, k, m, Message(msg), k1, Heard(m, msg));
    FromTestQueued(c, k1, Heard(m, msg), LONGEST);
  }

  lemma ListeningArrives(c: Config, k: Control, m: Account, msg: Message)
    requires k.receiver == Run && k.ws == Listening && Expected(k.line, msg)
    requires Acceptable(k.ws, msg) && msg.state.Some?
    ensures Enabled(k, Message(msg)) && Apply(c, k, Message(msg)) == k.(line := Talking, receiver := TestQueued)
    ensures Observe(c, k, m, Message(msg)) == Heard(m, msg)
  {
  }

  // ---------- Errors ----------

  /** The error is reported with the result that waits, or by itself if there is a tuple for it. */
  function WithError(used: Option<TupleId>, recent: Option<TupleId>, m: Account): Account {
    var m1 := ReleasedWithError(m, WaitingTuple(used));
    if used == None && recent.Some? then Reporting(m1, ErrorReport).(faulty := m1.faulty - {recent.value}) else m1
  }

  lemma ErrorStoreMoves(c: Config, k: Control, m: Account, n: nat)
    requires k.receiver == ErrorStore && n > 0
    ensures Through(c, k, m, n) == Through(c, k.(ws := Error, receiver := Run), m, n - 1)
  {
    assert Branching(k.receiver) && MessageStep(c, k) == k.(ws := Error, receiver := Run);
    assert ObserveReceiver(c, k, m) == m;
    hide MessageStep, Through, ObserveReceiver;
    MessageMoves(c, k, m, n);
  }

  lemma ErrorLoadMoves(c: Config, k: Control, m: Account, n: nat, closing: bool)
    requires k.receiver == ErrorLoad(closing) && n > 0
    ensures Through(c, k, m, n) ==
      Through(c, k.(used := None, receiver := if k.used == None && k.recent.Some? then ErrorSend(k.recent.value, closing)
                                              else AfterError(closing)),
              ReleasedWithError(m, WaitingTuple(k.used)), n - 1)
  {
    hide Through, ReleasedWithError;
    assert ObserveReceiver(c, k, m) == ReleasedWithError(m, WaitingTuple(k.used));
    hide ObserveReceiver;
    ErrorMoves(c, k, m, n);
  }

  lemma ErrorSendMoves(c: Config, k: Control, m: Account, n: nat, t: TupleId, closing: bool)
    requires k.receiver == ErrorSend(t, closing) && n > 0
    ensures Through(c, k, m, n) ==
      Through(c, k.(receiver := AfterError(closing)), Reporting(m, ErrorReport).(faulty := m.faulty - {t}), n - 1)
  {
    hide Through, Reporting;
    assert ObserveReceiver(c, k, m) == Reporting(m, ErrorReport).(faulty := m.faulty - {t});
    hide ObserveReceiver;
    ErrorMoves(c, k, m, n);
  }

  lemma FromErrorLoad(c: Config, k: Control, m: Account, n: nat, closing: bool) returns (n1: nat)
    requires k.receiver == ErrorLoad(closing) && n >= 3
    ensures n - 2 <= n1 < n
    ensures Through(c, k, m, n) ==
      Through(c, k.(used := None, receiver := AfterError(closing)), WithError(k.used, k.recent, m), n1)
  {
    hide Through, ReleasedWithError, Reporting, WaitingTuple, AfterError;
    var m1 := ReleasedWithError(m, WaitingTuple(k.used));
    ErrorLoadMoves(c, k, m, n, closing);
    if k.used == None && k.recent.Some? {
      var t := k.recent.value;
      ErrorSendMoves(c, k.(used := None, receiver := ErrorSend(t, closing)), m1, n - 1, t, closing);
      n1 := n - 2;
    } else {
      n1 := n - 1;
    }
  }

  /** An error message. */
  lemma ErrorHandled(c: Config, k: Control, m: Account, msg: Message)
    requires k.receiver == Run && Expected(k.line, msg) && Acceptable(k.ws, msg) && msg.error
    ensures Handled(c, k, m, Message(msg)) ==
      (k.(ws := Error, used := None, smooth := false), WithError(k.used, k.recent, Heard(m, msg)))
  {
    var k1 := k.(receiver := ErrorLoad(false), smooth := false);
    assert Apply(c, k, Message(msg)) == k1 && Observe(c, k, m, Message(msg)) == Heard(m, msg);
    assert Enabled(k, Message(msg));
    assert AfterError(false) == ErrorStore;
    assert LONGEST == 10;
    hide *;
    RunsThrough(c, k, m, Message(msg), k1, Heard(m, msg));
    var n1 := FromErrorLoad(c, k1, Heard(m, msg), LONGEST, false);
    var k2 := k1.(used := None, receiver := ErrorStore);
    ErrorStoreMoves(c, k2, WithError(k.used, k.recent, Heard(m, msg)), n1);
    RunWaits(c, k2.(ws := Error, receiver := Run), WithError(k.used, k.recent, Heard(m, msg)), n1 - 1);
  }

  /** The connection closes: an error is reported if it was listening, and a conversation that still has a tuple is
      completed and marked if it was listening or an error had come. */
  lemma CloseHandled(c: Config, k: Control, m: Account)
    requires k.receiver == Run
    ensures var owed := k.recent.Some? && (k.ws == Listening || k.ws == Error);
      Handled(c, k, m, ConnectionCloses) ==
      (k.(ws := Closed, used := if k.ws == Listening then None else k.used, recent := None,
          marked := Marks(k.marked, owed), receiver := Poll, line := Down, smooth := k.smooth && k.ws == Closing),
       if k.ws == Listening then Completed(c, k.recent, WithError(k.used, k.recent, m))
       else if k.ws == Error then Completed(c, k.recent, m)
       else m)
  {
    hide *;
    ClosedWhileListening(c, k, m);
    ClosedAfterError(c, k, m);
    ClosedOtherwise(c, k, m);
    NoMark(k.marked);
  }

  lemma NoMark(marked: nat)
    ensures Marks(marked, false) == marked
  {
  }

  lemma CloseArrives(c: Config, k: Control, m: Account)
    requires k.receiver == Run
    ensures Enabled(k, ConnectionCloses) && Observe(c, k, m, ConnectionCloses) == m
    ensures Apply(c, k, ConnectionCloses) ==
      k.(receiver := if k.ws == Listening then ErrorLoad(true) else if k.ws == Error then CloseLoad else CloseClear,
         line := Down, smooth := k.smooth && k.ws == Closing)
  {
  }

  lemma ClosedWhileListening(c: Config, k: Control, m: Account)
    requires k.receiver == Run
    ensures k.ws == Listening ==>
      Handled(c, k, m, ConnectionCloses) == (
        k.(ws := Closed, used := None, recent := None, marked := Marks(k.marked, k.recent.Some?), receiver := Poll,
           line := Down, smooth := false),
        Completed(c, k.recent, WithError(k.used, k.recent, m)))
  {
    hide *;
    if k.ws == Listening {
      var k1 := k.(receiver := ErrorLoad(true), line := Down, smooth := false);
      CloseArrives(c, k, m);
      RunsThrough(c, k, m, ConnectionCloses, k1, m);
      FromListeningClose(c, k1, m);
    }
  }

  lemma ClosedAfterError(c: Config, k: Control, m: Account)
    requires k.receiver == Run
    ensures k.ws == Error ==>
      Handled(c, k, m, ConnectionCloses) == (
        k.(ws := Closed, recent := None, marked := Marks(k.marked, k.recent.Some?), receiver := Poll,
           line := Down, smooth := false),
        Completed(c, k.recent, m))
  {
    assert LONGEST == 10;
    hide *;
    if k.ws == Error {
      var k1 := k.(receiver := CloseLoad, line := Down, smooth := false);
      CloseArrives(c, k, m);
      RunsThrough(c, k, m, ConnectionCloses, k1, m);
      FromCloseLoad(c, k1, m, LONGEST);
    }
  }

  lemma ClosedOtherwise(c: Config, k: Control, m: Account)
    requires k.receiver == Run
    ensures k.ws != Listening && k.ws != Error ==>
      Handled(c, k, m, ConnectionCloses) == (
        k.(ws := Closed, recent := None, receiver := Poll, line := Down, smooth := k.smooth && k.ws == Closing), m)
  {
    assert LONGEST == 10;
    hide *;
    if k.ws != Listening && k.ws != Error {
      var k1 := k.(receiver := CloseClear, line := Down, smooth := k.smooth && k.ws == Closing);
      CloseArrives(c, k, m);
      RunsThrough(c, k, m, ConnectionCloses, k1, m);
      FromCloseClear(c, k1, m, LONGEST);
    }
  }

  lemma FromListeningClose(c: Config, k: Control, m: Account)
    requires k.receiver == ErrorLoad(true)
    ensures Through(c, k, m, LONGEST) ==
      (k.(ws := Closed, used := None, recent := None, marked := Marks(k.marked, k.recent.Some?), receiver := Poll),
       Completed(c, k.recent, WithError(k.used, k.recent, m)))
  {
    var k1 := k.(used := None, receiver := CloseLoad);
    assert AfterError(true) == CloseLoad;
    assert LONGEST == 10;
    hide *;
    var n1 := FromErrorLoad(c, k, m, LONGEST, true);
    FromCloseLoad(c, k1, WithError(k.used, k.recent, m), n1);
  }

  /** A throw: what waits is lost, and the receiver is back at its loop. */
  lemma FaultHandled(c: Config, k: Control, m: Account)
    requires MayFail(k.receiver)
    ensures Handled(c, k, m, Fault) ==
      (k.(ws := Crashed, recent := None, line := Down, smooth := false, receiver := Poll), Lost(m))
  {
    var k1 := k.(receiver := Crash, line := Down, smooth := false);
    assert Apply(c, k, Fault) == k1 && Observe(c, k, m, Fault) == Lost(m) && Enabled(k, Fault);
    assert LONGEST == 10;
    hide *;
    RunsThrough(c, k, m, Fault, k1, Lost(m));
    FromCrash(c, k1, Lost(m), LONGEST);
  }

  /** ... and so for a message that is not acceptable. */
  lemma RefusedHandled(c: Config, k: Control, m: Account, msg: Message)
    requires k.receiver == Run && Expected(k.line, msg) && !Acceptable(k.ws, msg)
    ensures Handled(c, k, m, Message(msg)) ==
      (k.(ws := Crashed, recent := None, line := Down, smooth := false, receiver := Poll), Lost(m))
  {
    var k1 := k.(receiver := Crash, line := Down, smooth := false);
    assert Apply(c, k, Message(msg)) == k1 && Observe(c, k, m, Message(msg)) == Lost(m) && Enabled(k, Message(msg));
    assert LONGEST == 10;
    hide *;
    RunsThrough(c, k, m, Message(msg), k1, Lost(m));
    FromCrash(c, k1, Lost(m), LONGEST);
  }

  // ---------- Utterances and labels ----------

  lemma UttFlushMoves(c: Config, k: Control, m: Account, n: nat, u: Utterance, l: Option<SpeakerLabels>)
    requires k.receiver == UttFlush(u, l) && n > 0
    ensures Through(c, k, m, n) == Through(c, k.(used := None, receiver := UttLoad(u, l)), WithoutWaiting(k.used, m), n - 1)
  {
    hide Through, Released;
    assert ObserveReceiver(c, k, m) == WithoutWaiting(k.used, m);
    hide ObserveReceiver, WithoutWaiting;
    MessageMoves(c, k, m, n);
  }

  lemma UttLoadMoves(c: Config, k: Control, m: Account, n: nat, u: Utterance, l: Option<SpeakerLabels>)
    requires k.receiver == UttLoad(u, l) && n > 0
    ensures k.recent.Some? ==> Through(c, k, m, n) == Through(c, k.(receiver := UttWrite(k.recent.value, u, l)), m, n - 1)
    ensures k.recent == None ==>
      Through(c, k, m, n) == Through(c, k.(receiver := Crash, line := Down, smooth := false), Lost(m), n - 1)
  {
    hide Through, Lost;
    assert ObserveReceiver(c, k, m) == if k.recent == None then Lost(m) else m;
    hide ObserveReceiver;
    MessageMoves(c, k, m, n);
  }

  lemma UttWriteMoves(c: Config, k: Control, m: Account, n: nat, t: TupleId, u: Utterance, l: Option<SpeakerLabels>)
    requires k.receiver == UttWrite(t, u, l) && n > 0
    ensures Through(c, k, m, n) ==
      Through(c, k.(used := if IsFinal(c, u) && c.identifySpeakers then Some(t) else k.used,
                    receiver := if l == None then Run else Label(l.value)),
              Uttered(c, m, t), n - 1)
  {
    hide Through, Uttered, IsFinal;
    assert ObserveReceiver(c, k, m) == Uttered(c, m, t);
    hide ObserveReceiver;
    MessageMoves(c, k, m, n);
  }

  lemma FromLabel(c: Config, k: Control, m: Account, n: nat, l: SpeakerLabels)
    requires k.receiver == Label(l) && n > 0
    ensures Through(c, k, m, n) ==
      (k.(used := if c.identifySpeakers then None else k.used, receiver := Run),
       if c.identifySpeakers then Released(m, WaitingTuple(k.used), m.labels) else m)
  {
    hide Through, Released, WaitingTuple;
    assert ObserveReceiver(c, k, m) == if c.identifySpeakers then Released(m, WaitingTuple(k.used), m.labels) else m;
    hide ObserveReceiver;
    MessageMoves(c, k, m, n);
    RunWaits(c, k.(used := if c.identifySpeakers then None else k.used, receiver := Run),
             if c.identifySpeakers then Released(m, WaitingTuple(k.used), m.labels) else m, n - 1);
  }

  /** Labels by themselves go to the waiting result. */
  lemma LabelsHandled(c: Config, k: Control, m: Account, msg: Message)
    requires k.receiver == Run && Expected(k.line, msg) && Acceptable(k.ws, msg) && msg.utterance == None && msg.labels.Some?
    ensures Handled(c, k, m, Message(msg)) ==
      if c.identifySpeakers then (k.(used := None), Released(Heard(m, msg), WaitingTuple(k.used), msg.labels))
      else (k, Heard(m, msg))
  {
    var k1 := k.(receiver := Label(msg.labels.value));
    assert Apply(c, k, Message(msg)) == k1 && Observe(c, k, m, Message(msg)) == Heard(m, msg);
    assert Enabled(k, Message(msg)) && Heard(m, msg).labels == msg.labels;
    assert LONGEST == 10;
    hide *;
    RunsThrough(c, k, m, Message(msg), k1, Heard(m, msg));
    FromLabel(c, k1, Heard(m, msg), LONGEST, msg.labels.value);
  }

  /** A message that says nothing changes nothing. */
  lemma NothingHandled(c: Config, k: Control, m: Account, msg: Message)
    requires k.receiver == Run && Expected(k.line, msg) && Acceptable(k.ws, msg)
    requires msg.state == None && !msg.error && msg.utterance == None && msg.labels == None
    ensures Handled(c, k, m, Message(msg)) == (k, Heard(m, msg))
  {
    assert Apply(c, k, Message(msg)) == k && Observe(c, k, m, Message(msg)) == Heard(m, msg) && Enabled(k, Message(msg));
    assert LONGEST == 10;
    hide *;
    RunsThrough(c, k, m, Message(msg), k, Heard(m, msg));
    RunWaits(c, k, Heard(m, msg), LONGEST);
  }

  /** The result that waits in tuple t, if there is one. */
  function WaitingReport(m: Account, t: TupleId): seq<Report> {
    if m.waiting.Some? then [FinalResult(m.waiting.value, t in m.faulty, None)] else []
  }

  /** What an utterance adds: a final result, unless it has to wait for labels, or an interim one if such are needed. */
  function UtteranceReport(c: Config, u: Utterance, labels: Option<SpeakerLabels>, fault: bool): seq<Report> {
    if c.complete || u.firstFinal then
      if !c.identifySpeakers then [FinalResult(u.result, fault, None)]
      else if labels.Some? then [FinalResult(u.result, fault, labels)]
      else []
    else if c.nonFinalNeeded then [InterimResult(u.result, fault)]
    else []
  }

  predicate MustWait(c: Config, u: Utterance, labels: Option<SpeakerLabels>) {
    (c.complete || u.firstFinal) && c.identifySpeakers && labels == None
  }

  lemma FromUttWrite(c: Config, k: Control, m: Account, n: nat, t: TupleId, u: Utterance, l: Option<SpeakerLabels>)
    requires k.receiver == UttWrite(t, u, l) && k.used == None && n >= 2
    requires m.heard == Some(u) && m.labels == l && m.waiting == None
    ensures Through(c, k, m, n) ==
      (k.(used := if MustWait(c, u, l) then Some(t) else None, receiver := Run),
       m.(waiting := if MustWait(c, u, l) then Some(u.result) else None,
          reports := m.reports + UtteranceReport(c, u, l, t in m.faulty)))
  {
    hide Through;
    assert m.reports + [] == m.reports;
    UttWriteMoves(c, k, m, n, t, u, l);
    var m1 := Uttered(c, m, t);
    var k1 := k.(used := if IsFinal(c, u) && c.identifySpeakers then Some(t) else k.used,
                 receiver := if l == None then Run else Label(l.value));
    if l == None {
      RunWaits(c, k1, m1, n - 1);
    } else {
      FromLabel(c, k1, m1, n - 1, l.value);
      if c.identifySpeakers && IsFinal(c, u) {
        assert Released(m1, t, l) == m.(reports := m.reports + [FinalResult(u.result, t in m.faulty, l)]);
      }
    }
  }

  /** An utterance, with or without its labels, for a conversation that has a tuple. */
  lemma UtteranceHandled(c: Config, k: Control, m: Account, msg: Message)
    requires k.receiver == Run && Expected(k.line, msg) && Acceptable(k.ws, msg) && msg.utterance.Some? && k.recent.Some?
    ensures var u, t := msg.utterance.value, k.recent.value;
      Handled(c, k, m, Message(msg)) ==
      (k.(used := if MustWait(c, u, msg.labels) then Some(t) else None),
       Heard(m, msg).(waiting := if MustWait(c, u, msg.labels) then Some(u.result) else None,
                      reports := m.reports + WaitingReport(m, WaitingTuple(k.used))
                                 + UtteranceReport(c, u, msg.labels, t in m.faulty)))
  {
    assert LONGEST == 10 && msg.Decoded?;
    hide *;
    var u, t, l := msg.utterance.value, k.recent.value, msg.labels;
    var m1 := Heard(m, msg);
    UtteranceArrives(c, k, m, msg);
    var k1 := k.(receiver := UttFlush(u, l));
    RunsThrough(c, k, m, Message(msg), k1, m1);
    UttFlushMoves(c, k1, m1, LONGEST, u, l);
    var k2, m2 := k1.(used := None, receiver := UttLoad(u, l)), WithoutWaiting(k1.used, m1);
    UttLoadMoves(c, k2, m2, LONGEST - 1, u, l);
    ReleasedFirst(m, msg, k.used);
    FromUttWrite(c, k2.(receiver := UttWrite(t, u, l)), m2, LONGEST - 2, t, u, l);
  }

  lemma UtteranceArrives(c: Config, k: Control, m: Account, msg: Message)
    requires k.receiver == Run && Expected(k.line, msg) && Acceptable(k.ws, msg) && msg.utterance.Some?
    ensures Enabled(k, Message(msg)) && Observe(c, k, m, Message(msg)) == Heard(m, msg)
    ensures Apply(c, k, Message(msg)) == k.(receiver := UttFlush(msg.utterance.value, msg.labels))
  {
    AcceptableUtterance(k.ws, msg);
  }

  lemma AcceptableUtterance(ws: WsState, msg: Message)
    requires Acceptable(ws, msg) && msg.utterance.Some?
    ensures msg.state == None && !msg.error
  {
  }

  lemma ReleasedFirst(m: Account, msg: Message, used: Option<TupleId>)
    requires msg.Decoded?
    ensures WithoutWaiting(used, Heard(m, msg)) ==
      Heard(m, msg).(waiting := None, reports := m.reports + WaitingReport(m, WaitingTuple(used)))
    ensures var m1 := Heard(m, msg); m1.heard == msg.utterance && m1.labels == msg.labels && m1.faulty == m.faulty
  {
    assert m.reports + [] == m.reports;
  }

  /** ... and for one that has none any more: the receiver throws, after it has reported what waited. */
  lemma HomelessUtteranceHandled(c: Config, k: Control, m: Account, msg: Message)
    requires k.receiver == Run && Expected(k.line, msg) && Acceptable(k.ws, msg) && msg.utterance.Some? && k.recent == None
    ensures Handled(c, k, m, Message(msg)) ==
      (k.(ws := Crashed, used := None, line := Down, smooth := false, receiver := Poll),
       WithoutWaiting(k.used, Heard(m, msg)))
  {
    assert LONGEST == 10 && msg.Decoded?;
    hide *;
    var u, l, m1 := msg.utterance.value, msg.labels, Heard(m, msg);
    UtteranceArrives(c, k, m, msg);
    var k1 := k.(receiver := UttFlush(u, l));
    RunsThrough(c, k, m, Message(msg), k1, m1);
    UttFlushMoves(c, k1, m1, LONGEST, u, l);
    var k2, m2 := k1.(used := None, receiver := UttLoad(u, l)), WithoutWaiting(k1.used, m1);
    UttLoadMoves(c, k2, m2, LONGEST - 1, u, l);
    FromCrash(c, k2.(receiver := Crash, line := Down, smooth := false), Lost(m2), LONGEST - 2);
    NothingLost(k.used, m1);
  }

  lemma NothingLost(used: Option<TupleId>, m: Account)
    ensures Lost(WithoutWaiting(used, m)) == WithoutWaiting(used, m)
  {
  }
}
