/**
 What the stopped flag is for: a child that was stopped on purpose is not taken
 for a crash, and one that crashed while it was wanted is restarted. And what it
 cannot do: a stop that marks a child already reaped leaves the flag for the next
 one, whose crash then goes unanswered.
 */
module StopFlag {
  import opened Wrappers
  import opened Supervisor
  import opened CrashLoop

  /** What is known of one child: a stop marked before its reaping is found there, and what the reaping found
      decides whether an autoRestart is started at the end. */
  ghost predicate ChildMarks(s: State, c: nat)
    requires c in s.children
  {
    match s.children[c]
    case Spawned => c !in s.stops.marked && c !in s.stops.due && c !in s.stops.spawns
    case Watched => c !in s.stops.due && c !in s.stops.spawns && (c in s.stops.marked ==> s.sh.stopped)
    case Waited => c !in s.stops.due && c !in s.stops.spawns && (c in s.stops.marked ==> s.sh.stopped)
    case Cleared(wasStopped, wanted) => Decided(s, c, wasStopped, wanted)
    case Closed(wasStopped, wanted) => Decided(s, c, wasStopped, wanted)
    case Notified(wasStopped, wanted) => Decided(s, c, wasStopped, wanted)
    case Finished => (c in s.stops.due <==> c in s.stops.spawns) && (c in s.stops.marked ==> c !in s.stops.due)
  }

  ghost predicate Decided(s: State, c: nat, wasStopped: bool, wanted: bool) {
    c !in s.stops.spawns && (c in s.stops.due <==> !wasStopped && wanted) && (c in s.stops.marked ==> wasStopped)
  }

  /** The flag says whether a stop has been marked since the last reaping. */
  ghost predicate FlagInv(s: State) {
    && s.sh.stopped == s.stops.pending
    && (forall c :: c in s.children ==> ChildMarks(s, c))
    && (forall c :: c in s.stops.marked || c in s.stops.due || c in s.stops.spawns ==> c in s.children)
  }

  /** One autoRestart for each entry of spawns, and a crash counted only for one of them. */
  ghost predicate SpawnInv(s: State) {
    && (forall i, j :: 0 <= i < j < |s.stops.spawns| ==> s.stops.spawns[i] != s.stops.spawns[j])
    && |s.stops.spawns| == s.nextAuto && (forall a: nat :: a in s.autos <==> a < s.nextAuto)
    && (forall c :: c in s.stops.crashes ==> c in s.stops.spawns)
  }

  lemma OpKeepsFlag(s: State, launches: bool, now: int)
    requires ChildInv(s) && HolderInv(s) && FlagInv(s) && s.holder.Held? && OpNext(s, launches, now).Some?
    ensures FlagInv(OpNext(s, launches, now).value)
  {
    match s.holder.pc
    case StopMark(_) => MarkKeepsFlag(s);
    case Launch => LaunchKeepsFlag(s, launches);
    case RegisterChild(_) => RegisterKeepsFlag(s, now);
    case _ => OtherPcKeepsFlag(s, launches, now);
  }

  lemma MarkKeepsFlag(s: State)
    requires ChildInv(s) && FlagInv(s) && s.holder.Held? && s.holder.pc.StopMark?
    ensures FlagInv(OpNext(s, false, 0).value)
  {
    var s' := OpNext(s, false, 0).value;
    forall c | c in s'.children ensures ChildMarks(s', c) {
      assert ChildMarks(s, c);
    }
  }

  lemma LaunchKeepsFlag(s: State, launches: bool)
    requires ChildInv(s) && FlagInv(s) && s.holder.Held? && s.holder.pc.Launch?
    ensures FlagInv(OpNext(s, launches, 0).value)
  {
    var s' := OpNext(s, launches, 0).value;
    forall c | c in s'.children ensures ChildMarks(s', c) {
      assert c in s.children ==> ChildMarks(s, c);
      assert c !in s.children ==> c == s.nextChild && s'.children[c] == Spawned;
    }
  }

  lemma RegisterKeepsFlag(s: State, now: int)
    requires HolderInv(s) && FlagInv(s) && s.holder.Held? && s.holder.pc.RegisterChild?
    ensures FlagInv(OpNext(s, true, now).value)
  {
    var s' := OpNext(s, true, now).value;
    forall c | c in s'.children ensures ChildMarks(s', c) {
      assert ChildMarks(s, c);
    }
  }

  lemma OtherPcKeepsFlag(s: State, launches: bool, now: int)
    requires FlagInv(s) && s.holder.Held? && OpNext(s, launches, now).Some?
    requires !s.holder.pc.StopMark? && !s.holder.pc.Launch? && !s.holder.pc.RegisterChild?
    ensures FlagInv(OpNext(s, launches, now).value)
  {
    var s' := OpNext(s, launches, now).value;
    OtherPcHistory(s, launches, now);
    forall c | c in s'.children ensures ChildMarks(s', c) {
      assert ChildMarks(s, c);
    }
  }

  lemma OtherPcHistory(s: State, launches: bool, now: int)
    requires s.holder.Held? && OpNext(s, launches, now).Some?
    requires !s.holder.pc.StopMark? && !s.holder.pc.Launch? && !s.holder.pc.RegisterChild?
    ensures var s' := OpNext(s, launches, now).value;
      s'.children == s.children && s'.stops == s.stops && s'.sh.stopped == s.sh.stopped
  {
  }

  lemma ReapKeepsFlag(t: Tuning, s: State, l: Label)
    requires ChildInv(s) && FlagInv(s) && l.ReaperSection? && Next(t, s, l).Some?
    ensures FlagInv(Next(t, s, l).value)
  {
    var s' := Next(t, s, l).value;
    forall c | c in s'.children ensures ChildMarks(s', c) {
      assert ChildMarks(s, c);
    }
  }

  lemma OtherKeepsFlag(t: Tuning, s: State, l: Label)
    requires FlagInv(s) && !l.OpStep? && !l.ReaperSection? && Next(t, s, l).Some?
    ensures FlagInv(Next(t, s, l).value)
  {
    var s' := Next(t, s, l).value;
    forall c | c in s'.children ensures ChildMarks(s', c) {
      assert ChildMarks(s, c);
    }
  }

  lemma OpKeepsSpawns(s: State, launches: bool, now: int)
    requires WorkInv(s) && SpawnInv(s) && s.holder.Held? && OpNext(s, launches, now).Some?
    ensures SpawnInv(OpNext(s, launches, now).value)
  {
    OpAutos(s, launches, now);
    OpHistory(s, launches, now);
  }

  lemma OpHistory(s: State, launches: bool, now: int)
    requires s.holder.Held? && OpNext(s, launches, now).Some?
    ensures var stops := OpNext(s, launches, now).value.stops;
      stops.spawns == s.stops.spawns && stops.crashes == s.stops.crashes
  {
  }

  lemma FinishKeepsSpawns(t: Tuning, s: State, c: nat)
    requires FlagInv(s) && SpawnInv(s) && Next(t, s, Finishes(c)).Some?
    ensures SpawnInv(Next(t, s, Finishes(c)).value)
  {
    assert ChildMarks(s, c);
  }

  lemma OtherKeepsSpawns(t: Tuning, s: State, l: Label)
    requires SpawnInv(s) && !l.OpStep? && !l.Finishes? && Next(t, s, l).Some?
    ensures SpawnInv(Next(t, s, l).value)
  {
  }

  lemma StepKeepsFlag(t: Tuning, s: State, l: Label)
    requires SafetyInv(s) && BreakerInv(t, s) && FlagInv(s) && SpawnInv(s) && Next(t, s, l).Some?
    ensures FlagInv(Next(t, s, l).value) && SpawnInv(Next(t, s, l).value)
  {
    match l
    case OpStep(launches, now) =>
      OpKeepsFlag(s, launches, now);
      OpKeepsSpawns(s, launches, now);
    case ReaperSection(_) =>
      ReapKeepsFlag(t, s, l);
      OtherKeepsSpawns(t, s, l);
    case Finishes(c) =>
      OtherKeepsFlag(t, s, l);
      FinishKeepsSpawns(t, s, c);
    case _ =>
      OtherKeepsFlag(t, s, l);
      OtherKeepsSpawns(t, s, l);
  }

  lemma {:induction false} RunKeepsFlag(t: Tuning, s: State, ls: seq<Label>)
    requires Sound(t, s) && FlagInv(s) && SpawnInv(s) && Run(t, s, ls).Some?
    ensures FlagInv(Run(t, s, ls).value) && SpawnInv(Run(t, s, ls).value)
    decreases |ls|
  {
    if ls != [] {
      StepKeepsFlag(t, s, ls[0]);
      StepSound(t, s, ls[0]);
      RunKeepsFlag(t, Next(t, s, ls[0]).value, ls[1..]);
    }
  }

  lemma ReachableFlag(t: Tuning, s: State)
    requires Reachable(t, s)
    ensures FlagInv(s) && SpawnInv(s)
  {
    var ls: seq<Label> :| Run(t, INIT, ls) == Some(s);
    RunKeepsFlag(t, INIT, ls);
  }

  /** In every interleaving: a child that was marked for a stop before it was reaped is not taken for a crash.
      No autoRestart is started for it and no crash counted. */
  lemma StopIsNoCrash(t: Tuning, s: State, c: nat)
    requires Reachable(t, s) && c in s.stops.marked
    ensures c !in s.stops.due && c !in s.stops.spawns && c !in s.stops.crashes
  {
    ReachableFlag(t, s);
    assert ChildMarks(s, c);
  }

  /** In every interleaving: exactly one autoRestart has been started for a child whose goroutine is over, if it
      was reaped while wanted with no stop marked since the reaping before; and none for any other. There are
      no autoRestarts but these, and only theirs are the crashes that are counted. */
  lemma CrashRestartsOnce(t: Tuning, s: State, c: nat)
    requires Reachable(t, s) && c in s.children
    ensures multiset(s.stops.spawns)[c] == if s.children[c].Finished? && c in s.stops.due then 1 else 0
    ensures |s.stops.spawns| == s.nextAuto && forall a: nat :: a in s.autos <==> a < s.nextAuto
    ensures forall x :: x in s.stops.crashes ==> x in s.stops.due
  {
    ReachableFlag(t, s);
    CountDistinct(s.stops.spawns, c);
    assert ChildMarks(s, c);
    forall x | x in s.stops.crashes ensures x in s.stops.due {
      assert ChildMarks(s, x);
    }
  }

  // ----- a stop that comes too late -----

  /** Child c dies and its goroutine comes to the reaping. */
  lemma DiesAndWaits(t: Tuning, s0: State, s: State, c: nat) returns (s': State)
    requires Leads(t, s0, s) && ChildAt(s, c).Watched? && c in s.alive
    ensures Leads(t, s0, s') && s' == s.(alive := s.alive - {c}, children := s.children[c := Waited])
  {
    var s1 := On(t, s0, s, Dies(c));
    s' := On(t, s0, s1, WaitReturns(c));
  }

  /** It is reaped, and OnExit called. */
  lemma ReapedAndNotified(t: Tuning, s0: State, s: State, c: nat) returns (s': State)
    requires Leads(t, s0, s) && ChildAt(s, c).Waited? && s.sh.desired
    ensures Leads(t, s0, s')
    ensures s' == s.(sh := Reaped(s.sh), children := s.children[c := Notified(s.sh.stopped, true)],
                     stops := s.stops.(due := s'.stops.due, pending := false), exits := s'.exits)
  {
    var s1 := On(t, s0, s, ReaperSection(c));
    var s2 := On(t, s0, s1, ClosesDone(c));
    s' := On(t, s0, s2, CallsOnExit(c));
  }

  /** The whole end of a child that dies while the worker is wanted: an autoRestart if no stop is found. */
  lemma ChildEnds(t: Tuning, s0: State, s: State, c: nat) returns (s': State)
    requires Leads(t, s0, s) && ChildAt(s, c).Watched? && c in s.alive && s.sh.desired
    ensures Leads(t, s0, s') && s'.sh == Reaped(s.sh) && s'.holder == s.holder && s'.nextChild == s.nextChild
    ensures s'.children == s.children[c := Finished] && s'.alive == s.alive - {c} && s'.stops.marked == s.stops.marked
    ensures s'.stops.spawns == (if s.sh.stopped then s.stops.spawns else s.stops.spawns + [c])
    ensures s'.autos == (if s.sh.stopped then s.autos else s.autos[s.nextAuto := Counting])
  {
    var s1 := DiesAndWaits(t, s0, s, c);
    var s2 := ReapedAndNotified(t, s0, s1, c);
    s' := On(t, s0, s2, Finishes(c));
    assert s'.children == s.children[c := Finished];
  }

  /** A first child is up, and a Restart has found it. */
  lemma RestartFinds(t: Tuning) returns (s: State)
    ensures Leads(t, INIT, s) && s.holder == Held(RestartOp, StopMark(0)) && s.nextChild == 1 && s.nextAuto == 0
    ensures s.sh.running && s.sh.desired && !s.sh.stopped
    ensures s.stops.marked == {} && s.stops.spawns == [] && s.autos == map[]
    ensures s.children == map[0 := Watched] && s.alive == {0}
  {
    s := FirstStarted(t);
    s := On(t, INIT, s, Acquire(RestartOp));
    s := On(t, INIT, s, OpStep(true, 0));
    s := On(t, INIT, s, OpStep(true, 0));
  }

  lemma FirstStarted(t: Tuning) returns (s: State)
    ensures Leads(t, INIT, s)
    ensures s == INIT.(sh := ZERO.(cmd := Some(0), running := true, desired := true, startedAt := Some(0)),
                       children := map[0 := Watched], alive := {0}, nextChild := 1)
  {
    s := FirstLaunched(t);
    s := On(t, INIT, s, OpStep(true, 0));
    s := On(t, INIT, s, OpStep(true, 0));
  }

  lemma FirstLaunched(t: Tuning) returns (s: State)
    ensures Leads(t, INIT, s)
    ensures s == INIT.(sh := ZERO.(desired := true), holder := Held(StartOp, RegisterChild(0)),
                       children := map[0 := Spawned], alive := {0}, nextChild := 1)
  {
    Stay(t, INIT);
    s := On(t, INIT, INIT, Acquire(StartOp));
    s := On(t, INIT, s, OpStep(true, 0));
    s := On(t, INIT, s, OpStep(true, 0));
    s := On(t, INIT, s, OpStep(true, 0));
  }

  /** The child crashes and is reaped before the Restart marks it: the mark outlives it. */
  lemma MarkedTooLate(t: Tuning) returns (s: State)
    ensures Leads(t, INIT, s) && s.holder == Held(RestartOp, StopWait(0)) && s.nextChild == 1
    ensures !s.sh.running && s.sh.desired && s.sh.stopped && s.stops.marked == {} && s.stops.spawns == [0]
    ensures s.children == map[0 := Finished] && s.alive == {} && s.autos == map[0 := Counting]
  {
    s := RestartFinds(t);
    s := ChildEnds(t, INIT, s, 0);
    s := On(t, INIT, s, OpStep(true, 0));
    s := On(t, INIT, s, OpStep(true, 0));
  }

  /** The restarted child is up, under the flag left from its predecessor. */
  lemma RestartedUnderFlag(t: Tuning) returns (s: State)
    ensures Leads(t, INIT, s) && s.holder == Idle && s.sh.running && s.sh.desired && s.sh.stopped
    ensures s.children == map[0 := Finished, 1 := Watched] && 1 in s.alive
    ensures s.stops.marked == {} && s.stops.spawns == [0] && s.autos == map[0 := Counting]
  {
    s := MarkedTooLate(t);
    s := On(t, INIT, s, OpStep(true, 0));
    s := RelaunchedByHand(t, s);
  }

  lemma RelaunchedByHand(t: Tuning, s: State) returns (s': State)
    requires Leads(t, INIT, s) && s.holder == Held(RestartOp, StartCheck) && !s.sh.running
    ensures Leads(t, INIT, s') && s'.holder == Idle && s'.sh.running
    ensures s'.sh.desired == s.sh.desired && s'.sh.stopped == s.sh.stopped
    ensures s'.children == s.children[s.nextChild := Watched] && s'.alive == s.alive + {s.nextChild}
    ensures s'.stops.marked == s.stops.marked && s'.stops.spawns == s.stops.spawns && s'.autos == s.autos
  {
    var s1 := ForkedByHand(t, s);
    var s2 := On(t, INIT, s1, OpStep(true, 0));
    s' := On(t, INIT, s2, OpStep(true, 0));
    assert s'.children == s.children[s.nextChild := Watched];
  }

  lemma ForkedByHand(t: Tuning, s: State) returns (s': State)
    requires Leads(t, INIT, s) && s.holder == Held(RestartOp, StartCheck) && !s.sh.running
    ensures Leads(t, INIT, s') && s'.holder == Held(RestartOp, RegisterChild(s.nextChild)) && s'.sh == s.sh
    ensures s'.children == s.children[s.nextChild := Spawned] && s'.alive == s.alive + {s.nextChild}
    ensures s'.stops.marked == s.stops.marked && s'.stops.spawns == s.stops.spawns && s'.autos == s.autos
  {
    var s1 := On(t, INIT, s, OpStep(true, 0));
    s' := On(t, INIT, s1, OpStep(true, 0));
  }

  /** The autoRestart for the first child finds the worker up, or gives up at once. */
  lemma FirstAutoGone(t: Tuning, s: State) returns (s': State)
    requires Leads(t, INIT, s) && s.holder == Idle && s.sh.running && s.autos == map[0 := Counting]
    ensures Leads(t, INIT, s') && s'.holder == Idle && s'.autos == map[0 := Done]
    ensures s'.sh.(crashAt := s.sh.crashAt, crashStreak := s.sh.crashStreak) == s.sh
    ensures s'.children == s.children && s'.alive == s.alive
    ensures s'.stops.marked == s.stops.marked && s'.stops.spawns == s.stops.spawns
  {
    s' := On(t, INIT, s, CountsCrash(0, 0, 0));
    if s'.autos[0].Sleeping? {
      s' := AutoFindsWorkerUp(t, s', 0);
    }
  }

  lemma AutoFindsWorkerUp(t: Tuning, s: State, a: nat) returns (s': State)
    requires Leads(t, INIT, s) && s.holder == Idle && s.sh.running && a in s.autos && s.autos[a].Sleeping?
    ensures Leads(t, INIT, s') && s'.holder == Idle && s'.autos == s.autos[a := Done] && s'.sh == s.sh
    ensures s'.children == s.children && s'.alive == s.alive
    ensures s'.stops.marked == s.stops.marked && s'.stops.spawns == s.stops.spawns
  {
    var s1 := On(t, INIT, s, AutoAcquire(a));
    var s2 := On(t, INIT, s1, OpStep(true, 0));
    s' := On(t, INIT, s2, OpStep(true, 0));
    assert s1.autos[a := Done] == s.autos[a := Done];
  }

  /** Its crash is taken for the stop of its predecessor. It was wanted, and nobody had marked it; yet no
      autoRestart is started for it, none is left from before, and the worker is down. */
  lemma LateMarkHidesCrash(t: Tuning) returns (s: State)
    ensures Reachable(t, s) && s.holder == Idle && 1 in s.children && s.children[1].Finished?
    ensures s.sh.desired && !s.sh.running && 1 !in s.stops.marked && 1 !in s.stops.spawns && s.autos == map[0 := Done]
  {
    s := RestartedUnderFlag(t);
    s := FirstAutoGone(t, s);
    s := ChildEnds(t, INIT, s, 1);
    assert Run(t, INIT, []) == Some(INIT);
    LeadsReachable(t, INIT, s);
  }
}
