/**
 The worker supervisor of internal/controller/supervisor.go: lifecycle operations
 under opMu, one reaper goroutine per child, delayed auto-restart goroutines and
 the crash-loop breaker. The class holds the fields that stMu guards, one method
 per critical section; the state machine interleaves those sections, and the
 channel and process events between them, in every order the code allows.
 */
module Supervisor {
  import opened Wrappers

  // ----- the fields under stMu, and the critical sections -----

  datatype Shared = Shared(
    cmd: Option<nat>, running: bool, desired: bool, stopped: bool, startedAt: Option<int>,
    crashAt: Option<int>, crashStreak: nat)

  const ZERO := Shared(None, false, false, false, None, None, 0)

  function Desiring(sh: Shared, want: bool): Shared {
    sh.(desired := want)
  }

  function MarkedStopped(sh: Shared): Shared {
    sh.(stopped := true)
  }

  /** What an auto-restart looks at once it has the lock. */
  predicate RestartWanted(sh: Shared) { sh.desired && !sh.running }

  function Registered(sh: Shared, child: nat, now: int): Shared {
    sh.(cmd := Some(child), running := true, startedAt := Some(now))
  }

  function Reaped(sh: Shared): Shared {
    sh.(stopped := false, running := false, cmd := None, startedAt := None)
  }

  /** A crash more than window after the last one starts a new streak. */
  predicate StartsStreak(sh: Shared, now: int, window: int) {
    sh.crashAt.None? || now - sh.crashAt.value > window
  }

  function Counted(sh: Shared, since: int, now: int, window: int): Shared {
    sh.(crashStreak := (if StartsStreak(sh, since, window) then 0 else sh.crashStreak) + 1, crashAt := Some(now))
  }

  class Fields {
    var cmd: Option<nat>
    var running: bool
    var desired: bool
    var stopped: bool
    var startedAt: Option<int>
    var crashAt: Option<int>
    var crashStreak: nat

    constructor ()
      ensures View() == ZERO
    {
      cmd, running, desired, stopped, startedAt, crashAt, crashStreak := None, false, false, false, None, None, 0;
    }

    function View(): Shared
      reads this
    {
      Shared(cmd, running, desired, stopped, startedAt, crashAt, crashStreak)
    }

    method SetDesired(want: bool)
      modifies this
      ensures View() == Desiring(old(View()), want)
      ensures desired == want && unchanged(`cmd, `running, `stopped, `startedAt, `crashAt, `crashStreak)
    {
      desired := want;
    }

    method MarkStopped()
      modifies this
      ensures View() == MarkedStopped(old(View()))
      ensures stopped && unchanged(`cmd, `running, `desired, `startedAt, `crashAt, `crashStreak)
    {
      stopped := true;
    }

    method Register(child: nat, now: int)
      modifies this
      ensures View() == Registered(old(View()), child, now)
      ensures cmd == Some(child) && running && startedAt == Some(now)
      ensures unchanged(`desired, `stopped, `crashAt, `crashStreak)
    {
      cmd, running, startedAt := Some(child), true, Some(now);
    }

    method Reap() returns (wasStopped: bool, wanted: bool)
      modifies this
      ensures View() == Reaped(old(View()))
      ensures wasStopped == old(stopped) && wanted == old(desired)
      ensures !stopped && !running && cmd == None && startedAt == None && unchanged(`desired, `crashAt, `crashStreak)
    {
      wasStopped := stopped;
      stopped := false;
      running, cmd, startedAt := false, None, None;
      wanted := desired;
    }

    method CountCrash(since: int, now: int, window: int) returns (streak: nat)
      modifies this
      ensures View() == Counted(old(View()), since, now, window)
      ensures streak == crashStreak && crashAt == Some(now)
      ensures crashStreak ==
        if old(crashAt).Some? && since - old(crashAt).value <= window then old(crashStreak) + 1 else 1
      ensures unchanged(`cmd, `running, `desired, `stopped, `startedAt)
    {
      if crashAt.None? || since - crashAt.value > window {
        crashStreak := 0;
      }
      crashStreak := crashStreak + 1;
      crashAt := Some(now);
      streak := crashStreak;
    }

    method StillWanted() returns (wanted: bool)
      ensures wanted <==> RestartWanted(View())
      ensures wanted <==> desired && !running
    {
      wanted := desired && !running;
    }
  }

  // ----- the state machine -----

  datatype OpKind = StartOp | StopOp | RestartOp | AutoOp(auto: nat)

  /** Where the operation that holds opMu stands. */
  datatype OpPc =
    | SetDesired | StopSnapshot | StopMark(child: nat) | StopSignal(child: nat) | StopWait(child: nat)
    | CheckWanted | StartCheck | Launch | RegisterChild(child: nat) | Return

  datatype Holder = Idle | Held(kind: OpKind, pc: OpPc)

  /** Where a child's supervise goroutine stands. */
  datatype ChildPc =
    | Spawned                                          // forked, not yet in cmd/running
    | Watched                                          // registered, in Wait
    | Waited                                           // Wait returned, before the critical section
    | Cleared(wasStopped: bool, wanted: bool)          // section done, done channel still open
    | Closed(wasStopped: bool, wanted: bool)           // done closed, OnExit still to come
    | Notified(wasStopped: bool, wanted: bool)         // OnExit returned
    | Finished

  /** An autoRestart goroutine, with the streak number and the epoch its crash was counted in. */
  datatype Auto = Counting | Sleeping(epoch: nat, streak: nat) | Working(epoch: nat, streak: nat) | Done

  /** A successful launch by autoRestart: which goroutine, how its crash was counted, and in which epoch it ran. */
  datatype Relaunch = Relaunch(auto: nat, epoch: nat, streak: nat, during: nat)

  /** History of the stopped flag: the children marked for a stop before they were reaped, whether a stop has
      been marked since the last reaping, the children reaped while wanted with no stop marked since the reaping
      before, the child that each autoRestart was started for, and the children whose crash was counted. */
  datatype Stops = Stops(marked: set<nat>, pending: bool, due: set<nat>, spawns: seq<nat>, crashes: seq<nat>)

  /** The last six fields record history: OnExit calls, the number of streak resets so far, the goroutines
      pending at the last reset, the relaunches, whether Stop returned with no Start or Restart since, and
      the stops. */
  datatype State = State(
    sh: Shared, holder: Holder, children: map<nat, ChildPc>, alive: set<nat>, autos: map<nat, Auto>,
    nextChild: nat, nextAuto: nat,
    exits: seq<nat>, epoch: nat, carried: set<nat>, relaunches: seq<Relaunch>, quiet: bool, stops: Stops)

  const INIT := State(ZERO, Idle, map[], {}, map[], 0, 0, [], 0, {}, [], false, Stops({}, false, {}, [], []))

  datatype Tuning = Tuning(window: int, max: nat)

  datatype Label =
    | Acquire(kind: OpKind)
    | AutoAcquire(auto: nat)
    | OpStep(launches: bool, now: int)
    | Dies(child: nat)
    | WaitReturns(child: nat)
    | ReaperSection(child: nat)
    | ClosesDone(child: nat)
    | CallsOnExit(child: nat)
    | Finishes(child: nat)
    | CountsCrash(auto: nat, since: int, now: int)

  predicate Pending(a: Auto) { a.Sleeping? || a.Working? }

  predicate DoneClosed(pc: ChildPc) { pc.Closed? || pc.Notified? || pc.Finished? }

  function AfterStop(kind: OpKind): OpPc {
    if kind.RestartOp? then StartCheck else Return
  }

  function ChildAt(s: State, c: nat): ChildPc {
    if c in s.children then s.children[c] else Finished
  }

  predicate Unreaped(pc: ChildPc) { pc.Spawned? || pc.Watched? || pc.Waited? }

  function StopMarked(s: State, c: nat): Stops {
    s.stops.(marked := if Unreaped(ChildAt(s, c)) then s.stops.marked + {c} else s.stops.marked, pending := true)
  }

  function ChildReaped(s: State, c: nat): Stops {
    s.stops.(due := if s.sh.desired && !s.stops.pending then s.stops.due + {c} else s.stops.due, pending := false)
  }

  function CrashCounted(stops: Stops, a: nat): Stops {
    stops.(crashes := stops.crashes + if a < |stops.spawns| then [stops.spawns[a]] else [])
  }

  /** One step of the goroutine that holds opMu. */
  function OpNext(s: State, launches: bool, now: int): Option<State>
    requires s.holder.Held?
  {
    var Held(kind, pc) := s.holder;
    match pc
    case SetDesired =>
      Some(s.(sh := Desiring(s.sh, !kind.StopOp?),
              holder := Held(kind, if kind.StartOp? then StartCheck else StopSnapshot)))
    case StopSnapshot =>
      if !s.sh.running then Some(s.(holder := Held(kind, AfterStop(kind))))
      else if s.sh.cmd.None? then None
      else Some(s.(holder := Held(kind, StopMark(s.sh.cmd.value))))
    case StopMark(c) =>
      Some(s.(sh := MarkedStopped(s.sh), holder := Held(kind, StopSignal(c)), stops := StopMarked(s, c)))
    case StopSignal(c) => Some(s.(holder := Held(kind, StopWait(c))))
    case StopWait(c) =>
      if c in s.children && DoneClosed(s.children[c]) then Some(s.(holder := Held(kind, AfterStop(kind)))) else None
    case CheckWanted => Some(s.(holder := Held(kind, if RestartWanted(s.sh) then StartCheck else Return)))
    case StartCheck => Some(s.(holder := Held(kind, if s.sh.running then Return else Launch)))
    case Launch =>
      if !launches then Some(s.(holder := Held(kind, Return)))
      else
        var c := s.nextChild;
        Some(s.(children := s.children[c := Spawned], alive := s.alive + {c}, nextChild := c + 1,
                holder := Held(kind, RegisterChild(c)),
                relaunches := s.relaunches +
                  if kind.AutoOp? && kind.auto in s.autos && s.autos[kind.auto].Working? then
                    [Relaunch(kind.auto, s.autos[kind.auto].epoch, s.autos[kind.auto].streak, s.epoch)]
                  else []))
    case RegisterChild(c) =>
      Some(s.(sh := Registered(s.sh, c, now), children := s.children[c := Watched], holder := Held(kind, Return)))
    case Return =>
      Some(s.(holder := Idle, quiet := s.quiet || kind.StopOp?,
              autos := if kind.AutoOp? then s.autos[kind.auto := Done] else s.autos))
  }

  function Next(t: Tuning, s: State, l: Label): Option<State> {
    match l
    case Acquire(kind) =>
      if s.holder.Idle? && !kind.AutoOp? then
        Some(s.(holder := Held(kind, SetDesired), quiet := s.quiet && kind.StopOp?))
      else None
    case AutoAcquire(a) =>
      if s.holder.Idle? && a in s.autos && s.autos[a].Sleeping? then
        Some(s.(holder := Held(AutoOp(a), CheckWanted),
                autos := s.autos[a := Working(s.autos[a].epoch, s.autos[a].streak)]))
      else None
    case OpStep(launches, now) => if s.holder.Held? then OpNext(s, launches, now) else None
    case Dies(c) => if c in s.alive then Some(s.(alive := s.alive - {c})) else None
    case WaitReturns(c) =>
      if ChildAt(s, c).Watched? && c !in s.alive then Some(s.(children := s.children[c := Waited])) else None
    case ReaperSection(c) =>
      if ChildAt(s, c).Waited? then
        Some(s.(sh := Reaped(s.sh), children := s.children[c := Cleared(s.sh.stopped, s.sh.desired)],
                stops := ChildReaped(s, c)))
      else None
    case ClosesDone(c) =>
      if ChildAt(s, c).Cleared? then
        Some(s.(children := s.children[c := Closed(s.children[c].wasStopped, s.children[c].wanted)]))
      else None
    case CallsOnExit(c) =>
      if ChildAt(s, c).Closed? then
        Some(s.(children := s.children[c := Notified(s.children[c].wasStopped, s.children[c].wanted)],
                exits := s.exits + [c]))
      else None
    case Finishes(c) =>
      if ChildAt(s, c).Notified? then
        var spawn := !s.children[c].wasStopped && s.children[c].wanted;
        Some(s.(children := s.children[c := Finished],
                autos := if spawn then s.autos[s.nextAuto := Counting] else s.autos,
                stops := s.stops.(spawns := s.stops.spawns + if spawn then [c] else []),
                nextAuto := if spawn then s.nextAuto + 1 else s.nextAuto))
      else None
    case CountsCrash(a, since, now) =>
      if a in s.autos && s.autos[a].Counting? then
        var reset := StartsStreak(s.sh, since, t.window);
        var sh := Counted(s.sh, since, now, t.window);
        var epoch := if reset then s.epoch + 1 else s.epoch;
        Some(s.(sh := sh, epoch := epoch, stops := CrashCounted(s.stops, a),
                carried := if reset then (set x | x in s.autos && Pending(s.autos[x])) else s.carried,
                autos := s.autos[a := if sh.crashStreak > t.max then Done else Sleeping(epoch, sh.crashStreak)]))
      else None
  }

  /** Runs a script of labels from s; None if some label is not enabled. */
  function Run(t: Tuning, s: State, ls: seq<Label>): Option<State>
    decreases |ls|
  {
    if ls == [] then Some(s)
    else
      var s' := Next(t, s, ls[0]);
      if s'.None? then None else Run(t, s'.value, ls[1..])
  }

  ghost predicate Reachable(t: Tuning, s: State) {
    exists ls: seq<Label> :: Run(t, INIT, ls) == Some(s)
  }

  // ----- what every interleaving keeps -----

  /** running and cmd describe the one child between registration and the reaper's section; a child
      still unregistered belongs to the operation that is launching it. */
  ghost predicate ChildInv(s: State) {
    && (s.sh.running <==> s.sh.cmd.Some?) && (s.sh.running <==> s.sh.startedAt.Some?)
    && (s.sh.running ==> ChildAt(s, s.sh.cmd.value).Watched? || ChildAt(s, s.sh.cmd.value).Waited?)
    && (forall c :: c in s.children ==> c < s.nextChild)
    && (forall c :: c in s.children && (s.children[c].Watched? || s.children[c].Waited?) ==> s.sh.cmd == Some(c))
    && (forall c :: c in s.children && s.children[c].Spawned? ==> s.holder.Held? && s.holder.pc == RegisterChild(c))
    && (forall c :: c in s.alive ==> ChildAt(s, c).Spawned? || ChildAt(s, c).Watched?)
  }

  ghost predicate HolderInv(s: State) {
    s.holder.Held? ==>
      var Held(kind, pc) := s.holder;
      && (pc.Launch? || pc.RegisterChild? ==> !s.sh.running)
      && (pc.RegisterChild? ==> ChildAt(s, pc.child).Spawned?)
      && (pc.StopMark? || pc.StopSignal? || pc.StopWait? ==>
            (kind.StopOp? || kind.RestartOp?) && (s.sh.running ==> s.sh.cmd == Some(pc.child)))
      && (pc.StopSnapshot? ==> kind.StopOp? || kind.RestartOp?)
      && (pc.SetDesired? ==> !kind.AutoOp?)
      && (kind.StopOp? ==> pc.SetDesired? || !s.sh.desired)
      && (kind.StopOp? ==> !pc.StartCheck? && !pc.Launch? && !pc.RegisterChild? && !pc.CheckWanted?)
      && (kind.StopOp? && pc.Return? ==> !s.sh.running)
      && (pc.CheckWanted? ==> kind.AutoOp?)
  }

  ghost predicate QuietInv(s: State) {
    s.quiet ==>
      && !s.sh.desired && !s.sh.running
      && (s.holder.Held? ==>
            || (s.holder.kind.StopOp? && (s.holder.pc.SetDesired? || s.holder.pc.StopSnapshot? || s.holder.pc.Return?))
            || (s.holder.kind.AutoOp? && (s.holder.pc.CheckWanted? || s.holder.pc.Return?)))
  }

  /** OnExit has been called once for exactly the children whose goroutine is past that point. */
  ghost predicate ExitInv(s: State) {
    && (forall i, j :: 0 <= i < j < |s.exits| ==> s.exits[i] != s.exits[j])
    && (forall c :: c in s.exits <==> c in s.children && (s.children[c].Notified? || s.children[c].Finished?))
  }

  ghost predicate SafetyInv(s: State) { ChildInv(s) && HolderInv(s) && QuietInv(s) && ExitInv(s) }

  lemma LaunchKeepsChildren(s: State)
    requires ChildInv(s) && s.holder.Held? && s.holder.pc.Launch? && !s.sh.running
    ensures ChildInv(OpNext(s, true, 0).value)
  {
  }

  lemma RegisterKeepsChildren(s: State, now: int)
    requires ChildInv(s) && HolderInv(s) && s.holder.Held? && s.holder.pc.RegisterChild?
    ensures ChildInv(OpNext(s, true, now).value)
  {
    var s', c := OpNext(s, true, now).value, s.holder.pc.child;
    forall x | x in s'.children && (s'.children[x].Watched? || s'.children[x].Waited?) ensures x == c {
    }
  }

  lemma OpKeepsChildren(s: State, launches: bool, now: int)
    requires ChildInv(s) && HolderInv(s) && s.holder.Held? && OpNext(s, launches, now).Some?
    ensures ChildInv(OpNext(s, launches, now).value)
  {
    match s.holder.pc
    case Launch =>
      if launches {
        LaunchKeepsChildren(s);
      }
    case RegisterChild(c) => RegisterKeepsChildren(s, now);
    case _ => OtherPcKeepsChildren(s, launches, now);
  }

  lemma OtherPcKeepsChildren(s: State, launches: bool, now: int)
    requires ChildInv(s) && HolderInv(s) && s.holder.Held? && OpNext(s, launches, now).Some?
    requires !s.holder.pc.Launch? && !s.holder.pc.RegisterChild?
    ensures ChildInv(OpNext(s, launches, now).value)
  {
    OtherPcSparesChildren(s, launches, now);
  }

  lemma OtherPcSparesChildren(s: State, launches: bool, now: int)
    requires s.holder.Held? && OpNext(s, launches, now).Some? && !s.holder.pc.Launch? && !s.holder.pc.RegisterChild?
    ensures var s' := OpNext(s, launches, now).value;
      && s'.children == s.children && s'.alive == s.alive && s'.nextChild == s.nextChild
      && s'.sh.(desired := s.sh.desired, stopped := s.sh.stopped) == s.sh
  {
  }

  lemma OpKeepsHolder(s: State, launches: bool, now: int)
    requires ChildInv(s) && HolderInv(s) && s.holder.Held? && OpNext(s, launches, now).Some?
    ensures HolderInv(OpNext(s, launches, now).value)
  {
  }

  lemma OpKeepsQuiet(s: State, launches: bool, now: int)
    requires HolderInv(s) && QuietInv(s) && s.holder.Held? && OpNext(s, launches, now).Some?
    ensures QuietInv(OpNext(s, launches, now).value)
  {
  }

  lemma OpKeepsExits(s: State, launches: bool, now: int)
    requires ChildInv(s) && HolderInv(s) && ExitInv(s) && s.holder.Held? && OpNext(s, launches, now).Some?
    ensures ExitInv(OpNext(s, launches, now).value)
  {
  }

  lemma ReaperKeepsChildren(t: Tuning, s: State, l: Label)
    requires ChildInv(s) && HolderInv(s) && !l.OpStep? && Next(t, s, l).Some?
    ensures ChildInv(Next(t, s, l).value)
  {
    if l.Acquire? || l.AutoAcquire? || l.CountsCrash? {
      LockKeepsChildren(t, s, l);
    } else {
      ChildEventKeepsChildren(t, s, l);
    }
  }

  lemma LockKeepsChildren(t: Tuning, s: State, l: Label)
    requires ChildInv(s) && HolderInv(s) && (l.Acquire? || l.AutoAcquire? || l.CountsCrash?) && Next(t, s, l).Some?
    ensures ChildInv(Next(t, s, l).value)
  {
  }

  lemma ChildEventKeepsChildren(t: Tuning, s: State, l: Label)
    requires ChildInv(s) && HolderInv(s) && Next(t, s, l).Some?
    requires !l.OpStep? && !l.Acquire? && !l.AutoAcquire? && !l.CountsCrash?
    ensures ChildInv(Next(t, s, l).value)
  {
  }

  lemma ReaperKeepsHolder(t: Tuning, s: State, l: Label)
    requires ChildInv(s) && HolderInv(s) && !l.OpStep? && Next(t, s, l).Some?
    ensures HolderInv(Next(t, s, l).value)
  {
  }

  lemma ReaperKeepsQuiet(t: Tuning, s: State, l: Label)
    requires HolderInv(s) && QuietInv(s) && !l.OpStep? && Next(t, s, l).Some?
    ensures QuietInv(Next(t, s, l).value)
  {
  }

  lemma ReaperKeepsExits(t: Tuning, s: State, l: Label)
    requires ExitInv(s) && !l.OpStep? && Next(t, s, l).Some?
    ensures ExitInv(Next(t, s, l).value)
  {
  }

  lemma StepSafe(t: Tuning, s: State, l: Label)
    requires SafetyInv(s) && Next(t, s, l).Some?
    ensures SafetyInv(Next(t, s, l).value)
  {
    if l.OpStep? {
      OpKeepsChildren(s, l.launches, l.now);
      OpKeepsHolder(s, l.launches, l.now);
      OpKeepsQuiet(s, l.launches, l.now);
      OpKeepsExits(s, l.launches, l.now);
    } else {
      ReaperKeepsChildren(t, s, l);
      ReaperKeepsHolder(t, s, l);
      ReaperKeepsQuiet(t, s, l);
      ReaperKeepsExits(t, s, l);
    }
  }

  lemma {:induction false} RunSafe(t: Tuning, s: State, ls: seq<Label>)
    requires SafetyInv(s) && Run(t, s, ls).Some?
    ensures SafetyInv(Run(t, s, ls).value)
    decreases |ls|
  {
    if ls != [] {
      StepSafe(t, s, ls[0]);
      RunSafe(t, Next(t, s, ls[0]).value, ls[1..]);
    }
  }

  lemma ReachableSafe(t: Tuning, s: State)
    requires Reachable(t, s)
    ensures SafetyInv(s)
  {
    var ls: seq<Label> :| Run(t, INIT, ls) == Some(s);
    RunSafe(t, INIT, ls);
  }

  /** At most one child exists that has not been reaped, in every interleaving. */
  lemma AtMostOneChild(t: Tuning, s: State, c: nat, d: nat)
    requires Reachable(t, s)
    requires Unreaped(ChildAt(s, c)) && Unreaped(ChildAt(s, d))
    ensures c == d
  {
    ReachableSafe(t, s);
  }

  /** OnExit has run exactly once for a child whose supervision is over, and never twice for any. */
  lemma OnExitOnce(t: Tuning, s: State, c: nat)
    requires Reachable(t, s) && c in s.children
    ensures multiset(s.exits)[c] == if s.children[c].Notified? || s.children[c].Finished? then 1 else 0
  {
    ReachableSafe(t, s);
    CountDistinct(s.exits, c);
  }

  lemma {:induction false} CountDistinct(xs: seq<nat>, c: nat)
    requires forall i, j :: 0 <= i < j < |xs| ==> xs[i] != xs[j]
    ensures multiset(xs)[c] == if c in xs then 1 else 0
  {
    if xs != [] {
      CountDistinct(xs[1..], c);
      assert xs == [xs[0]] + xs[1..];
    }
  }

  // ----- Stop means stopped -----

  /** A label by which Start or Restart takes the op lock. */
  predicate StartsAgain(l: Label) {
    l.Acquire? && !l.kind.StopOp?
  }

  lemma QuietStep(t: Tuning, s: State, l: Label)
    requires SafetyInv(s) && s.quiet && !StartsAgain(l) && Next(t, s, l).Some?
    ensures Next(t, s, l).value.quiet && Next(t, s, l).value.nextChild == s.nextChild
  {
  }

  lemma QuietIsDown(s: State)
    requires SafetyInv(s) && s.quiet
    ensures s.alive == {} && !s.sh.running && forall c :: !Unreaped(ChildAt(s, c))
  {
    forall c ensures !Unreaped(ChildAt(s, c)) && c !in s.alive {
    }
  }

  lemma {:induction false} QuietRun(t: Tuning, s: State, ls: seq<Label>)
    requires SafetyInv(s) && s.quiet && Run(t, s, ls).Some?
    requires forall i :: 0 <= i < |ls| ==> !StartsAgain(ls[i])
    ensures var s' := Run(t, s, ls).value;
      SafetyInv(s') && s'.quiet && s'.nextChild == s.nextChild
    decreases |ls|
  {
    if ls != [] {
      StepSafe(t, s, ls[0]);
      QuietStep(t, s, ls[0]);
      QuietRun(t, Next(t, s, ls[0]).value, ls[1..]);
    }
  }

  /** Once Stop has returned, no child is running, and whatever happens next, pending auto-restarts
      included, none is launched and none runs until Start or Restart takes the op lock. */
  lemma StopMeansStopped(t: Tuning, s: State, now: int, ls: seq<Label>)
    requires Reachable(t, s) && s.holder == Held(StopOp, Return)
    requires forall i :: 0 <= i < |ls| ==> !StartsAgain(ls[i])
    ensures Next(t, s, OpStep(false, now)).Some?
    ensures var returned := Next(t, s, OpStep(false, now)).value;
      Run(t, returned, ls).Some? ==>
        var later := Run(t, returned, ls).value;
        && later.nextChild == s.nextChild && later.alive == {} && !later.sh.running
        && forall c :: !Unreaped(ChildAt(later, c))
  {
    ReachableSafe(t, s);
    StepSafe(t, s, OpStep(false, now));
    var returned := Next(t, s, OpStep(false, now)).value;
    if Run(t, returned, ls).Some? {
      QuietRun(t, returned, ls);
      QuietIsDown(Run(t, returned, ls).value);
    }
  }

  // ----- the crash-loop breaker -----

  predicate SamePair(a: Auto, epoch: nat, streak: nat)
    requires Pending(a)
  {
    a.epoch == epoch && a.streak == streak
  }

  /** Counted crashes carry distinct (epoch, streak) numbers within the limit. */
  ghost predicate CountInv(t: Tuning, s: State) {
    && (forall a :: a in s.autos ==> a < s.nextAuto)
    && (forall a :: a in s.autos && Pending(s.autos[a]) ==>
          && 1 <= s.autos[a].streak <= t.max && s.autos[a].epoch <= s.epoch
          && (s.autos[a].epoch == s.epoch ==> s.autos[a].streak <= s.sh.crashStreak))
    && (forall a, b :: a in s.autos && b in s.autos && a != b && Pending(s.autos[a]) && Pending(s.autos[b]) ==>
          !SamePair(s.autos[a], s.autos[b].epoch, s.autos[b].streak))
  }

  /** The goroutine that works is the one that holds the op lock. */
  ghost predicate WorkInv(s: State) {
    && (forall a :: a in s.autos ==> (s.autos[a].Working? <==> s.holder.Held? && s.holder.kind == AutoOp(a)))
    && (s.holder.Held? && s.holder.kind.AutoOp? ==> s.holder.kind.auto in s.autos)
  }

  ghost predicate RangeInv(t: Tuning, s: State) {
    forall i :: 0 <= i < |s.relaunches| ==>
      var r := s.relaunches[i];
      && 1 <= r.streak <= t.max && r.epoch <= s.epoch && r.during <= s.epoch
      && (r.epoch == s.epoch ==> r.streak <= s.sh.crashStreak)
  }

  /** A goroutine that has relaunched is done, or about to return. */
  ghost predicate StatusInv(s: State) {
    forall i :: 0 <= i < |s.relaunches| ==>
      var r := s.relaunches[i];
      && r.auto in s.autos
      && (s.autos[r.auto].Done?
          || (s.autos[r.auto] == Working(r.epoch, r.streak) && s.holder.Held?
              && (s.holder.pc.RegisterChild? || s.holder.pc.Return?)))
  }

  ghost predicate DistinctInv(s: State) {
    forall i, j :: 0 <= i < j < |s.relaunches| ==>
      && s.relaunches[i].auto != s.relaunches[j].auto
      && (s.relaunches[i].epoch != s.relaunches[j].epoch || s.relaunches[i].streak != s.relaunches[j].streak)
  }

  ghost predicate FreshInv(s: State) {
    forall i, a :: 0 <= i < |s.relaunches| && a in s.autos && Pending(s.autos[a]) && s.relaunches[i].auto != a ==>
      !SamePair(s.autos[a], s.relaunches[i].epoch, s.relaunches[i].streak)
  }

  /** A relaunch charged to an earlier epoch comes from a goroutine that was pending at the reset. */
  ghost predicate CarryInv(s: State) {
    && (forall i :: 0 <= i < |s.relaunches| ==>
          s.relaunches[i].epoch <= s.relaunches[i].during
          && (s.relaunches[i].during == s.epoch && s.relaunches[i].epoch < s.epoch ==>
            s.relaunches[i].auto in s.carried))
    && (forall a :: a in s.autos && Pending(s.autos[a]) && s.autos[a].epoch < s.epoch ==> a in s.carried)
  }

  ghost predicate BreakerInv(t: Tuning, s: State) {
    && CountInv(t, s) && WorkInv(s) && CarryInv(s)
    && RangeInv(t, s) && StatusInv(s) && DistinctInv(s) && FreshInv(s)
  }

  /** No crash is counted and no pending goroutine's number changes; some may finish, new ones are uncounted. */
  ghost predicate NumbersKept(s: State, s': State) {
    && s'.epoch == s.epoch && s'.sh.crashStreak == s.sh.crashStreak && s'.carried == s.carried
    && (forall a :: a in s'.autos ==> a < s'.nextAuto)
    && (forall a :: a in s'.autos && Pending(s'.autos[a]) ==>
          a in s.autos && Pending(s.autos[a]) && SamePair(s.autos[a], s'.autos[a].epoch, s'.autos[a].streak))
  }

  lemma NumbersKeptCounts(t: Tuning, s: State, s': State)
    requires CountInv(t, s) && NumbersKept(s, s')
    ensures CountInv(t, s')
  {
  }

  lemma NumbersKeptRelaunches(t: Tuning, s: State, s': State)
    requires RangeInv(t, s) && DistinctInv(s) && FreshInv(s) && CarryInv(s) && NumbersKept(s, s')
    requires s'.relaunches == s.relaunches
    ensures RangeInv(t, s') && DistinctInv(s') && FreshInv(s') && CarryInv(s')
  {
  }

  lemma OpAutos(s: State, launches: bool, now: int)
    requires s.holder.Held? && OpNext(s, launches, now).Some?
    ensures var s' := OpNext(s, launches, now).value;
      && s'.epoch == s.epoch && s'.sh.crashStreak == s.sh.crashStreak && s'.carried == s.carried
      && s'.nextAuto == s.nextAuto
      && (s'.autos == s.autos || (s.holder.kind.AutoOp? && s'.autos == s.autos[s.holder.kind.auto := Done]))
  {
  }

  lemma OpKeepsNumbers(s: State, launches: bool, now: int)
    requires (forall a :: a in s.autos ==> a < s.nextAuto) && WorkInv(s)
    requires s.holder.Held? && OpNext(s, launches, now).Some?
    ensures NumbersKept(s, OpNext(s, launches, now).value)
  {
    OpAutos(s, launches, now);
    NumbersKeptByAutos(s, OpNext(s, launches, now).value);
  }

  lemma NumbersKeptByAutos(s: State, s': State)
    requires (forall a :: a in s.autos ==> a < s.nextAuto) && WorkInv(s)
    requires s.holder.Held?
    requires s'.epoch == s.epoch && s'.sh.crashStreak == s.sh.crashStreak && s'.carried == s.carried
      && s'.nextAuto == s.nextAuto
    requires s'.autos == s.autos || (s.holder.kind.AutoOp? && s'.autos == s.autos[s.holder.kind.auto := Done])
    ensures NumbersKept(s, s')
  {
  }

  lemma OpKeepsWork(s: State, launches: bool, now: int)
    requires WorkInv(s) && s.holder.Held? && OpNext(s, launches, now).Some?
    ensures WorkInv(OpNext(s, launches, now).value)
  {
  }

  lemma ReaperKeepsNumbers(t: Tuning, s: State, l: Label)
    requires (forall a :: a in s.autos ==> a < s.nextAuto) && !l.OpStep? && !l.CountsCrash? && Next(t, s, l).Some?
    ensures NumbersKept(s, Next(t, s, l).value)
  {
  }

  lemma ReaperKeepsWork(t: Tuning, s: State, l: Label)
    requires (forall a :: a in s.autos ==> a < s.nextAuto) && WorkInv(s)
    requires !l.OpStep? && !l.CountsCrash? && Next(t, s, l).Some?
    ensures WorkInv(Next(t, s, l).value)
  {
  }

  lemma OtherKeepsNumbers(t: Tuning, s: State, l: Label)
    requires CountInv(t, s) && WorkInv(s) && !l.CountsCrash? && Next(t, s, l).Some?
    ensures NumbersKept(s, Next(t, s, l).value) && WorkInv(Next(t, s, l).value)
  {
    if l.OpStep? {
      OpKeepsNumbers(s, l.launches, l.now);
      OpKeepsWork(s, l.launches, l.now);
    } else {
      ReaperKeepsNumbers(t, s, l);
      ReaperKeepsWork(t, s, l);
    }
  }

  lemma OtherKeepsStatus(t: Tuning, s: State, l: Label)
    requires StatusInv(s) && WorkInv(s) && (forall a :: a in s.autos ==> a < s.nextAuto)
    requires !l.CountsCrash? && !(l.OpStep? && s.holder.Held? && s.holder.pc.Launch?) && Next(t, s, l).Some?
    ensures StatusInv(Next(t, s, l).value) && Next(t, s, l).value.relaunches == s.relaunches
  {
  }

  /** A launch by an auto-restart adds one relaunch under the goroutine's own, unused number. */
  lemma LaunchStep(t: Tuning, s: State, launches: bool, now: int)
    requires BreakerInv(t, s) && s.holder.Held? && s.holder.pc.Launch?
    ensures BreakerInv(t, OpNext(s, launches, now).value)
  {
    var s' := OpNext(s, launches, now).value;
    OtherKeepsNumbers(t, s, OpStep(launches, now));
    NumbersKeptCounts(t, s, s');
    if s'.relaunches == s.relaunches {
      NumbersKeptRelaunches(t, s, s');
    } else {
      LaunchKeepsRanges(t, s, s');
    }
  }

  /** The relaunch is the holder's, and the holder has none yet. */
  lemma LaunchAdds(t: Tuning, s: State, s': State) returns (a: nat)
    requires BreakerInv(t, s) && s.holder.Held? && s.holder.pc.Launch? && s.holder.kind.AutoOp?
    requires s' == OpNext(s, true, 0).value && s'.relaunches != s.relaunches
    ensures a == s.holder.kind.auto && a in s.autos && s.autos[a].Working?
    ensures s'.relaunches == s.relaunches + [Relaunch(a, s.autos[a].epoch, s.autos[a].streak, s.epoch)]
    ensures s'.autos == s.autos && s'.epoch == s.epoch && s'.sh == s.sh && s'.carried == s.carried
    ensures s'.holder.Held? && s'.holder.pc.RegisterChild?
    ensures forall i :: 0 <= i < |s.relaunches| ==> s.relaunches[i].auto != a
  {
    a := s.holder.kind.auto;
  }

  lemma LaunchKeepsRanges(t: Tuning, s: State, s': State)
    requires BreakerInv(t, s) && s.holder.Held? && s.holder.pc.Launch? && s.holder.kind.AutoOp?
    requires s' == OpNext(s, true, 0).value && s'.relaunches != s.relaunches
    ensures RangeInv(t, s') && DistinctInv(s') && FreshInv(s') && CarryInv(s') && StatusInv(s')
  {
    var a := LaunchAdds(t, s, s');
    LaunchKeepsStatus(t, s, s', a);
    LaunchKeepsDistinct(t, s, s', a);
  }

  predicate Launches(s: State, s': State, a: nat) {
    && a in s.autos && s.autos[a].Working? && s'.autos == s.autos
    && s'.epoch == s.epoch && s'.sh == s.sh && s'.carried == s.carried
    && s'.relaunches == s.relaunches + [Relaunch(a, s.autos[a].epoch, s.autos[a].streak, s.epoch)]
  }

  lemma LaunchKeepsStatus(t: Tuning, s: State, s': State, a: nat)
    requires CountInv(t, s) && RangeInv(t, s) && CarryInv(s) && StatusInv(s) && Launches(s, s', a)
    requires s'.holder.Held? && s'.holder.pc.RegisterChild?
    requires forall i :: 0 <= i < |s.relaunches| ==> s.autos[s.relaunches[i].auto].Done?
    ensures RangeInv(t, s') && CarryInv(s') && StatusInv(s')
  {
  }

  lemma LaunchKeepsDistinct(t: Tuning, s: State, s': State, a: nat)
    requires CountInv(t, s) && DistinctInv(s) && FreshInv(s) && Launches(s, s', a)
    requires forall i :: 0 <= i < |s.relaunches| ==> s.relaunches[i].auto != a
    ensures DistinctInv(s') && FreshInv(s')
  {
  }

  lemma CountKeepsCounts(t: Tuning, s: State, a: nat, since: int, now: int)
    requires CountInv(t, s) && WorkInv(s) && Next(t, s, CountsCrash(a, since, now)).Some?
    ensures CountInv(t, Next(t, s, CountsCrash(a, since, now)).value)
      && WorkInv(Next(t, s, CountsCrash(a, since, now)).value)
  {
  }

  lemma CountKeepsRanges(t: Tuning, s: State, a: nat, since: int, now: int)
    requires RangeInv(t, s) && DistinctInv(s) && StatusInv(s) && Next(t, s, CountsCrash(a, since, now)).Some?
    ensures var s' := Next(t, s, CountsCrash(a, since, now)).value;
      RangeInv(t, s') && DistinctInv(s') && StatusInv(s')
  {
  }

  lemma CountKeepsFresh(t: Tuning, s: State, a: nat, since: int, now: int)
    requires RangeInv(t, s) && FreshInv(s) && Next(t, s, CountsCrash(a, since, now)).Some?
    ensures FreshInv(Next(t, s, CountsCrash(a, since, now)).value)
  {
  }

  lemma CountKeepsCarried(t: Tuning, s: State, a: nat, since: int, now: int)
    requires CountInv(t, s) && RangeInv(t, s) && CarryInv(s) && Next(t, s, CountsCrash(a, since, now)).Some?
    ensures CarryInv(Next(t, s, CountsCrash(a, since, now)).value)
  {
  }

  lemma CountStep(t: Tuning, s: State, a: nat, since: int, now: int)
    requires BreakerInv(t, s) && Next(t, s, CountsCrash(a, since, now)).Some?
    ensures BreakerInv(t, Next(t, s, CountsCrash(a, since, now)).value)
  {
    CountKeepsCounts(t, s, a, since, now);
    CountKeepsRanges(t, s, a, since, now);
    CountKeepsFresh(t, s, a, since, now);
    CountKeepsCarried(t, s, a, since, now);
  }

  lemma StepBreaker(t: Tuning, s: State, l: Label)
    requires BreakerInv(t, s) && Next(t, s, l).Some?
    ensures BreakerInv(t, Next(t, s, l).value)
  {
    if l.CountsCrash? {
      CountStep(t, s, l.auto, l.since, l.now);
    } else if l.OpStep? && s.holder.Held? && s.holder.pc.Launch? {
      LaunchStep(t, s, l.launches, l.now);
    } else {
      var s' := Next(t, s, l).value;
      OtherKeepsNumbers(t, s, l);
      OtherKeepsStatus(t, s, l);
      NumbersKeptCounts(t, s, s');
      NumbersKeptRelaunches(t, s, s');
    }
  }

  lemma {:induction false} RunBreaker(t: Tuning, s: State, ls: seq<Label>)
    requires BreakerInv(t, s) && Run(t, s, ls).Some?
    ensures BreakerInv(t, Run(t, s, ls).value)
    decreases |ls|
  {
    if ls != [] {
      StepBreaker(t, s, ls[0]);
      RunBreaker(t, Next(t, s, ls[0]).value, ls[1..]);
    }
  }

  function Count(rs: seq<Relaunch>, pick: Relaunch -> bool): nat {
    if rs == [] then 0 else (if pick(rs[0]) then 1 else 0) + Count(rs[1..], pick)
  }

  /** Distinct keys from a finite set bound the count. */
  lemma {:induction false} CountInjective(rs: seq<Relaunch>, pick: Relaunch -> bool, key: Relaunch -> nat,
                                          keys: set<nat>)
    requires forall i :: 0 <= i < |rs| && pick(rs[i]) ==> key(rs[i]) in keys
    requires forall i, j :: 0 <= i < j < |rs| && pick(rs[i]) && pick(rs[j]) ==> key(rs[i]) != key(rs[j])
    ensures Count(rs, pick) <= |keys|
  {
    if rs != [] {
      if pick(rs[0]) {
        CountInjective(rs[1..], pick, key, keys - {key(rs[0])});
      } else {
        CountInjective(rs[1..], pick, key, keys);
      }
    }
  }

  function Numbers(n: nat): (s: set<nat>)
    ensures |s| == n && forall x :: x in s <==> 1 <= x <= n
  {
    if n == 0 then {} else Numbers(n - 1) + {n}
  }

  function ChargedTo(epoch: nat): Relaunch -> bool { (r: Relaunch) => r.epoch == epoch }

  function RanIn(epoch: nat): Relaunch -> bool { (r: Relaunch) => r.during == epoch }

  function CarriedInto(epoch: nat): Relaunch -> bool { (r: Relaunch) => r.during == epoch && r.epoch < epoch }

  /** The breaker: in every interleaving, at most CrashLoopMax relaunches answer the crashes counted
      between two resets of the streak, whatever manual operations come in between. */
  lemma RelaunchesPerEpochBounded(t: Tuning, s: State, epoch: nat)
    requires Reachable(t, s)
    ensures Count(s.relaunches, ChargedTo(epoch)) <= t.max
  {
    var ls: seq<Label> :| Run(t, INIT, ls) == Some(s);
    RunBreaker(t, INIT, ls);
    CountInjective(s.relaunches, ChargedTo(epoch), (r: Relaunch) => r.streak, Numbers(t.max));
  }

  /** Counted by when they run instead: since the last reset there have been at most CrashLoopMax
      relaunches plus one for each auto-restart that was already pending at the reset. */
  lemma RelaunchesSinceResetBounded(t: Tuning, s: State)
    requires Reachable(t, s)
    ensures Count(s.relaunches, RanIn(s.epoch)) <= t.max + |s.carried|
  {
    var ls: seq<Label> :| Run(t, INIT, ls) == Some(s);
    RunBreaker(t, INIT, ls);
    RelaunchesPerEpochBounded(t, s, s.epoch);
    CountInjective(s.relaunches, CarriedInto(s.epoch), (r: Relaunch) => r.auto, s.carried);
    SplitCount(s.epoch, s.relaunches);
  }

  lemma {:induction false} SplitCount(epoch: nat, rs: seq<Relaunch>)
    requires forall i :: 0 <= i < |rs| ==> rs[i].epoch <= rs[i].during
    ensures Count(rs, RanIn(epoch)) <= Count(rs, ChargedTo(epoch)) + Count(rs, CarriedInto(epoch))
  {
    if rs != [] {
      SplitCount(epoch, rs[1..]);
    }
  }
}
