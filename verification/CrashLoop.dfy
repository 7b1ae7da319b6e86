/**
 When the crash-loop limit is kept, and when not: the limit counts crashes, and an
 auto-restart that a reset of the streak finds still waiting relaunches on top. The
 runs here are built step by step from any reachable state.
 */
module CrashLoop {
  import opened Wrappers
  import opened Supervisor

  // ----- runs, one label at a time -----

  ghost predicate Leads(t: Tuning, s: State, s': State) {
    exists ls: seq<Label> :: Run(t, s, ls) == Some(s')
  }

  function Then(t: Tuning, s: Option<State>, l: Label): Option<State> {
    if s.None? then None else Next(t, s.value, l)
  }

  lemma {:induction false} RunSnoc(t: Tuning, s: State, ls: seq<Label>, l: Label)
    ensures Run(t, s, ls + [l]) == Then(t, Run(t, s, ls), l)
    decreases |ls|
  {
    if ls == [] {
      assert [l][1..] == [];
    } else {
      assert (ls + [l])[1..] == ls[1..] + [l];
      if Next(t, s, ls[0]).Some? {
        RunSnoc(t, Next(t, s, ls[0]).value, ls[1..], l);
      }
    }
  }

  lemma {:induction false} RunConcat(t: Tuning, s: State, a: seq<Label>, b: seq<Label>)
    requires Run(t, s, a).Some?
    ensures Run(t, s, a + b) == Run(t, Run(t, s, a).value, b)
    decreases |a|
  {
    if a == [] {
      assert a + b == b;
    } else {
      assert (a + b)[1..] == a[1..] + b;
      RunConcat(t, Next(t, s, a[0]).value, a[1..], b);
    }
  }

  lemma Stay(t: Tuning, s: State)
    ensures Leads(t, s, s)
  {
    assert Run(t, s, []) == Some(s);
  }

  lemma Follow(t: Tuning, s: State, s1: State, s2: State)
    requires Leads(t, s, s1) && Leads(t, s1, s2)
    ensures Leads(t, s, s2)
  {
    var a: seq<Label> :| Run(t, s, a) == Some(s1);
    var b: seq<Label> :| Run(t, s1, b) == Some(s2);
    RunConcat(t, s, a, b);
    assert Run(t, s, a + b) == Some(s2);
  }

  /** What every reachable state satisfies; pending stops wait for a child that exists. */
  ghost predicate Sound(t: Tuning, s: State) { SafetyInv(s) && BreakerInv(t, s) && StopTarget(s) }

  ghost predicate StopTarget(s: State) {
    s.holder.Held? && (s.holder.pc.StopMark? || s.holder.pc.StopSignal? || s.holder.pc.StopWait?) ==>
      s.holder.pc.child in s.children && !s.children[s.holder.pc.child].Spawned?
  }

  lemma StepTarget(t: Tuning, s: State, l: Label)
    requires SafetyInv(s) && StopTarget(s) && Next(t, s, l).Some?
    ensures StopTarget(Next(t, s, l).value)
  {
  }

  lemma StepSound(t: Tuning, s: State, l: Label)
    requires Sound(t, s) && Next(t, s, l).Some?
    ensures Sound(t, Next(t, s, l).value)
  {
    StepSafe(t, s, l);
    StepBreaker(t, s, l);
    StepTarget(t, s, l);
  }

  lemma {:induction false} RunSound(t: Tuning, s: State, ls: seq<Label>)
    requires Sound(t, s) && Run(t, s, ls).Some?
    ensures Sound(t, Run(t, s, ls).value)
    decreases |ls|
  {
    if ls != [] {
      StepSound(t, s, ls[0]);
      RunSound(t, Next(t, s, ls[0]).value, ls[1..]);
    }
  }

  lemma ReachableSound(t: Tuning, s: State)
    requires Reachable(t, s)
    ensures Sound(t, s)
  {
    var ls: seq<Label> :| Run(t, INIT, ls) == Some(s);
    RunSound(t, INIT, ls);
  }

  lemma LeadsReachable(t: Tuning, s: State, s': State)
    requires Reachable(t, s) && Leads(t, s, s')
    ensures Reachable(t, s')
  {
    var a: seq<Label> :| Run(t, INIT, a) == Some(s);
    var b: seq<Label> :| Run(t, s, b) == Some(s');
    RunConcat(t, INIT, a, b);
    assert Run(t, INIT, a + b) == Some(s');
  }

  lemma LeadsSound(t: Tuning, s: State, s': State)
    requires Sound(t, s) && Leads(t, s, s')
    ensures Sound(t, s')
  {
    var ls: seq<Label> :| Run(t, s, ls) == Some(s');
    RunSound(t, s, ls);
  }

  /** One label on. */
  lemma On(t: Tuning, s0: State, s: State, l: Label) returns (s': State)
    requires Leads(t, s0, s) && Next(t, s, l).Some?
    ensures s' == Next(t, s, l).value && Leads(t, s0, s')
  {
    s' := Next(t, s, l).value;
    var ls: seq<Label> :| Run(t, s0, ls) == Some(s);
    RunSnoc(t, s0, ls, l);
    assert Run(t, s0, ls + [l]) == Some(s');
  }

  /** The same, and what every reachable state satisfies. */
  lemma Go(t: Tuning, s0: State, s: State, l: Label) returns (s': State)
    requires Leads(t, s0, s) && Sound(t, s) && Next(t, s, l).Some?
    ensures s' == Next(t, s, l).value && Leads(t, s0, s') && Sound(t, s')
  {
    s' := On(t, s0, s, l);
    StepSound(t, s, l);
  }

  // ----- bringing any state to rest -----

  /** Nothing that the breaker counts has changed. */
  predicate SameCounts(s: State, s': State) {
    && s'.epoch == s.epoch && s'.carried == s.carried && s'.relaunches == s.relaunches && s'.nextAuto == s.nextAuto
    && s'.sh.crashStreak == s.sh.crashStreak && s'.sh.crashAt == s.sh.crashAt
  }

  /** The running child dies and is reaped, its goroutine not yet past the critical section. */
  lemma Reap(t: Tuning, s: State) returns (s': State)
    requires Sound(t, s) && s.sh.running
    ensures Leads(t, s, s') && Sound(t, s') && SameCounts(s, s') && s'.autos == s.autos && s'.holder == s.holder
    ensures !s'.sh.running && !s'.sh.stopped && s'.sh.desired == s.sh.desired
    ensures s.sh.cmd.Some? && ChildAt(s', s.sh.cmd.value) == Cleared(s.sh.stopped, s.sh.desired)
  {
    var c := s.sh.cmd.value;
    Stay(t, s);
    s' := s;
    if c in s.alive {
      s' := Go(t, s, s', Dies(c));
    }
    if ChildAt(s', c).Watched? {
      s' := Go(t, s, s', WaitReturns(c));
    }
    s' := Go(t, s, s', ReaperSection(c));
  }

  function Rank(pc: OpPc): nat {
    match pc
    case SetDesired => 9
    case StopSnapshot => 8
    case StopMark(_) => 7
    case StopSignal(_) => 6
    case StopWait(_) => 5
    case CheckWanted => 4
    case StartCheck => 3
    case Launch => 2
    case RegisterChild(_) => 1
    case Return => 0
  }

  /** Whatever an operation waits for happens. */
  lemma Unblock(t: Tuning, s: State) returns (s': State)
    requires Sound(t, s) && s.holder.Held?
    ensures Leads(t, s, s') && Sound(t, s') && SameCounts(s, s') && s'.autos == s.autos && s'.holder == s.holder
    ensures OpNext(s', false, 0).Some? && s'.sh.desired == s.sh.desired
    ensures s.holder.pc.StopWait? && s.sh.running ==> !s'.sh.running && !s'.sh.stopped
  {
    Stay(t, s);
    s' := s;
    if s.holder.pc.StopWait? {
      var c := s.holder.pc.child;
      if s.sh.running {
        s' := Reap(t, s);
      }
      if ChildAt(s', c).Cleared? {
        s' := Go(t, s, s', ClosesDone(c));
      }
    }
  }

  lemma QuietOpCounts(s: State)
    requires s.holder.Held? && OpNext(s, false, 0).Some?
    ensures SameCounts(s, OpNext(s, false, 0).value)
  {
  }

  lemma QuietOpProgress(s: State)
    requires s.holder.Held? && OpNext(s, false, 0).Some?
    ensures var Held(kind, pc), next := s.holder, OpNext(s, false, 0).value.holder;
      next.Held? ==> next.kind == kind && Rank(next.pc) < Rank(pc)
  {
  }

  lemma QuietOpAutos(s: State)
    requires s.holder.Held? && OpNext(s, false, 0).Some?
    ensures var kind, autos := s.holder.kind, OpNext(s, false, 0).value.autos;
      autos == s.autos || (kind.AutoOp? && autos == s.autos[kind.auto := Done])
  {
  }

  lemma FinishStep(t: Tuning, s: State) returns (s': State)
    requires Sound(t, s) && s.holder.Held?
    ensures Leads(t, s, s') && Sound(t, s') && SameCounts(s, s')
    ensures s'.holder.Held? ==> s'.holder.kind == s.holder.kind && Rank(s'.holder.pc) < Rank(s.holder.pc)
    ensures s'.autos == s.autos || (s.holder.kind.AutoOp? && s'.autos == s.autos[s.holder.kind.auto := Done])
  {
    var s1 := Unblock(t, s);
    s' := On(t, s, s1, OpStep(false, 0));
    QuietOpCounts(s1);
    QuietOpProgress(s1);
    QuietOpAutos(s1);
    LeadsSound(t, s, s');
  }

  lemma HolderKnown(t: Tuning, s: State)
    requires Sound(t, s) && s.holder.Held? && s.holder.kind.AutoOp?
    ensures s.holder.kind.auto in s.autos
  {
  }

  /** The operation in progress runs to its end without launching anything. */
  lemma {:induction false} Finish(t: Tuning, s: State) returns (s': State)
    requires Sound(t, s) && s.holder.Held?
    ensures Leads(t, s, s') && Sound(t, s') && SameCounts(s, s') && s'.holder.Idle?
    ensures s'.autos.Keys == s.autos.Keys
    ensures forall x :: x in s.autos && s.holder.kind != AutoOp(x) ==> s'.autos[x] == s.autos[x]
    decreases Rank(s.holder.pc)
  {
    if s.holder.kind.AutoOp? {
      HolderKnown(t, s);
    }
    s' := FinishStep(t, s);
    if s'.holder.Held? {
      var s1 := s';
      s' := Finish(t, s1);
      Follow(t, s, s1, s');
    }
  }

  /** At rest: no operation in progress, the worker down but wanted, no stop pending. */
  predicate AtRest(s: State) {
    s.holder.Idle? && !s.sh.running && s.sh.desired && !s.sh.stopped
  }

  /** A manual Start whose child dies at once: afterwards the worker is wanted. */
  lemma StartAndDie(t: Tuning, s: State) returns (s': State)
    requires Sound(t, s) && s.holder.Idle? && !s.sh.running
    ensures Leads(t, s, s') && Sound(t, s') && SameCounts(s, s') && s'.autos == s.autos && AtRest(s')
  {
    var s1 := ManualStart(t, s);
    s' := Reap(t, s1);
    Follow(t, s, s1, s');
  }

  lemma ManualStart(t: Tuning, s: State) returns (s': State)
    requires Sound(t, s) && s.holder.Idle? && !s.sh.running
    ensures Leads(t, s, s') && Sound(t, s') && SameCounts(s, s') && s'.autos == s.autos
    ensures s'.holder.Idle? && s'.sh.running && s'.sh.desired && s'.sh.stopped == s.sh.stopped
  {
    Stay(t, s);
    var s1 := On(t, s, s, Acquire(StartOp));
    var s2 := On(t, s, s1, OpStep(true, 0));
    s' := Launching(t, s, s2);
    LeadsSound(t, s, s');
  }

  /** A manual operation past its checks launches. */
  lemma Launching(t: Tuning, s0: State, s: State) returns (s': State)
    requires Leads(t, s0, s) && s.holder.Held? && !s.holder.kind.AutoOp? && s.holder.pc.StartCheck? && !s.sh.running
    ensures Leads(t, s0, s') && SameCounts(s, s') && s'.autos == s.autos && s'.holder.Idle?
    ensures s'.sh.running && s'.sh.desired == s.sh.desired && s'.sh.stopped == s.sh.stopped
  {
    var s1 := Launching3(t, s0, s);
    s' := On(t, s0, s1, OpStep(true, 0));
  }

  lemma Launching3(t: Tuning, s0: State, s: State) returns (s': State)
    requires Leads(t, s0, s) && s.holder.Held? && !s.holder.kind.AutoOp? && s.holder.pc.StartCheck? && !s.sh.running
    ensures Leads(t, s0, s') && SameCounts(s, s') && s'.autos == s.autos && s'.holder == Held(s.holder.kind, Return)
    ensures s'.sh.running && s'.sh.desired == s.sh.desired && s'.sh.stopped == s.sh.stopped
  {
    var s1 := On(t, s0, s, OpStep(true, 0));
    var s2 := On(t, s0, s1, OpStep(true, 0));
    s' := On(t, s0, s2, OpStep(true, 0));
  }

  /** An auto-restart past its checks launches, and is done. */
  lemma Relaunching(t: Tuning, s0: State, s: State, a: nat) returns (s': State)
    requires Leads(t, s0, s) && s.holder == Held(AutoOp(a), Launch) && a in s.autos && s.autos[a].Working?
    ensures Leads(t, s0, s') && s'.holder.Idle?
    ensures s'.sh.running && s'.sh.desired == s.sh.desired && s'.sh.stopped == s.sh.stopped
    ensures SameCounts(s, s'.(relaunches := s.relaunches)) && s'.autos == s.autos[a := Done]
    ensures s'.relaunches == s.relaunches + [Relaunch(a, s.autos[a].epoch, s.autos[a].streak, s.epoch)]
  {
    var s1 := On(t, s0, s, OpStep(true, 0));
    var s2 := On(t, s0, s1, OpStep(true, 0));
    s' := On(t, s0, s2, OpStep(true, 0));
  }

  lemma Rest(t: Tuning, s: State) returns (s': State)
    requires Sound(t, s)
    ensures Leads(t, s, s') && Sound(t, s') && SameCounts(s, s') && AtRest(s')
    ensures s'.autos.Keys == s.autos.Keys
    ensures forall x :: x in s.autos && !(s.holder.Held? && s.holder.kind == AutoOp(x)) ==> s'.autos[x] == s.autos[x]
  {
    Stay(t, s);
    s' := s;
    if s.holder.Held? {
      s' := Finish(t, s);
    }
    if s'.sh.running {
      var s1 := s';
      s' := Reap(t, s1);
      Follow(t, s, s1, s');
    }
    var s2 := s';
    s' := StartAndDie(t, s2);
    Follow(t, s, s2, s');
  }

  // ----- relaunches and crashes -----

  /** A waiting auto-restart relaunches. */
  lemma Answer(t: Tuning, s: State, a: nat) returns (s': State)
    requires Sound(t, s) && AtRest(s) && a in s.autos && s.autos[a].Sleeping?
    ensures Leads(t, s, s') && Sound(t, s')
    ensures s'.holder.Idle? && s'.sh.running && s'.sh.desired && !s'.sh.stopped
    ensures s'.relaunches == s.relaunches + [Relaunch(a, s.autos[a].epoch, s.autos[a].streak, s.epoch)]
    ensures SameCounts(s, s'.(relaunches := s.relaunches)) && s'.autos == s.autos[a := Done]
  {
    Stay(t, s);
    var s1 := On(t, s, s, AutoAcquire(a));
    var s2 := On(t, s, s1, OpStep(true, 0));
    var s3 := On(t, s, s2, OpStep(true, 0));
    s' := Relaunching(t, s, s3, a);
    assert s1.autos[a := Done] == s.autos[a := Done];
    LeadsSound(t, s, s');
  }

  /** The running child crashes unasked, and its goroutine is about to count that. */
  lemma Crash(t: Tuning, s: State) returns (s': State)
    requires Sound(t, s) && s.sh.running && s.sh.desired && !s.sh.stopped
    ensures Leads(t, s, s') && Sound(t, s') && SameCounts(s, s'.(nextAuto := s.nextAuto)) && s'.holder == s.holder
    ensures !s'.sh.running && s'.sh.desired && !s'.sh.stopped
    ensures s'.autos == s.autos[s.nextAuto := Counting] && s'.nextAuto == s.nextAuto + 1 && s.nextAuto !in s.autos
  {
    var c := s.sh.cmd.value;
    s' := Reap(t, s);
    s' := Go(t, s, s', ClosesDone(c));
    s' := Go(t, s, s', CallsOnExit(c));
    s' := Go(t, s, s', Finishes(c));
  }

  lemma {:induction false} CountSnoc(rs: seq<Relaunch>, r: Relaunch, pick: Relaunch -> bool)
    ensures Count(rs + [r], pick) == Count(rs, pick) + if pick(r) then 1 else 0
  {
    if rs == [] {
      assert [r][1..] == [];
    } else {
      assert (rs + [r])[1..] == rs[1..] + [r];
      CountSnoc(rs[1..], r, pick);
    }
  }

  // ----- as many relaunches as the limit allows, and one more -----

  /** At rest, the k-th crash of the epoch counted and its auto-restart n waiting; extra relaunches of the
      epoch beside the k - 1 that answered the crashes before. */
  ghost predicate Burst(t: Tuning, s: State, k: nat, n: nat, extra: nat) {
    && Sound(t, s) && AtRest(s) && s.sh.crashStreak == k && s.sh.crashAt.Some?
    && n in s.autos && s.autos[n] == Sleeping(s.epoch, k)
    && Count(s.relaunches, RanIn(s.epoch)) == k - 1 + extra
  }

  predicate Waits(s: State, a: nat) { a in s.autos && s.autos[a].Sleeping? }

  lemma BurstAnswered(t: Tuning, s: State, k: nat, n: nat, extra: nat) returns (s': State)
    requires Burst(t, s, k, n, extra)
    ensures Leads(t, s, s') && Sound(t, s') && s'.epoch == s.epoch && s'.carried == s.carried
    ensures s'.holder.Idle? && s'.sh.running && s'.sh.desired && !s'.sh.stopped
    ensures s'.sh.crashStreak == k && s'.sh.crashAt == s.sh.crashAt && s'.autos == s.autos[n := Done]
    ensures Count(s'.relaunches, RanIn(s.epoch)) == k + extra
  {
    s' := Answer(t, s, n);
    CountSnoc(s.relaunches, Relaunch(n, s.epoch, k, s.epoch), RanIn(s.epoch));
  }

  lemma NextBurst(t: Tuning, s: State, k: nat, n: nat, extra: nat, a: nat) returns (s': State, n': nat)
    requires t.window >= 0 && k < t.max && Burst(t, s, k, n, extra)
    ensures Leads(t, s, s') && Burst(t, s', k + 1, n', extra) && s'.epoch == s.epoch && s'.carried == s.carried
    ensures Waits(s, a) && a != n ==> Waits(s', a) && a != n'
  {
    var s1 := BurstAnswered(t, s, k, n, extra);
    s', n' := CrashedInWindow(t, s1);
    Follow(t, s, s1, s');
  }

  /** The running child crashes at once, and that is counted. */
  lemma CrashedInWindow(t: Tuning, s: State) returns (s': State, n: nat)
    requires t.window >= 0 && s.sh.crashStreak < t.max && s.sh.crashAt.Some?
    requires Sound(t, s) && s.holder.Idle? && s.sh.running && s.sh.desired && !s.sh.stopped
    ensures Leads(t, s, s') && Sound(t, s') && AtRest(s')
    ensures s'.epoch == s.epoch && s'.carried == s.carried && s'.relaunches == s.relaunches
    ensures s'.sh.crashStreak == s.sh.crashStreak + 1 && s'.sh.crashAt == s.sh.crashAt
    ensures n !in s.autos && s'.autos == s.autos[n := Sleeping(s.epoch, s.sh.crashStreak + 1)]
  {
    var s1 := Crash(t, s);
    n := s.nextAuto;
    CountedInWindow(t, s1, n, s.sh.crashAt.value);
    s' := On(t, s, s1, CountsCrash(n, s.sh.crashAt.value, s.sh.crashAt.value));
    assert s1.autos[n := Sleeping(s.epoch, s.sh.crashStreak + 1)]
        == s.autos[n := Sleeping(s.epoch, s.sh.crashStreak + 1)];
    LeadsSound(t, s, s');
  }

  lemma CountedInWindow(t: Tuning, s: State, n: nat, at: int)
    requires t.window >= 0 && s.sh.crashStreak < t.max && s.sh.crashAt == Some(at)
    requires n in s.autos && s.autos[n].Counting?
    ensures Next(t, s, CountsCrash(n, at, at)) == Some(
      s.(sh := s.sh.(crashStreak := s.sh.crashStreak + 1),
         stops := CrashCounted(s.stops, n),
         autos := s.autos[n := Sleeping(s.epoch, s.sh.crashStreak + 1)]))
  {
  }

  /** From a burst with one relaunch extra, or with another auto-restart waiting: one relaunch too many. */
  lemma {:induction false} Exceed(t: Tuning, s: State, k: nat, n: nat, extra: nat, a: nat) returns (s': State)
    requires t.window >= 0 && k <= t.max && Burst(t, s, k, n, extra)
    requires extra == 1 || (extra == 0 && Waits(s, a) && a != n)
    ensures Leads(t, s, s') && s'.epoch == s.epoch && s'.carried == s.carried
    ensures Count(s'.relaunches, RanIn(s'.epoch)) == t.max + 1
    decreases t.max - k
  {
    if k < t.max {
      var s1, n1 := NextBurst(t, s, k, n, extra, a);
      s' := Exceed(t, s1, k + 1, n1, extra, a);
      Follow(t, s, s1, s');
    } else {
      s' := BurstAnswered(t, s, k, n, extra);
      if extra == 0 {
        var s1 := s';
        s' := LateAnswer(t, s1, a);
        Follow(t, s, s1, s');
      }
    }
  }

  lemma LateAnswer(t: Tuning, s: State, a: nat) returns (s': State)
    requires Sound(t, s) && s.holder.Idle? && s.sh.running && s.sh.desired && Waits(s, a)
    ensures Leads(t, s, s') && s'.epoch == s.epoch && s'.carried == s.carried
    ensures Count(s'.relaunches, RanIn(s'.epoch)) == Count(s.relaunches, RanIn(s.epoch)) + 1
  {
    var s1 := Reap(t, s);
    s' := Answer(t, s1, a);
    Follow(t, s, s1, s');
    CountSnoc(s.relaunches, Relaunch(a, s.autos[a].epoch, s.autos[a].streak, s.epoch), RanIn(s.epoch));
  }

  // ----- the exact condition, reset by reset -----

  /** Auto-restart a may still relaunch: it waits, or holds the lock and has not launched or given up. */
  predicate MayRelaunch(s: State, a: nat) {
    a in s.autos
    && (s.autos[a].Sleeping?
        || (s.autos[a].Working? && s.holder.Held? && s.holder.kind == AutoOp(a)
            && ((s.holder.pc.CheckWanted? && s.sh.desired) || s.holder.pc.StartCheck? || s.holder.pc.Launch?)))
  }

  /** A crash is counted so late that it resets the streak. */
  ghost predicate Resets(t: Tuning, s: State, b: nat, since: int, now: int) {
    Next(t, s, CountsCrash(b, since, now)).Some? && StartsStreak(s.sh, since, t.window)
  }

  /** The lock holder goes on to launch. */
  lemma HolderLaunches(t: Tuning, s: State, a: nat) returns (s': State)
    requires Sound(t, s) && MayRelaunch(s, a) && s.autos[a].Working?
    ensures Leads(t, s, s') && Sound(t, s') && s'.holder.Idle?
    ensures SameCounts(s, s'.(relaunches := s.relaunches)) && s'.autos == s.autos[a := Done]
    ensures s'.relaunches == s.relaunches + [Relaunch(a, s.autos[a].epoch, s.autos[a].streak, s.epoch)]
  {
    Stay(t, s);
    var s1 := s;
    if s.sh.running {
      s1 := Reap(t, s);
    }
    var s2 := ToLaunch(t, s, s1, a);
    s' := Relaunching(t, s, s2, a);
    LeadsSound(t, s, s');
  }

  lemma ToLaunch(t: Tuning, s0: State, s: State, a: nat) returns (s': State)
    requires Leads(t, s0, s) && MayRelaunch(s, a) && s.autos[a].Working? && !s.sh.running
    ensures Leads(t, s0, s') && s'.holder == Held(AutoOp(a), Launch)
    ensures s' == s.(holder := s'.holder)
  {
    s' := s;
    if s'.holder.pc.CheckWanted? {
      s' := On(t, s0, s', OpStep(true, 0));
    }
    if s'.holder.pc.StartCheck? {
      s' := On(t, s0, s', OpStep(true, 0));
    }
  }

  lemma {:induction false} NoneRan(rs: seq<Relaunch>, epoch: nat)
    requires forall i :: 0 <= i < |rs| ==> rs[i].during < epoch
    ensures Count(rs, RanIn(epoch)) == 0
  {
    if rs != [] {
      NoneRan(rs[1..], epoch);
    }
  }

  /** Right after a reset: the counter's own auto-restart is the first of the epoch, and nothing ran in it yet. */
  lemma AfterReset(t: Tuning, s: State, b: nat, since: int, now: int) returns (s': State)
    requires Sound(t, s) && Resets(t, s, b, since, now) && t.max >= 1
    ensures s' == Next(t, s, CountsCrash(b, since, now)).value && Sound(t, s') && s'.epoch == s.epoch + 1
    ensures s'.sh.crashStreak == 1 && s'.sh.crashAt == Some(now) && b in s'.autos
      && s'.autos[b] == Sleeping(s'.epoch, 1)
    ensures Count(s'.relaunches, RanIn(s'.epoch)) == 0
    ensures forall i :: 0 <= i < |s'.relaunches| ==> s'.relaunches[i].during < s'.epoch
    ensures forall x :: x in s'.autos && x != b && Pending(s'.autos[x]) ==> s'.autos[x].epoch < s'.epoch
  {
    s' := Next(t, s, CountsCrash(b, since, now)).value;
    StepSound(t, s, CountsCrash(b, since, now));
    NoneRan(s'.relaunches, s'.epoch);
  }

  /** If another auto-restart may still relaunch, some continuation without a further reset exceeds the limit. */
  lemma PendingExceeds(t: Tuning, s: State, b: nat, a: nat) returns (s': State)
    requires t.window >= 0 && t.max >= 1 && Sound(t, s)
    requires s.sh.crashStreak == 1 && s.sh.crashAt.Some? && b in s.autos && s.autos[b] == Sleeping(s.epoch, 1)
    requires Count(s.relaunches, RanIn(s.epoch)) == 0
    requires MayRelaunch(s, a) && a != b
    ensures Leads(t, s, s') && s'.epoch == s.epoch && s'.carried == s.carried
    ensures Count(s'.relaunches, RanIn(s'.epoch)) == t.max + 1
  {
    Stay(t, s);
    var s1 := s;
    if s.autos[a].Working? {
      s1 := HolderLaunches(t, s, a);
      CountSnoc(s.relaunches, Relaunch(a, s.autos[a].epoch, s.autos[a].streak, s.epoch), RanIn(s.epoch));
    }
    var s2 := Rest(t, s1);
    Follow(t, s, s1, s2);
    s' := Exceed(t, s2, 1, b, if s.autos[a].Working? then 1 else 0, a);
    Follow(t, s, s2, s');
  }

  /** No auto-restart from before epoch e may still relaunch, and none has in e. */
  ghost predicate NoneLate(s: State, e: nat) {
    && (forall a :: a in s.autos && Pending(s.autos[a]) && s.autos[a].epoch < e ==> !MayRelaunch(s, a))
    && (forall i :: 0 <= i < |s.relaunches| && s.relaunches[i].during == e ==> s.relaunches[i].epoch == e)
  }

  lemma EpochGrows(t: Tuning, s: State, l: Label)
    requires Next(t, s, l).Some?
    ensures Next(t, s, l).value.epoch >= s.epoch
  {
  }

  lemma {:induction false} RunEpochGrows(t: Tuning, s: State, ls: seq<Label>)
    requires Run(t, s, ls).Some?
    ensures Run(t, s, ls).value.epoch >= s.epoch
    decreases |ls|
  {
    if ls != [] {
      EpochGrows(t, s, ls[0]);
      RunEpochGrows(t, Next(t, s, ls[0]).value, ls[1..]);
    }
  }

  lemma OpNoneLate(t: Tuning, s: State, launches: bool, now: int)
    requires Sound(t, s) && NoneLate(s, s.epoch) && s.holder.Held? && OpNext(s, launches, now).Some?
    ensures NoneLate(OpNext(s, launches, now).value, s.epoch)
  {
    OpMakesNoneLate(t, s, launches, now);
    if s.holder.kind.AutoOp? && s.holder.pc.Launch? {
      assert MayRelaunch(s, s.holder.kind.auto);
    }
  }

  /** An operation lets nobody relaunch who could not before. */
  lemma OpMakesNoneLate(t: Tuning, s: State, launches: bool, now: int)
    requires Sound(t, s) && s.holder.Held? && OpNext(s, launches, now).Some?
    ensures var s' := OpNext(s, launches, now).value;
      && (forall a :: a in s'.autos && Pending(s'.autos[a]) ==> a in s.autos && s'.autos[a] == s.autos[a])
      && (forall a :: MayRelaunch(s', a) ==> MayRelaunch(s, a))
  {
  }

  lemma OtherNoneLate(t: Tuning, s: State, l: Label)
    requires Sound(t, s) && NoneLate(s, s.epoch) && !l.OpStep? && Next(t, s, l).Some?
      && Next(t, s, l).value.epoch == s.epoch
    ensures NoneLate(Next(t, s, l).value, s.epoch)
  {
  }

  lemma {:induction false} RunNoneLate(t: Tuning, s: State, ls: seq<Label>)
    requires Sound(t, s) && NoneLate(s, s.epoch) && Run(t, s, ls).Some? && Run(t, s, ls).value.epoch == s.epoch
    ensures NoneLate(Run(t, s, ls).value, s.epoch)
    decreases |ls|
  {
    if ls != [] {
      var s1 := Next(t, s, ls[0]).value;
      EpochGrows(t, s, ls[0]);
      RunEpochGrows(t, s1, ls[1..]);
      if ls[0].OpStep? {
        OpNoneLate(t, s, ls[0].launches, ls[0].now);
      } else {
        OtherNoneLate(t, s, ls[0]);
      }
      StepSound(t, s, ls[0]);
      RunNoneLate(t, s1, ls[1..]);
    }
  }

  lemma {:induction false} RanInIsCharged(rs: seq<Relaunch>, epoch: nat)
    requires forall i :: 0 <= i < |rs| && rs[i].during == epoch ==> rs[i].epoch == epoch
    ensures Count(rs, RanIn(epoch)) <= Count(rs, ChargedTo(epoch))
  {
    if rs != [] {
      RanInIsCharged(rs[1..], epoch);
    }
  }

  /** If none may, no continuation without a further reset exceeds the limit. */
  lemma NonePendingKeeps(t: Tuning, s: State, s': State)
    requires Reachable(t, s) && NoneLate(s, s.epoch) && Leads(t, s, s') && s'.epoch == s.epoch
    ensures Count(s'.relaunches, RanIn(s'.epoch)) <= t.max
  {
    var ls: seq<Label> :| Run(t, s, ls) == Some(s');
    ReachableSound(t, s);
    RunNoneLate(t, s, ls);
    LeadsReachable(t, s, s');
    RelaunchesPerEpochBounded(t, s', s'.epoch);
    RanInIsCharged(s'.relaunches, s'.epoch);
  }

  /** The literal limit, exactly: from a reset of the streak on, until the next, no run relaunches more than
      CrashLoopMax times just in case the reset found no other auto-restart waiting or about to launch. */
  lemma LimitKeptIffNonePending(t: Tuning, s: State, b: nat, since: int, now: int)
    requires t.window >= 0 && t.max >= 1 && Reachable(t, s) && Resets(t, s, b, since, now)
    ensures var s' := Next(t, s, CountsCrash(b, since, now)).value;
      (forall f :: Leads(t, s', f) && f.epoch == s'.epoch ==> Count(f.relaunches, RanIn(f.epoch)) <= t.max)
      <==> forall a :: a != b ==> !MayRelaunch(s', a)
  {
    ReachableSound(t, s);
    var s' := AfterReset(t, s, b, since, now);
    ResetReachable(t, s, CountsCrash(b, since, now));
    if a :| a != b && MayRelaunch(s', a) {
      var f := PendingExceeds(t, s', b, a);
      assert Leads(t, s', f);
    } else {
      forall f | Leads(t, s', f) && f.epoch == s'.epoch ensures Count(f.relaunches, RanIn(f.epoch)) <= t.max {
        NonePendingKeeps(t, s', f);
      }
    }
  }

  lemma ResetReachable(t: Tuning, s: State, l: Label)
    requires Reachable(t, s) && Next(t, s, l).Some?
    ensures Reachable(t, Next(t, s, l).value)
  {
    ReachableSound(t, s);
    Stay(t, s);
    var s' := Go(t, s, s, l);
    LeadsReachable(t, s, s');
  }

  // ----- such resets happen -----

  /** One crash counted, its auto-restart waiting out its delay, and the worker started again by hand. */
  lemma FirstCrash(t: Tuning) returns (s: State)
    requires t.max >= 1
    ensures Reachable(t, s) && Sound(t, s) && s.holder.Idle? && s.sh.running && s.sh.desired && !s.sh.stopped
    ensures s.sh.crashAt == Some(0) && s.epoch == 1 && s.nextAuto == 1 && s.autos == map[0 := Sleeping(1, 1)]
    ensures s.relaunches == []
  {
    var s1 := StartedAndCrashed(t);
    var s2 := Go(t, INIT, s1, CountsCrash(0, 0, 0));
    s := ManualStart(t, s2);
    Follow(t, INIT, s2, s);
    assert Run(t, INIT, []) == Some(INIT);
    LeadsReachable(t, INIT, s);
  }

  lemma StartedAndCrashed(t: Tuning) returns (s: State)
    ensures Leads(t, INIT, s) && Sound(t, s) && SameCounts(INIT, s.(nextAuto := 0)) && s.nextAuto == 1
    ensures s.holder.Idle? && !s.sh.running && s.sh.desired && !s.sh.stopped && s.autos == map[0 := Counting]
  {
    assert Run(t, INIT, []) == Some(INIT);
    ReachableSound(t, INIT);
    var s1 := ManualStart(t, INIT);
    s := Crash(t, s1);
    Follow(t, INIT, s1, s);
  }

  /** A Restart takes the lock and stops the worker, which takes its time; all the while the auto-restart
      waits for the lock. The Restart launches a child and is about to return. */
  lemma SlowRestart(t: Tuning, s: State) returns (s': State)
    requires Reachable(t, s) && Sound(t, s) && s.holder.Idle? && s.sh.running && s.sh.desired && !s.sh.stopped
    ensures Reachable(t, s') && Sound(t, s') && s'.holder == Held(RestartOp, Return)
    ensures s'.sh.running && s'.sh.desired && !s'.sh.stopped && SameCounts(s, s') && s'.autos == s.autos
  {
    var s1 := RestartWaits(t, s);
    LeadsSound(t, s, s1);
    var s2 := Unblock(t, s1);
    Follow(t, s, s1, s2);
    var s3 := On(t, s, s2, OpStep(true, 0));
    s' := Launching3(t, s, s3);
    LeadsReachable(t, s, s');
    LeadsSound(t, s, s');
  }

  lemma RestartWaits(t: Tuning, s: State) returns (s': State)
    requires s.holder.Idle? && s.sh.running && s.sh.cmd.Some?
    ensures Leads(t, s, s') && SameCounts(s, s') && s'.autos == s.autos && s'.sh.desired
    ensures s'.holder == Held(RestartOp, StopWait(s.sh.cmd.value)) && s'.sh.running
  {
    var s1 := RestartFindsChild(t, s);
    var s2 := On(t, s, s1, OpStep(true, 0));
    s' := On(t, s, s2, OpStep(true, 0));
  }

  lemma RestartFindsChild(t: Tuning, s: State) returns (s': State)
    requires s.holder.Idle? && s.sh.running && s.sh.cmd.Some?
    ensures Leads(t, s, s') && SameCounts(s, s') && s'.autos == s.autos && s'.sh.desired
    ensures s'.holder == Held(RestartOp, StopMark(s.sh.cmd.value)) && s'.sh.running
  {
    Stay(t, s);
    var s1 := On(t, s, s, Acquire(RestartOp));
    var s2 := On(t, s, s1, OpStep(true, 0));
    s' := On(t, s, s2, OpStep(true, 0));
  }

  /** A reachable reset that finds an auto-restart waiting: it has been kept from the lock by a Restart for
      longer than the window, and the Restart's own child crashes before the lock is free. */
  lemma ResetBehindRestart(t: Tuning) returns (s: State)
    requires t.max >= 1
    ensures Reachable(t, s) && s.holder == Held(RestartOp, Return)
    ensures Resets(t, s, 1, t.window + 1, t.window + 1)
    ensures var s' := Next(t, s, CountsCrash(1, t.window + 1, t.window + 1)).value;
      MayRelaunch(s', 0) && s'.carried == {0}
  {
    var s1 := FirstCrash(t);
    var s2 := SlowRestart(t, s1);
    s := Crash(t, s2);
    LeadsReachable(t, s2, s);
    assert s.autos == map[0 := Sleeping(1, 1), 1 := Counting];
    ResetFindsWaiting(t, s);
  }

  lemma ResetFindsWaiting(t: Tuning, s: State)
    requires s.autos == map[0 := Sleeping(1, 1), 1 := Counting] && s.sh.crashAt == Some(0)
    ensures Resets(t, s, 1, t.window + 1, t.window + 1)
    ensures var s' := Next(t, s, CountsCrash(1, t.window + 1, t.window + 1)).value;
      MayRelaunch(s', 0) && s'.carried == {0}
  {
    var s' := Next(t, s, CountsCrash(1, t.window + 1, t.window + 1)).value;
    assert s'.autos[0] == Sleeping(1, 1);
    assert s'.carried == {0};
  }

  /** So whatever the window and the limit, some run has one relaunch more than the limit since its last
      reset, by the one auto-restart that the reset found waiting. */
  lemma EveryLimitCanBeExceeded(t: Tuning)
    requires t.window >= 0 && t.max >= 1
    ensures exists s :: Reachable(t, s) && Count(s.relaunches, RanIn(s.epoch)) == t.max + 1 && |s.carried| == 1
  {
    var s := ResetBehindRestart(t);
    ReachableSound(t, s);
    var s' := AfterReset(t, s, 1, t.window + 1, t.window + 1);
    ResetReachable(t, s, CountsCrash(1, t.window + 1, t.window + 1));
    var f := PendingExceeds(t, s', 1, 0);
    LeadsReachable(t, s', f);
    assert Reachable(t, f) && Count(f.relaunches, RanIn(f.epoch)) == t.max + 1;
  }
}
