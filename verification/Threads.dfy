/** The machine of the blocking code on the kernel threads of src/sched.c: each of its steps changes the
    ready list as steps of Sched do, whose guards hold because of the machine's invariant. */
module Threads {
  import opened Memory
  import opened Machine
  import opened Invariant
  import Calls
  import Outcomes
  import PreserveIo
  import Regions
  import Sched

  /** The token of a fiber, by its position in the code.  A fiber that was dispatched is in the hands of the
      thread that popped it until that thread resumes it. */
  predicate TokenOk(token: Sched.Token, ctl: Control) {
    if ctl.NotStarted? then token.Absent?
    else if ctl.Runnable? then token.InReady?
    else if Calls.Stopped(ctl) then token.Parked?
    else token.Active? || token.Taken?
  }

  ghost predicate Agrees(s: Sched.State, w: World) {
    s.ready == w.mem.ready && forall f: FiberId :: TokenOk(s.Token(f), w.Ctl(f))
  }

  /** The fiber that takes the step is inside a thread, which has resumed it. */
  ghost predicate ActorRuns(s: Sched.State, w: World, x: Step) {
    match Calls.Actor(w, x)
    case None => true
    case Some(f) =>
      x.Spawn? || x.Dispatch? ||
      ((exists t :: s.Is(t, Sched.Executing(f))) && (Calls.Settled(w.Ctl(f)) ==> s.Token(f) == Sched.Active))
  }

  // ---- How the ready list changes -----------------------------------------------------------

  lemma PopAppends(w: World, fd: Fd, dir: Direction, cancel: bool)
    ensures PopOne(w, fd, dir, cancel).Ok? ==> w.mem.ready <= PopOne(w, fd, dir, cancel).value.mem.ready
  {
  }

  lemma {:induction false} FlushAppends(w: World, fd: Fd, dir: Direction, cancel: bool)
    ensures FlushOne(w, fd, dir, cancel).Ok? ==> w.mem.ready <= FlushOne(w, fd, dir, cancel).value.mem.ready
    decreases |w.mem.D(fd).Queue(dir)|
  {
    hide PopOne;
    if w.mem.D(fd).Queue(dir) != [] && PopOne(w, fd, dir, cancel).Ok? {
      var w1 := PopOne(w, fd, dir, cancel).value;
      PopAppends(w, fd, dir, cancel);
      PreserveIo.PopShrinks(w, fd, dir, cancel, w1);
      FlushAppends(w1, fd, dir, cancel);
    }
  }

  lemma FlushBothAppends(w: World, fd: Fd, cancel: bool)
    ensures FlushBoth(w, fd, cancel).Ok? ==> w.mem.ready <= FlushBoth(w, fd, cancel).value.mem.ready
  {
    hide FlushOne;
    FlushAppends(w, fd, Read, cancel);
    if FlushOne(w, fd, Read, cancel).Ok? { FlushAppends(FlushOne(w, fd, Read, cancel).value, fd, Write, cancel); }
  }

  lemma HandleAppends(w: World, fd: Fd)
    requires w.mem.D(fd).pending.Some?
    ensures DoHandle(w, fd).Ok? ==> w.mem.ready <= DoHandle(w, fd).value.mem.ready
  {
    hide FlushBoth, PopOne;
    var event := w.mem.D(fd).pending.value;
    FlushBothAppends(w, fd, false);
    var w1 := if event.hup && FlushBoth(w, fd, false).Ok? then FlushBoth(w, fd, false).value else w;
    PopAppends(w1, fd, Read, false);
    var w2 := if event.readable && PopOne(w1, fd, Read, false).Ok? then PopOne(w1, fd, Read, false).value else w1;
    PopAppends(w2, fd, Write, false);
  }

  lemma IoAppends(w: World, x: Step, w': World)
    requires Next(w, x, w') && (x.Handle? || x.Close? || x.Cancelio?)
    ensures w.mem.ready <= w'.mem.ready
  {
    match x
    case Close(_, fd, _) => FlushBothAppends(w, fd, true); hide FlushBoth;
    case Cancelio(_, fd) => FlushBothAppends(w, fd, true); hide FlushBoth;
    case Handle(fd) => HandleAppends(w, fd); hide DoHandle;
  }

  lemma WakersAppend(w: World, x: Step, w': World)
    requires Next(w, x, w') && (x.Spawn? || x.UnlockHandoff?)
    ensures w.mem.ready <= w'.mem.ready
  {
  }

  lemma SignalAppends(w: World, f: FiberId, w': World)
    requires Next(w, Step.SignalOne(f), w')
    ensures w.mem.ready <= w'.mem.ready
  {
  }

  lemma FireAppends(w: World, now: int, w': World)
    requires Next(w, Fire(now), w')
    ensures w.mem.ready <= w'.mem.ready
  {
    FiredMemory(w, now, w');
    FireHeadAppends(w.mem);
    hide Next;
  }

  lemma FiredMemory(w: World, now: int, w': World)
    requires Next(w, Fire(now), w')
    ensures w.mem.timerQueue != [] && Regions.FireHead(w.mem) == Ok(w'.mem)
  {
    hide Regions.FireHead;
  }

  lemma FireHeadAppends(mem: Mem)
    requires mem.timerQueue != [] && Regions.FireHead(mem).Ok?
    ensures mem.ready <= Regions.FireHead(mem).value.ready
  {
  }

  lemma OthersAppendNothing(w: World, x: Step, w': World)
    requires Next(w, x, w') && !x.Dispatch? && !x.Handle? && !x.Close? && !x.Cancelio?
    requires !x.Spawn? && !x.UnlockHandoff? && !x.SignalOne? && !x.Fire?
    ensures w'.mem.ready == w.mem.ready
  {
  }

  /** Only dispatch takes from the ready list; every other step appends to it. */
  lemma ReadyAppends(w: World, x: Step, w': World)
    requires Next(w, x, w') && !x.Dispatch?
    ensures w.mem.ready <= w'.mem.ready
  {
    hide Next;
    if x.Handle? || x.Close? || x.Cancelio? {
      IoAppends(w, x, w');
    } else if x.Fire? {
      FireAppends(w, x.now, w');
    } else if x.SignalOne? {
      SignalAppends(w, x.f, w');
    } else if x.Spawn? || x.UnlockHandoff? {
      WakersAppend(w, x, w');
    } else {
      OthersAppendNothing(w, x, w');
    }
  }

  // ---- How positions change -----------------------------------------------------------------

  lemma QuietStops(w: World, x: Step, w': World, f: FiberId)
    requires Next(w, x, w') && (w.Ctl(f).Polling? || w.Ctl(f).Sleeping? || w.Ctl(f).NotStarted?)
    requires !x.Dispatch? && !x.UnlockHandoff? && !x.SignalOne? && !x.Fire? && !x.Handle? && !x.Close? && !x.Cancelio?
    requires x != Spawn(f)
    ensures w'.Ctl(f) == w.Ctl(f)
  {
  }

  lemma WakersStops(w: World, x: Step, w': World, f: FiberId)
    requires Inv(w) && Next(w, x, w') && (w.Ctl(f).Polling? || w.Ctl(f).Sleeping? || w.Ctl(f).NotStarted?)
    requires x.Dispatch? || x.UnlockHandoff? || x.SignalOne?
    ensures w'.Ctl(f) == w.Ctl(f)
  {
    Calls.EnabledStep(w, x, w');
    Outcomes.QueueMembership(w, f, ReadyQueue);
    if x.UnlockHandoff? {
      Outcomes.QueueMembership(w, f, LockQueue(ReleasingMutex(w.Ctl(x.f)).value.0));
    } else if x.SignalOne? {
      Outcomes.QueueMembership(w, f, WaitQueue(w.Ctl(x.f).cond));
    }
    hide Inv;
  }

  lemma FiredStops(w: World, now: int, w': World, f: FiberId)
    requires Inv(w) && Next(w, Fire(now), w') && (w.Ctl(f).Polling? || w.Ctl(f).Sleeping? || w.Ctl(f).NotStarted?)
    ensures w'.Ctl(f) == w.Ctl(f) || (!w.Ctl(f).NotStarted? && w'.Ctl(f).Runnable?)
  {
    hide Inv;
    Outcomes.QueueMembership(w, f, ReadyQueue);
  }

  /** A stopped fiber stays stopped, or becomes runnable; a fiber starts only by being spawned. */
  lemma StoppedGoesOn(w: World, x: Step, w': World, f: FiberId)
    requires Inv(w) && Inv(w') && Next(w, x, w') && Calls.Stopped(w.Ctl(f)) && x != Spawn(f)
    ensures w.Ctl(f).NotStarted? ==> w'.Ctl(f).NotStarted?
    ensures !w.Ctl(f).NotStarted? ==> (Calls.Stopped(w'.Ctl(f)) && !w'.Ctl(f).NotStarted?) || w'.Ctl(f).Runnable?
  {
    hide Inv, Next;
    if w.Ctl(f).Locking? {
      Calls.LockingGoesOn(w, x, w', f);
    } else if w.Ctl(f).Waiting? {
      Outcomes.CondWaiterMoves(w, x, w', f);
    } else if x.Fire? {
      FiredStops(w, x.now, w', f);
    } else if x.Dispatch? || x.UnlockHandoff? || x.SignalOne? {
      WakersStops(w, x, w', f);
    } else if x.Handle? || x.Close? || x.Cancelio? {
      Outcomes.IoMovesPolling(w, x, w');
    } else {
      QuietStops(w, x, w', f);
    }
  }

  lemma ActorStarted(w: World, x: Step, w': World, f: FiberId)
    requires Next(w, x, w') && Calls.Actor(w, x) == Some(f) && Calls.Settled(w.Ctl(f)) && !x.Dispatch?
    requires !x.Close? && !x.Cancelio?
    ensures !w'.Ctl(f).NotStarted?
  {
  }

  /** The fiber that takes a step goes on running, or stops. */
  lemma ActorGoesOn(w: World, x: Step, w': World, f: FiberId)
    requires Inv(w) && Inv(w') && Next(w, x, w') && Calls.Actor(w, x) == Some(f) && Calls.Settled(w.Ctl(f))
    requires !x.Dispatch?
    ensures !w'.Ctl(f).NotStarted? && !w'.Ctl(f).Runnable?
  {
    hide Inv, Next;
    if x.Close? || x.Cancelio? {
      Outcomes.IoMovesPolling(w, x, w');
      NotRunnable(w, x, w', f);
    } else {
      ActorStarted(w, x, w', f);
      NotRunnable(w, x, w', f);
      Calls.SelfNotReady(w, x, w', f);
    }
  }

  lemma NotRunnable(w: World, x: Step, w': World, f: FiberId)
    requires Next(w, x, w') && Calls.Actor(w, x) == Some(f) && Calls.Settled(w.Ctl(f)) && !x.Dispatch?
    ensures !w.Ctl(f).Runnable?
  {
    if w.Ctl(f).Runnable? { Calls.OnlyDispatch(w, x, w', f); }
  }

  // ---- The steps of Sched -------------------------------------------------------------------

  /** `s` leads to `s'` by steps of Sched. */
  ghost predicate Leads(ss: seq<Sched.State>, steps: seq<Sched.Step>, s: Sched.State, s': Sched.State) {
    && |ss| == |steps| + 1 && ss[0] == s && ss[|steps|] == s'
    && forall i :: 0 <= i < |steps| ==> Sched.Next(ss[i], steps[i], ss[i + 1])
  }

  /** A choice of the thread that pthread_cond_signal wakes. */
  ghost function Woken(s: Sched.State): (t: Option<Sched.ThreadId>)
    ensures Sched.Signals(s, t)
  {
    if s.Sleepers() == {} then None else var t :| t in s.Sleepers(); Some(t)
  }

  /** One fiber is made ready after the other, as the code does. */
  lemma {:induction false} MakeAllReady(s: Sched.State, list: seq<FiberId>)
    returns (ss: seq<Sched.State>, steps: seq<Sched.Step>, s': Sched.State)
    requires Distinct(list) && forall f :: f in list ==> s.Token(f) == Sched.Parked
    ensures Leads(ss, steps, s, s') && s'.ready == s.ready + list
    ensures forall f: FiberId :: s'.Token(f) == if f in list then Sched.InReady else s.Token(f)
    decreases |list|
  {
    if list == [] {
      return [s], [], s;
    }
    var f, woken := list[0], Woken(s);
    var s1 := s.(ready := s.ready + [f], tokens := Sched.AllReady(s.tokens, [f]),
                 threads := Sched.Notify(s.threads, 1, woken));
    assert Sched.Next(s, Sched.MakeReady([f], woken), s1);
    assert list == [f] + list[1..];
    ReadyToken(s, s1, f);
    ss, steps, s' := MakeAllReady(s1, list[1..]);
    Prepend(s, Sched.MakeReady([f], woken), s1, ss, steps, s');
    ss, steps := [s] + ss, [Sched.MakeReady([f], woken)] + steps;
  }

  lemma ReadyToken(s: Sched.State, s1: Sched.State, f: FiberId)
    requires s.Token(f) == Sched.Parked && s1.tokens == Sched.AllReady(s.tokens, [f])
    ensures forall g: FiberId :: s1.Token(g) == if g == f then Sched.InReady else s.Token(g)
  {
  }

  lemma Prepend(s: Sched.State, v: Sched.Step, s1: Sched.State, ss: seq<Sched.State>, steps: seq<Sched.Step>,
                s': Sched.State)
    requires Sched.Next(s, v, s1) && Leads(ss, steps, s1, s')
    ensures Leads([s] + ss, [v] + steps, s, s')
  {
    hide Sched.Next;
    forall i | 0 <= i < |[v] + steps| ensures Sched.Next(([s] + ss)[i], ([v] + steps)[i], ([s] + ss)[i + 1]) {
      if i > 0 { assert Sched.Next(ss[i - 1], steps[i - 1], ss[i]); }
    }
  }

  lemma SpawnIsScheduled(s: Sched.State, w: World, f: FiberId, w': World)
    returns (ss: seq<Sched.State>, steps: seq<Sched.Step>, s': Sched.State)
    requires Agrees(s, w) && Next(w, Step.Spawn(f), w')
    ensures Leads(ss, steps, s, s') && Agrees(s', w')
  {
    var woken := Woken(s);
    s' := s.(ready := s.ready + [f], tokens := s.tokens[f := Sched.InReady], stored := s.stored + {f},
             threads := Sched.Notify(s.threads, 1, woken));
    assert s.Token(f) == Sched.Absent;
    assert Sched.Next(s, Sched.Create(f, woken), s');
    forall g: FiberId ensures TokenOk(s'.Token(g), w'.Ctl(g)) {
      if g != f { assert s'.Token(g) == s.Token(g) && w'.Ctl(g) == w.Ctl(g); }
    }
    return [s, s'], [Sched.Create(f, woken)], s';
  }

  lemma DispatchIsScheduled(s: Sched.State, w: World, w': World, t: Sched.ThreadId)
    returns (ss: seq<Sched.State>, steps: seq<Sched.Step>, s': Sched.State)
    requires Agrees(s, w) && Next(w, Step.Dispatch, w') && s.Is(t, Sched.Idle)
    ensures Leads(ss, steps, s, s') && Agrees(s', w')
  {
    var f := s.ready[0];
    s' := s.At(t, Sched.Popped(f)).(ready := s.ready[1..], tokens := s.tokens[f := Sched.Taken(t)]);
    assert Sched.Next(s, Sched.Pop(t), s');
    forall g: FiberId ensures TokenOk(s'.Token(g), w'.Ctl(g)) {
      if g != f { assert s'.Token(g) == s.Token(g) && w'.Ctl(g) == w.Ctl(g); }
    }
    return [s, s'], [Sched.Pop(t)], s';
  }

  /** The fiber has put itself in a queue. */
  ghost predicate Parks(w: World, x: Step, w': World, f: FiberId) {
    Calls.Actor(w, x) == Some(f) && Calls.Settled(w.Ctl(f)) && Calls.Stopped(w'.Ctl(f))
  }

  /** The park of the fiber that takes the step, if it stops. */
  lemma ParkFirst(s: Sched.State, w: World, x: Step, w': World)
    returns (ss: seq<Sched.State>, steps: seq<Sched.Step>, s1: Sched.State)
    requires ActorRuns(s, w, x) && !x.Spawn? && !x.Dispatch?
    ensures Leads(ss, steps, s, s1) && s1.ready == s.ready
    ensures forall f: FiberId :: s1.Token(f) == if Parks(w, x, w', f) then Sched.Parked else s.Token(f)
  {
    var actor := Calls.Actor(w, x);
    if actor.Some? && Parks(w, x, w', actor.value) {
      var f := actor.value;
      var t :| s.Is(t, Sched.Executing(f));
      s1 := s.(tokens := s.tokens[f := Sched.Parked]);
      assert Sched.Next(s, Sched.Park(t), s1);
      return [s, s1], [Sched.Park(t)], s1;
    }
    return [s], [], s;
  }

  /** The fibers that a step makes ready had stopped before. */
  lemma WokenHadStopped(w: World, x: Step, w': World, f: FiberId)
    requires Inv(w) && Inv(w') && Next(w, x, w') && x != Spawn(f)
    requires f !in w.mem.ready && f in w'.mem.ready
    ensures Calls.Stopped(w.Ctl(f)) && !w.Ctl(f).NotStarted?
  {
    hide Inv, Next;
    Calls.WakeEndsAStop(w, x, w', f);
    StoppedGoesOn(w, x, w', f);
    Outcomes.QueueMembership(w', f, ReadyQueue);
  }

  /** A fiber that is not made ready keeps its kind of position, unless it takes the step. */
  lemma OtherKind(w: World, x: Step, w': World, f: FiberId, token: Sched.Token)
    requires Inv(w) && Inv(w') && Next(w, x, w') && !x.Dispatch? && x != Spawn(f)
    requires f in w.mem.ready <==> f in w'.mem.ready
    requires TokenOk(token, w.Ctl(f))
    ensures Parks(w, x, w', f) ==> TokenOk(Sched.Parked, w'.Ctl(f))
    ensures !Parks(w, x, w', f) ==> TokenOk(token, w'.Ctl(f))
  {
    hide Inv, Next;
    Outcomes.QueueMembership(w, f, ReadyQueue);
    Outcomes.QueueMembership(w', f, ReadyQueue);
    if Calls.Stopped(w.Ctl(f)) {
      StoppedGoesOn(w, x, w', f);
    } else if Calls.Actor(w, x) == Some(f) {
      ActorGoesOn(w, x, w', f);
    } else {
      Calls.Undisturbed(w, x, w', f);
    }
  }

  lemma WokenKind(w': World, f: FiberId)
    requires Inv(w') && f in w'.mem.ready
    ensures TokenOk(Sched.InReady, w'.Ctl(f))
  {
    Outcomes.QueueMembership(w', f, ReadyQueue);
    hide Inv;
  }

  /** Any step of the machine but spawn and dispatch is a park of the fiber that takes it, or not, and
      then wake-ups of parked fibers. */
  lemma CallIsScheduled(s: Sched.State, w: World, x: Step, w': World)
    returns (ss: seq<Sched.State>, steps: seq<Sched.Step>, s': Sched.State)
    requires Agrees(s, w) && Inv(w) && Inv(w') && Next(w, x, w') && ActorRuns(s, w, x) && !x.Spawn? && !x.Dispatch?
    ensures Leads(ss, steps, s, s') && Agrees(s', w')
  {
    hide Inv, Next, ActorRuns, TokenOk, Leads, Distinct, Calls.Stopped;
    ReadyAppends(w, x, w');
    Calls.ReadyOnce(w);
    Calls.ReadyOnce(w');
    var list := w'.mem.ready[|w.mem.ready|..];
    TailApart(w.mem.ready, w'.mem.ready);
    forall f | f in list ensures s.Token(f) == Sched.Parked && !Parks(w, x, w', f) {
      WokenHadStopped(w, x, w', f);
      StoppedToken(s.Token(f), w.Ctl(f));
    }
    var ss0, steps0, s1 := ParkFirst(s, w, x, w');
    var ss1, steps1;
    ss1, steps1, s' := MakeAllReady(s1, list);
    ss, steps := Joined(ss0, steps0, s, s1, ss1, steps1, s');
    forall f: FiberId ensures TokenOk(s'.Token(f), w'.Ctl(f)) {
      if f in list {
        WokenKind(w', f);
      } else {
        OtherKind(w, x, w', f, s.Token(f));
      }
    }
  }

  lemma StoppedToken(token: Sched.Token, ctl: Control)
    requires TokenOk(token, ctl) && Calls.Stopped(ctl) && !ctl.NotStarted?
    ensures token == Sched.Parked && !Calls.Settled(ctl)
  {
  }

  lemma TailApart(a: seq<FiberId>, b: seq<FiberId>)
    requires a <= b && Distinct(b)
    ensures var tail := b[|a|..]; Distinct(tail) && b == a + tail
    ensures forall f :: f in b <==> f in a || f in b[|a|..]
    ensures forall f :: f in b[|a|..] ==> f !in a
  {
    assert b == a + b[|a|..];
  }

  lemma Joined(
    ss0: seq<Sched.State>, steps0: seq<Sched.Step>, s: Sched.State, s1: Sched.State,
    ss1: seq<Sched.State>, steps1: seq<Sched.Step>, s': Sched.State)
    returns (ss: seq<Sched.State>, steps: seq<Sched.Step>)
    requires Leads(ss0, steps0, s, s1) && Leads(ss1, steps1, s1, s')
    ensures Leads(ss, steps, s, s')
  {
    hide Sched.Next;
    ss, steps := ss0 + ss1[1..], steps0 + steps1;
    forall i | 0 <= i < |steps| ensures Sched.Next(ss[i], steps[i], ss[i + 1]) {
      if i < |steps0| {
        assert ss[i] == ss0[i] && ss[i + 1] == ss0[i + 1];
      } else {
        var j := i - |steps0|;
        assert ss[i] == ss1[j] && ss[i + 1] == ss1[j + 1];
      }
    }
  }

  /** Every step of the blocking code is a sequence of steps of the scheduler: its guards hold, and the
      states agree afterwards.  A dispatch needs an idle thread, and any other step of a fiber needs a
      thread that runs it. */
  lemma StepIsScheduled(s: Sched.State, w: World, x: Step, w': World, t: Sched.ThreadId)
    returns (ss: seq<Sched.State>, steps: seq<Sched.Step>, s': Sched.State)
    requires Agrees(s, w) && Inv(w) && Inv(w') && Next(w, x, w') && ActorRuns(s, w, x)
    requires x.Dispatch? ==> s.Is(t, Sched.Idle)
    ensures Leads(ss, steps, s, s') && Agrees(s', w')
  {
    hide Inv, Next, ActorRuns, Leads, Agrees;
    if x.Spawn? {
      ss, steps, s' := SpawnIsScheduled(s, w, x.f, w');
    } else if x.Dispatch? {
      ss, steps, s' := DispatchIsScheduled(s, w, w', t);
    } else {
      ss, steps, s' := CallIsScheduled(s, w, x, w');
    }
  }

  /** What the kernel threads do between the steps of the blocking code, such as resuming a fiber or
      releasing its spinlock, keeps the agreement. */
  lemma ThreadsKeepAgreement(s: Sched.State, w: World, v: Sched.Step, s': Sched.State)
    requires Agrees(s, w) && Sched.TokensOk(s) && Sched.Next(s, v, s')
    requires !v.Create? && !v.Pop? && !v.Park? && !v.MakeReady?
    ensures Agrees(s', w)
  {
    if v.Resume? { assert Sched.ThreadOk(s, v.t); }
    forall f: FiberId ensures TokenOk(s'.Token(f), w.Ctl(f)) { assert TokenOk(s.Token(f), w.Ctl(f)); }
  }

  /** The scheduler and the machine agree when they begin. */
  lemma StartsAgree(s: Sched.State, w: World)
    requires Sched.Start(s) && Init(w)
    ensures Agrees(s, w)
  {
    forall f: FiberId ensures TokenOk(s.Token(f), w.Ctl(f)) { assert w.Ctl(f) == NotStarted; }
  }
}
