/** A run of the reader/writer lock in which a reader waits for ever: it comes while a writer holds the lock,
    and is not woken when the writer releases it (see RwLaws.WaitingReaderIsLost). */
module LostReader {
  import opened Memory
  import opened Machine
  import opened Invariant
  import opened RwLock
  import RwLaws

  /** Some run of the lock leads to the state. */
  ghost predicate Reached(s: State) {
    exists ss, moves :: RwLock.Run(ss, moves) && ss[|moves|] == s
  }

  lemma Goes(s: State, v: Move, s': State)
    requires Reached(s) && Moves(s, v, s')
    ensures Reached(s')
  {
    hide Moves, Start;
    var ss, moves :| RwLock.Run(ss, moves) && ss[|moves|] == s;
    var ss', moves' := ss + [s'], moves + [v];
    forall i | 0 <= i < |moves'| ensures Moves(ss'[i], moves'[i], ss'[i + 1]) {
      if i < |moves| { assert ss'[i] == ss[i] && ss'[i + 1] == ss[i + 1]; }
    }
    assert RwLock.Run(ss', moves') && ss'[|moves'|] == s';
  }

  /** Two running fibers, and a lock that nobody uses. */
  const TWO_FIBERS :=
    World(Mem([], [], Awake, map[], map[], map[], map[]), map[1 := Running, 2 := Running], map[], None)

  const UNUSED := State(TWO_FIBERS, 0, 0, 1, 0, false, None, map[], multiset{}, multiset{})

  lemma UnusedIsReached()
    ensures Reached(UNUSED)
  {
    assert Inv(TWO_FIBERS) by {
      forall f: FiberId ensures TWO_FIBERS.Ctl(f) == Running || TWO_FIBERS.Ctl(f) == NotStarted { }
      forall q: QueueId ensures TWO_FIBERS.mem.Queue(q) == [] { }
    }
    hide Inv;
    var ss: seq<State>, moves: seq<Move> := [UNUSED], [];
    assert RwLock.Run(ss, moves) && ss[|moves|] == UNUSED;
  }

  /** The internal mutex has no waiter, nobody signals, and no writer waits. */
  ghost predicate Calm(s: State) {
    && Reached(s) && s.m == 0 && s.wcond == 0 && s.rcond == 1
    && s.w.big == None && s.w.mem.C(0) == [] && s.w.mem.M(0).lockQueue == [] && !s.w.mem.M(0).isRecursive
  }

  /** Nothing has changed for anybody but `f`. */
  ghost predicate OnlyMoved(s: State, f: FiberId, s': State) {
    && (forall g: FiberId :: g != f ==> s'.Pc(g) == s.Pc(g) && s'.w.Ctl(g) == s.w.Ctl(g))
    && s'.w.mem.C(1) == s.w.mem.C(1)
  }

  ghost predicate HasMutex(s: State, f: FiberId) {
    s.Runs(f) && s.w.mem.M(0).owner == Some(f) && s.w.mem.M(0).lockCount == 1
  }

  lemma LockFree(w: World, f: FiberId) returns (w': World)
    requires w.Ctl(f) == Running && w.mem.M(0).owner == None
    ensures Next(w, Step.Lock(f, 0), w') && w'.Ctl(f) == Running && w'.big == w.big && w'.mem.conds == w.mem.conds
    ensures w'.mem.M(0) == w.mem.M(0).(owner := Some(f), lockCount := 1)
    ensures forall g: FiberId :: g != f ==> w'.Ctl(g) == w.Ctl(g)
  {
    w' := DoLock(w, f, 0).value;
  }

  /** A call gets the internal mutex at once. */
  lemma Asks(s: State, f: FiberId, op: Op) returns (s': State)
    requires Calm(s) && s.w.mem.M(0).owner == None && s.Pc(f) == Outside && s.Runs(f) && (op == Release ==> s.Holds(f))
    ensures Calm(s') && HasMutex(s', f) && SameFields(s, s') && OnlyMoved(s, f, s')
    ensures s'.Pc(f) == Entering(op, Forever)
  {
    hide Reached, Next;
    var w' := LockFree(s.w, f);
    s' := s.At(f, Entering(op, Forever)).(w := w');
    Goes(s, Call(f, op, Forever, 0), s');
  }

  lemma Locks(s: State, f: FiberId, op: Op) returns (s': State)
    requires Calm(s) && s.w.mem.M(0).owner == None && s.Pc(f) == Outside && s.Runs(f) && (op == Release ==> s.Holds(f))
    ensures Calm(s') && HasMutex(s', f) && SameFields(s, s') && OnlyMoved(s, f, s')
    ensures s'.Pc(f) == if op == Release then Uncounting else Checking(op, Forever)
  {
    hide Reached, Next;
    var s1 := Asks(s, f, op);
    s' := s1.At(f, AfterEntry(s1, f));
    Goes(s1, Entered(f), s');
  }

  /** The call gives it up again, and returns. */
  lemma Decrements(s: State, f: FiberId) returns (s': State)
    requires Calm(s) && HasMutex(s, f) && s.Pc(f) == ToUnlock
    ensures Calm(s') && s'.w.Ctl(f) == Unlocking(0, false) && s'.Pc(f) == Exiting && s'.w.mem.M(0).owner == Some(f)
    ensures SameFields(s, s') && OnlyMoved(s, f, s')
  {
    hide Reached;
    s' := s.At(f, Exiting).(w := DoUnlock(s.w, f, 0).value);
    Goes(s, Move.Unlock(f), s');
  }

  /** A fiber frees a mutex for which nobody waits. */
  lemma Frees(s: State, f: FiberId, ctl: Control) returns (s': State)
    requires Calm(s) && ReleasingMutex(s.w.Ctl(f)) == Some((0, false)) && ctl == AfterUnlock(s.w.Ctl(f))
    ensures Calm(s') && s'.w.Ctl(f) == ctl && s'.w.mem.M(0).owner == None && s'.pc == s.pc
    ensures SameFields(s, s') && OnlyMoved(s, f, s')
  {
    hide Reached;
    s' := s.(w := DoUnlockFast(s.w, f));
    Goes(s, Runtime(UnlockFast(f)), s');
  }

  lemma Unlocks(s: State, f: FiberId) returns (s': State)
    requires Calm(s) && HasMutex(s, f) && s.Pc(f) == ToUnlock
    ensures Calm(s') && s'.w.mem.M(0).owner == None && s'.Runs(f) && s'.Pc(f) == Outside
    ensures SameFields(s, s') && OnlyMoved(s, f, s')
  {
    hide Reached, Next;
    var s1 := Decrements(s, f);
    var s2 := Frees(s1, f, Running);
    s' := s2.At(f, Outside);
    Goes(s2, Return(f), s');
  }

  /** A writer takes the free lock. */
  lemma Takes(s: State, f: FiberId) returns (s': State)
    requires Calm(s) && HasMutex(s, f) && s.Pc(f) == Checking(WriteLock, Forever) && s.lockCount == 0
    requires s.readers == multiset{} && s.writers == multiset{}
    ensures Calm(s') && HasMutex(s', f) && s'.Pc(f) == ToUnlock && OnlyMoved(s, f, s')
    ensures s'.lockCount == 1 && !s'.isRead && s'.readers == multiset{} && s'.writers == multiset{f}
  {
    hide Reached;
    var s1 := s.At(f, Claiming(WriteLock));
    Goes(s, Move.Check(f, 0), s1);
    var s2 := s1.At(f, Counting(WriteLock)).(isRead := false, wowner := Some(f));
    Goes(s1, Move.Claim(f), s2);
    s' := s2.At(f, ToUnlock).(lockCount := 1, writers := s.writers + multiset{f});
    Goes(s2, Count(f), s');
  }

  /** A reader finds a writer, and waits. */
  lemma Waits(s: State, f: FiberId) returns (s': State)
    requires Calm(s) && HasMutex(s, f) && s.Pc(f) == Checking(ReadLock, Forever) && s.lockCount == 1 && !s.isRead
    ensures Calm(s') && SameFields(s, s') && s'.Pc(f) == Blocked(ReadLock, Forever)
    ensures s'.w.Ctl(f) == Waiting(1, 0, false, Pushed, false)
    ensures forall g: FiberId :: g != f ==> s'.Pc(g) == s.Pc(g) && s'.w.Ctl(g) == s.w.Ctl(g)
  {
    hide Reached;
    s' := s.At(f, Blocked(ReadLock, Forever)).(w := DoCondWait(s.w, f, 1, 0).value);
    Goes(s, Move.Check(f, 0), s');
  }

  lemma GivesUp(s: State, f: FiberId) returns (s': State)
    requires Calm(s) && s.w.Ctl(f) == Waiting(1, 0, false, Pushed, false)
    ensures Calm(s') && SameFields(s, s') && OnlyMoved(s, f, s') && s'.pc == s.pc
    ensures s'.w.Ctl(f) == Waiting(1, 0, false, Releasing, false)
  {
    hide Reached;
    s' := s.(w := DoCondRelease(s.w, f));
    Goes(s, Runtime(CondRelease(f)), s');
  }

  lemma Blocks(s: State, f: FiberId) returns (s': State)
    requires Calm(s) && HasMutex(s, f) && s.Pc(f) == Checking(ReadLock, Forever) && s.lockCount == 1 && !s.isRead
    ensures Calm(s') && s'.w.mem.M(0).owner == None && SameFields(s, s')
    ensures s'.Pc(f) == Blocked(ReadLock, Forever) && RwLaws.WaitsForGood(s'.w, f, 1)
    ensures forall g: FiberId :: g != f ==> s'.Pc(g) == s.Pc(g) && s'.w.Ctl(g) == s.w.Ctl(g)
  {
    hide Calm;
    var s1 := Waits(s, f);
    var s2 := GivesUp(s1, f);
    s' := Frees(s2, f, Waiting(1, 0, false, Parked, false));
  }

  /** The writer gives the lock up, and signals the writers' condition. */
  lemma Releases(s: State, f: FiberId) returns (s': State)
    requires Calm(s) && HasMutex(s, f) && s.Pc(f) == Uncounting && s.lockCount == 1
    requires s.readers == multiset{} && s.writers == multiset{f}
    ensures Calm(s') && HasMutex(s', f) && s'.Pc(f) == ToUnlock && OnlyMoved(s, f, s')
    ensures s'.lockCount == 0 && s'.readers == multiset{} && s'.writers == multiset{}
  {
    hide Reached;
    var s1 := s.At(f, Clearing).(lockCount := 0, readers := s.readers - multiset{f},
                                 writers := s.writers - multiset{f});
    Goes(s, Uncount(f), s1);
    var s2 := s1.At(f, ToSignal).(wowner := None);
    Goes(s1, Clear(f), s2);
    s' := SignalsNobody(s2, f);
  }

  lemma Begins(s: State, f: FiberId) returns (s': State)
    requires Calm(s) && HasMutex(s, f) && s.Pc(f) == ToSignal
    ensures s'.w == s.w.(control := s.w.control[f := SignalLoop(0, 1, 0, 0)], big := Some(f))
    ensures Reached(s') && s' == s.At(f, Signalling).(w := s'.w)
  {
    hide Reached;
    s' := s.At(f, Signalling).(w := DoSignalBegin(s.w, f, 0, 1));
    Goes(s, Move.Signal(f), s');
  }

  lemma Ends(s: State, f: FiberId) returns (s': State)
    requires Reached(s) && s.w.big == Some(f) && s.w.Ctl(f) == SignalLoop(0, 1, 0, 0) && s.w.mem.C(0) == []
    ensures Reached(s') && s' == s.(w := s'.w) && s'.w.mem == s.w.mem.SetC(0, []) && s'.w.big == None
    ensures s'.w.Ctl(f) == Running && forall g: FiberId :: g != f ==> s'.w.Ctl(g) == s.w.Ctl(g)
  {
    hide Reached;
    s' := s.(w := DoSignalEnd(s.w, f));
    Goes(s, Runtime(SignalEnd(f)), s');
  }

  lemma SignalsNobody(s: State, f: FiberId) returns (s': State)
    requires Calm(s) && HasMutex(s, f) && s.Pc(f) == ToSignal
    ensures Calm(s') && HasMutex(s', f) && s'.Pc(f) == ToUnlock && OnlyMoved(s, f, s') && SameFields(s, s')
  {
    hide Reached, Next;
    var s1 := Begins(s, f);
    var s2 := Ends(s1, f);
    s' := s2.At(f, ToUnlock);
    Goes(s2, Signalled(f), s');
  }

  /** A run leads to a state in which nobody holds the lock, and a reader that called
      melon_rwlock_rdlock waits; by RwLaws.WaitingReaderIsLost it does so for ever. */
  lemma RunOfALostReader() returns (s: State)
    ensures Reached(s) && s.lockCount == 0 && s.readers == multiset{} && s.writers == multiset{}
    ensures s.Pc(1) == Outside && s.Pc(2) == Blocked(ReadLock, Forever)
    ensures RwLaws.WaitsForGood(s.w, 2, s.rcond) && s.wcond != s.rcond && !s.w.SpinHeld(s.rcond)
  {
    hide Reached;
    UnusedIsReached();
    var s1 := Locks(UNUSED, 1, WriteLock);
    var s2 := Takes(s1, 1);
    var s3 := Unlocks(s2, 1);
    var s4 := Locks(s3, 2, ReadLock);
    var s5 := Blocks(s4, 2);
    var s6 := Locks(s5, 1, Release);
    var s7 := Releases(s6, 1);
    s := Unlocks(s7, 1);
  }
}
