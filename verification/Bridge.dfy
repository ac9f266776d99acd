/** The heap and the machine run together: a heap that stands for a world, and the methods on it, go
    through every run of the machine. */
module Bridge {
  import opened Memory
  import opened Objects
  import opened Heap
  import opened Machine
  import opened Invariant
  import Faults
  import Outcomes
  import Calls
  import IoLaws
  import CondCode
  import TimerCode

  /** The local variables of a melon_cond_signalnb in progress. */
  datatype Local = NoCall | Call(cond: Cond, list: Fiber?, rest: seq<Fiber>)

  /** The memory that the heap stands for: the waiters in a local list still wait in the machine. */
  ghost function Value(g: Melon, l: Local): Mem
    reads g, g.fibers.Values, g.mutexes.Values, g.conds.Values, g.io.Values
  {
    if l.NoCall? then g.View() else g.View().SetC(l.cond.id, Ids(l.rest))
  }

  /** The strays of the heap are the waiters in the local list and those that were dropped. */
  ghost predicate StraysAre(g: Melon, w: World, l: Local)
    reads g`strays
  {
    forall n <- g.strays :: (l.Call? && n in l.rest) || Faults.IsDropped(w, n.id)
  }

  /** A signaller is in its loop exactly if there is a local list. */
  ghost predicate SignallerIs(w: World, l: Local) {
    if l.NoCall? then w.big == None
    else
      && w.big.Some? && w.Ctl(w.big.value).SignalLoop?
      && w.Ctl(w.big.value).cond == l.cond.id
  }

  ghost predicate ListOk(g: Melon, l: Local)
    reads g, g.fibers.Values, g.mutexes.Values, g.conds.Values, g.io.Values
  {
    l.Call? ==> l.cond in g.conds.Values && CondCode.InLoop(g, l.cond, l.list, l.rest)
  }

  ghost predicate Represents(g: Melon, w: World, l: Local)
    reads g, g.fibers.Values, g.mutexes.Values, g.conds.Values, g.io.Values
  {
    g.Valid() && Value(g, l) == w.mem && StraysAre(g, w, l) && SignallerIs(w, l) && ListOk(g, l)
  }

  lemma ReprParts(g: Melon, w: World, l: Local)
    requires Represents(g, w, l)
    ensures g.Valid() && Value(g, l) == w.mem && StraysAre(g, w, l) && SignallerIs(w, l) && ListOk(g, l)
    ensures l.NoCall? ==> g.View() == w.mem
    ensures w.big == None <==> l.NoCall?
  {
    hide Melon.Valid, Melon.View, CondCode.InLoop;
  }

  lemma ReprWhole(g: Melon, w: World, l: Local)
    requires g.Valid() && Value(g, l) == w.mem && StraysAre(g, w, l) && SignallerIs(w, l) && ListOk(g, l)
    ensures Represents(g, w, l)
  {
    hide Melon.Valid, Melon.View, CondCode.InLoop;
  }

  // ---- What the invariant says about the heap -----------------------------------------------

  lemma NoQueueIsFree(g: Melon, n: Fiber)
    requires g.Valid() && n in g.fibers.Values && n !in g.strays
    requires forall q: QueueId :: n.id !in g.View().Queue(q)
    ensures g.Free(n)
  {
    hide Melon.View, Melon.Ringed, Melon.Timed, Melon.Pointed;
    if n in g.places {
      var q := g.places[n];
      assert n in g.queues[q] && g.HasQueue(q);
      g.QueueAt(q);
      g.MembersHere(q);
      g.IdsFacts(g.queues[q], n);
    }
  }

  /** The local list holds the fibers that the machine has in the condition's queue. */
  lemma LocalWaits(g: Melon, w: World, l: Local, n: Fiber)
    requires Represents(g, w, l) && Inv(w) && l.Call? && n in l.rest
    ensures w.Ctl(n.id).Waiting?
  {
    hide Inv, Melon.Valid, Melon.View, Represents, CondCode.InLoop;
    ReprParts(g, w, l);
    var i :| 0 <= i < |l.rest| && l.rest[i] == n;
    assert Ids(l.rest)[i] == n.id;
    Outcomes.QueueMembership(w, n.id, WaitQueue(l.cond.id));
  }

  lemma QueueOfValue(g: Melon, l: Local, q: QueueId)
    ensures Value(g, l).Queue(q) == if l.Call? && q == WaitQueue(l.cond.id) then Ids(l.rest) else g.View().Queue(q)
    ensures Value(g, l).timerQueue == g.View().timerQueue
  {
    hide Melon.View;
  }

  lemma EmptyWhileLocal(g: Melon, l: Local)
    requires ListOk(g, l) && l.Call?
    ensures g.View().C(l.cond.id) == []
  {
    hide Melon.Valid, Melon.View;
  }

  /** A fiber without a place in the machine is linked nowhere in the heap. */
  lemma Unplaced(g: Melon, w: World, l: Local, n: Fiber)
    requires Represents(g, w, l) && Inv(w) && n in g.fibers.Values
    requires PlaceOf(w.Ctl(n.id)) == None && !w.Ctl(n.id).Waiting?
    ensures g.Free(n)
  {
    hide Inv, Melon.Valid, Melon.View, Melon.Free, Represents, CondCode.InLoop, ListOk, Value;
    ReprParts(g, w, l);
    forall q: QueueId ensures n.id !in g.View().Queue(q) {
      Outcomes.QueueMembership(w, n.id, q);
      QueueOfValue(g, l, q);
      if l.Call? { EmptyWhileLocal(g, l); }
    }
    if l.Call? && n in l.rest { LocalWaits(g, w, l, n); }
    NoQueueIsFree(g, n);
  }

  /** A running fiber can be queued: by a call of lock, wait, waitfor or usleep. */
  lemma RunningIsFree(g: Melon, w: World, l: Local, n: Fiber)
    requires Represents(g, w, l) && Inv(w) && n in g.fibers.Values
    requires w.Ctl(n.id) == Running || w.Ctl(n.id).RetryTimedlock? || w.Ctl(n.id) == NotStarted
    ensures g.Free(n) && n.id !in g.View().timerQueue
  {
    hide Inv, Melon.Valid, Melon.View, Melon.Free, Represents, ListOk;
    Unplaced(g, w, l, n);
    ReprParts(g, w, l);
    QueueOfValue(g, l, ReadyQueue);
    Outcomes.QueueMembership(w, n.id, ReadyQueue);
  }

  /** Every armed timer finds what its callback expects. */
  lemma TimersCanFire(g: Melon, w: World)
    requires Represents(g, w, NoCall) && Inv(w)
    ensures TimerCode.AllFireable(g)
  {
    hide Inv, Melon.Valid, Melon.View, Melon.Free, Represents, ListOk;
    ReprParts(g, w, NoCall);
    forall n <- g.fibers.Values | n.id in g.View().timerQueue ensures TimerCode.Fireable(g, n) {
      Outcomes.QueueMembership(w, n.id, ReadyQueue);
      FiberPart(w, n.id);
      g.FiberRead(n);
      if w.Ctl(n.id) == Sleeping { Unplaced(g, w, NoCall, n); }
    }
    assert Distinct(g.View().timerQueue) by { QueueParts(w); }
  }

  // ---- What a step of the machine keeps -----------------------------------------------------

  /** A waiter that was dropped stays dropped. */
  lemma StraysStay(g: Melon, w: World, s: Step, w': World, l: Local)
    requires StraysAre(g, w, l) && Inv(w) && Inv(w') && Next(w, s, w')
    ensures StraysAre(g, w', l)
  {
    hide Inv, Next;
    forall n <- g.strays | Faults.IsDropped(w, n.id) ensures Faults.IsDropped(w', n.id) {
      Outcomes.DroppedForGood(w, s, w', n.id);
    }
  }

  /** A signaller in its loop is moved only by its own steps. */
  lemma SignallerStays(w: World, s: Step, w': World, l: Local)
    requires Inv(w) && Next(w, s, w') && SignallerIs(w, l) && !s.SignalBegin? && !s.SignalOne? && !s.SignalEnd?
    ensures SignallerIs(w', l)
  {
    hide Inv, Next;
    IoLaws.BigStays(w, s, w');
    if l.Call? {
      var f := w.big.value;
      if Calls.Actor(w, s) == Some(f) { Calls.SignalStepSelf(w, s, w', f); }
      Calls.Undisturbed(w, s, w', f);
    }
  }

  /** After a step that is not a signaller's, a heap with the right value represents the new world. */
  lemma Carries(g: Melon, w: World, s: Step, w': World, l: Local)
    requires Inv(w) && Inv(w') && Next(w, s, w') && !s.SignalBegin? && !s.SignalOne? && !s.SignalEnd?
    requires StraysAre(g, w, l) && SignallerIs(w, l)
    requires g.Valid() && Value(g, l) == w'.mem && ListOk(g, l)
    ensures Represents(g, w', l)
  {
    hide Inv, Next, Melon.Valid, Melon.View, ListOk, StraysAre, SignallerIs, Represents, Value;
    StraysStay(g, w, s, w', l);
    SignallerStays(w, s, w', l);
    ReprWhole(g, w', l);
  }

  /** The same for a step that needs g_melon.lock, so that no signaller is in its loop. */
  lemma CarriesAlone(g: Melon, w: World, s: Step, w': World)
    requires Inv(w) && Inv(w') && Next(w, s, w') && !s.SignalBegin? && !s.SignalOne? && !s.SignalEnd?
    requires StraysAre(g, w, NoCall) && SignallerIs(w, NoCall) && g.Valid() && g.View() == w'.mem
    ensures Represents(g, w', NoCall)
  {
    hide Inv, Next, Melon.Valid, Melon.View, StraysAre, SignallerIs;
    Carries(g, w, s, w', NoCall);
  }
}
