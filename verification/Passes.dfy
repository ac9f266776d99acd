/** The loops of the runtime, each as a whole: melon_cond_signalnb, the expiry pass of the timer
    thread, the release of a descriptor's queues. */
module Passes {
  import opened Memory
  import opened Machine
  import opened Invariant
  import Regions
  import Safety
  import Faults

  // ---- melon_cond_signalnb conserves waiters ------------------------------------------------

  /** Those who will have had the mutex: its owner, then its lock queue. */
  function Line(mem: Mem, m: MutexId): seq<FiberId> {
    (if mem.M(m).owner.Some? then [mem.M(m).owner.value] else []) + mem.M(m).lockQueue
  }

  /** The fibers of `q` that saved `m` when they began to wait, in order. */
  function WaitersFor(mem: Mem, q: seq<FiberId>, m: MutexId): seq<FiberId> {
    if q == [] then []
    else (if mem.F(q[0]).condMutex == Some(m) then [q[0]] else []) + WaitersFor(mem, q[1..], m)
  }

  /** The mutex that a fiber saved when it began to wait. */
  function Saved(mem: Mem, f: FiberId): MutexId {
    if mem.F(f).condMutex.Some? then mem.F(f).condMutex.value else 0
  }

  predicate OwnsSaved(mem: Mem, f: FiberId) {
    mem.F(f).condMutex.Some? && mem.M(Saved(mem, f)).owner == Some(f)
  }

  /** The fibers of `q` that own the mutex they saved, in order. */
  function Owners(mem: Mem, q: seq<FiberId>): seq<FiberId> {
    if q == [] then []
    else (if OwnsSaved(mem, q[0]) then [q[0]] else []) + Owners(mem, q[1..])
  }

  /** `s` without the fibers of `q`. */
  function Minus(s: seq<FiberId>, q: seq<FiberId>): seq<FiberId>
    decreases |q|
  {
    if q == [] then s else Minus(Without(s, q[0]), q[1..])
  }

  lemma WithoutAbsent(s: seq<FiberId>, x: FiberId)
    requires x !in s
    ensures Without(s, x) == s
  {
  }

  ghost predicate FreeIsEmpty(mem: Mem) {
    forall m: MutexId :: mem.M(m).owner == None ==> mem.M(m).lockQueue == []
  }

  /** A waiter is in the timer queue exactly if its timer is positive. */
  ghost predicate TimersMatch(mem: Mem, q: seq<FiberId>) {
    forall f :: f in q ==> (f in mem.timerQueue <==> mem.F(f).timer > 0)
  }

  lemma {:induction false} SameWaiters(mem: Mem, mem': Mem, q: seq<FiberId>, m: MutexId)
    requires forall f :: f in q ==> mem'.F(f).condMutex == mem.F(f).condMutex
    ensures WaitersFor(mem', q, m) == WaitersFor(mem, q, m)
  {
    if q != [] {
      SameWaiters(mem, mem', q[1..], m);
    }
  }

  /** One wake-up moves the head of the condition to the end of the line of its mutex. */
  lemma SignalOneLine(mem: Mem, c: CondId, mem': Mem, m: MutexId)
    requires mem.C(c) != [] && Regions.SignalOne(mem, c) == Ok(mem') && FreeIsEmpty(mem)
    ensures Line(mem', m) == Line(mem, m) + (if mem.F(mem.C(c)[0]).condMutex == Some(m) then [mem.C(c)[0]] else [])
    ensures mem'.M(m).owner == None ==> mem'.M(m).lockQueue == []
    ensures mem.M(m).owner.Some? ==> mem'.M(m).owner == mem.M(m).owner
    ensures mem.M(m).owner == None && mem.F(mem.C(c)[0]).condMutex == Some(m) ==> mem'.M(m).owner == Some(mem.C(c)[0])
  {
  }

  lemma SignalOneRest(mem: Mem, c: CondId, mem': Mem)
    requires mem.C(c) != [] && Regions.SignalOne(mem, c) == Ok(mem') && TimersMatch(mem, mem.C(c)) && FreeIsEmpty(mem)
    ensures
      var f := mem.C(c)[0];
      && mem'.C(c) == mem.C(c)[1..] && (forall d: CondId :: d != c ==> mem'.C(d) == mem.C(d))
      && mem'.timerQueue == Without(mem.timerQueue, f)
      && mem'.F(f).timer == 0 && mem'.F(f).timeout == mem.F(f).timeout && mem'.F(f).condMutex == mem.F(f).condMutex
      && (forall g: FiberId :: g != f ==> mem'.F(g) == mem.F(g))
      && mem'.ready == mem.ready + (if mem.M(Saved(mem, f)).owner == None then [f] else [])
  {
    var f := mem.C(c)[0];
    if mem.F(f).timer <= 0 { WithoutAbsent(mem.timerQueue, f); }
  }

  /** Each mutex gains, at the end of its line, the fibers of `q` that saved it; no owner changes. */
  ghost predicate Joined(mem: Mem, q: seq<FiberId>, mem': Mem) {
    forall m: MutexId ::
      && Line(mem', m) == Line(mem, m) + WaitersFor(mem, q, m)
      && (mem.M(m).owner.Some? ==> mem'.M(m).owner == mem.M(m).owner)
  }

  /** The fibers of `q` are out of the timer queue, their flags untouched, and those that own the
      mutex they saved are ready; nothing else changes but the mutexes. */
  ghost predicate Signalled(mem: Mem, c: CondId, q: seq<FiberId>, mem': Mem) {
    && mem'.timerQueue == Minus(mem.timerQueue, q)
    && mem'.ready == mem.ready + Owners(mem', q)
    && mem'.C(c) == [] && (forall d: CondId :: d != c ==> mem'.C(d) == mem.C(d))
    && (forall f: FiberId :: f !in q ==> mem'.F(f) == mem.F(f))
    && (forall f: FiberId :: f in q ==>
          mem'.F(f).timer == 0 && mem'.F(f).timeout == mem.F(f).timeout && mem'.F(f).condMutex == mem.F(f).condMutex)
  }

  lemma JoinStep(mem: Mem, c: CondId, mem1: Mem, q: seq<FiberId>, mem': Mem)
    requires mem.C(c) != [] && Regions.SignalOne(mem, c) == Ok(mem1) && Joined(mem1, q, mem')
    requires FreeIsEmpty(mem) && mem.C(c)[0] !in q
    requires forall g: FiberId :: mem1.F(g).condMutex == mem.F(g).condMutex
    ensures Joined(mem, [mem.C(c)[0]] + q, mem')
    ensures var f := mem.C(c)[0];
            mem.M(Saved(mem, f)).owner == None <==> mem'.M(Saved(mem, f)).owner == Some(f)
  {
    hide Regions.SignalOne, FreeIsEmpty, Line, WaitersFor;
    var f := mem.C(c)[0];
    forall m: MutexId
      ensures Line(mem', m) == Line(mem, m) + WaitersFor(mem, [f] + q, m)
      ensures mem.M(m).owner.Some? ==> mem'.M(m).owner == mem.M(m).owner
    {
      SignalOneLine(mem, c, mem1, m);
      SameWaiters(mem, mem1, q, m);
      WaitersForCons(mem, f, q, m);
    }
    SignalOneLine(mem, c, mem1, Saved(mem, f));
    NotOwner(mem, c);
  }

  lemma WaitersForCons(mem: Mem, f: FiberId, q: seq<FiberId>, m: MutexId)
    ensures WaitersFor(mem, [f] + q, m) == (if mem.F(f).condMutex == Some(m) then [f] else []) + WaitersFor(mem, q, m)
  {
    assert ([f] + q)[1..] == q;
  }

  lemma OwnersCons(mem: Mem, f: FiberId, q: seq<FiberId>)
    ensures Owners(mem, [f] + q) == (if OwnsSaved(mem, f) then [f] else []) + Owners(mem, q)
  {
    assert ([f] + q)[1..] == q;
  }

  /** melon_mutex_lock2 asserts that the waiter is not the owner. */
  lemma NotOwner(mem: Mem, c: CondId)
    requires mem.C(c) != [] && Regions.SignalOne(mem, c).Ok?
    ensures var f := mem.C(c)[0]; mem.F(f).condMutex.Some? && mem.M(Saved(mem, f)).owner != Some(f)
  {
  }

  lemma SignalStep(mem: Mem, c: CondId, mem1: Mem, q: seq<FiberId>, mem': Mem)
    requires mem.C(c) != [] && Regions.SignalOne(mem, c) == Ok(mem1)
    requires Signalled(mem1, c, q, mem') && Joined(mem1, q, mem')
    requires FreeIsEmpty(mem) && TimersMatch(mem, mem.C(c)) && mem.C(c)[0] !in q
    ensures Signalled(mem, c, [mem.C(c)[0]] + q, mem') && Joined(mem, [mem.C(c)[0]] + q, mem')
  {
    hide Regions.SignalOne, FreeIsEmpty, TimersMatch, Joined, Owners;
    var f := mem.C(c)[0];
    SignalOneRest(mem, c, mem1);
    JoinStep(mem, c, mem1, q, mem');
    NotOwner(mem, c);
    OwnersCons(mem', f, q);
    assert ([f] + q)[1..] == q;
  }

  lemma {:induction false} LoopConserves(mem: Mem, c: CondId, nb: nat, woken: nat, mem': Mem, total: nat)
    requires Regions.SignalLoop(mem, c, nb, woken) == Ok((mem', total))
    requires FreeIsEmpty(mem) && TimersMatch(mem, mem.C(c)) && Distinct(mem.C(c)) && Distinct(mem.timerQueue)
    requires nb > 0 ==> woken <= nb
    ensures woken <= total <= woken + |mem.C(c)|
    ensures total == if nb == 0 || woken + |mem.C(c)| <= nb then woken + |mem.C(c)| else nb
    ensures Signalled(mem, c, mem.C(c)[..total - woken], mem') && Joined(mem, mem.C(c)[..total - woken], mem')
    decreases |mem.C(c)|
  {
    hide Signalled, Joined, Distinct, Regions.SignalOne, FreeIsEmpty, TimersMatch;
    var q := mem.C(c);
    if q == [] || (nb > 0 && woken >= nb) {
      NothingSignalled(mem, c);
      assert q[..0] == [];
    } else {
      var mem1 := Regions.SignalOne(mem, c).value;
      LoopStep(mem, c, mem1);
      LoopConserves(mem1, c, nb, woken + 1, mem', total);
      var rest := q[1..][..total - woken - 1];
      SignalStep(mem, c, mem1, rest, mem');
      assert [q[0]] + rest == q[..total - woken];
    }
  }

  /** A wake-up keeps what the loop relies on. */
  lemma LoopStep(mem: Mem, c: CondId, mem1: Mem)
    requires mem.C(c) != [] && Regions.SignalOne(mem, c) == Ok(mem1)
    requires FreeIsEmpty(mem) && TimersMatch(mem, mem.C(c)) && Distinct(mem.C(c)) && Distinct(mem.timerQueue)
    ensures FreeIsEmpty(mem1) && TimersMatch(mem1, mem1.C(c)) && Distinct(mem1.C(c)) && Distinct(mem1.timerQueue)
    ensures mem1.C(c) == mem.C(c)[1..] && mem.C(c)[0] !in mem1.C(c)
  {
    SignalOneRest(mem, c, mem1);
    forall m: MutexId ensures mem1.M(m).owner == None ==> mem1.M(m).lockQueue == [] { SignalOneLine(mem, c, mem1, m); }
    WithoutFacts(mem.timerQueue, mem.C(c)[0]);
    hide Regions.SignalOne;
  }

  lemma NothingSignalled(mem: Mem, c: CondId)
    ensures Signalled(mem, c, [], mem.SetC(c, [])) && Joined(mem, [], mem.SetC(c, []))
  {
  }

  lemma SignalStart(w: World, c: CondId)
    requires Inv(w)
    ensures FreeIsEmpty(w.mem) && TimersMatch(w.mem, w.mem.C(c)) && Distinct(w.mem.C(c)) && Distinct(w.mem.timerQueue)
  {
    hide Inv;
    QueueParts(w);
    forall m: MutexId ensures w.mem.M(m).owner == None ==> w.mem.M(m).lockQueue == [] { MutexPart(w, m); }
    assert Distinct(w.mem.Queue(WaitQueue(c)));
    forall f | f in w.mem.C(c) ensures f in w.mem.timerQueue <==> w.mem.F(f).timer > 0 {
      assert f in w.mem.Queue(WaitQueue(c));
      FiberPart(w, f);
      assert f in w.mem.timerQueue <==> InTimers(w.Ctl(f));
    }
  }

  /** melon_cond_signalnb pops the first waiters of the queue, as many as it returns: all of them
      for a broadcast.  In their order they join the lines of the mutexes they saved, those that
      own their mutex at the end have been made ready, and they leave the timer queue; nobody else
      is concerned, and the condition's queue is empty. */
  lemma SignalConserves(w: World, c: CondId, nb: nat, mem': Mem, total: nat)
    requires Inv(w) && Regions.SignalLoop(w.mem, c, nb, 0) == Ok((mem', total))
    ensures total == if nb == 0 || |w.mem.C(c)| <= nb then |w.mem.C(c)| else nb
    ensures Joined(w.mem, w.mem.C(c)[..total], mem')
    ensures Signalled(w.mem, c, w.mem.C(c)[..total], mem')
  {
    var q := w.mem.C(c);
    hide Inv, Signalled, Joined, Regions.SignalLoop;
    SignalStart(w, c);
    LoopConserves(w.mem, c, nb, 0, mem', total);
    assert q[..total] == q[..total - 0];
  }

  /** The line of a mutex that stays with its owner is its lock queue behind the owner. */
  lemma JoinedBehindOwner(mem: Mem, q: seq<FiberId>, m: MutexId, mem': Mem)
    requires Joined(mem, q, mem') && mem.M(m).owner.Some?
    ensures mem'.M(m).lockQueue == mem.M(m).lockQueue + WaitersFor(mem, q, m)
    ensures mem'.M(m).owner == mem.M(m).owner
  {
    var line, line' := Line(mem, m), Line(mem', m);
    assert line' == line + WaitersFor(mem, q, m);
    assert line'[1..] == mem'.M(m).lockQueue && line[1..] == mem.M(m).lockQueue;
  }

  /** Under a broadcast by the owner of their mutex, which every waiter saved, all the waiters join
      the lock queue in the order in which they waited, and nobody is made ready. */
  lemma BroadcastByOwner(w: World, c: CondId, m: MutexId, mem': Mem, total: nat)
    requires Inv(w) && Regions.SignalLoop(w.mem, c, 0, 0) == Ok((mem', total))
    requires w.mem.M(m).owner.Some?
    requires forall f :: f in w.mem.C(c) ==> w.mem.F(f).condMutex == Some(m)
    ensures total == |w.mem.C(c)| && mem'.C(c) == []
    ensures mem'.M(m).lockQueue == w.mem.M(m).lockQueue + w.mem.C(c)
    ensures mem'.M(m).owner == w.mem.M(m).owner
    ensures forall f :: f in w.mem.C(c) ==> f !in mem'.timerQueue
    ensures mem'.ready == w.mem.ready + Owners(mem', w.mem.C(c))
  {
    var q := w.mem.C(c);
    hide Inv, Regions.SignalLoop, Joined;
    SignalConserves(w, c, 0, mem', total);
    assert q[..total] == q;
    JoinedBehindOwner(w.mem, q, m, mem');
    AllWaitFor(w.mem, q, m);
    TimersDistinct(w);
    MinusFacts(w.mem.timerQueue, q);
  }

  lemma TimersDistinct(w: World)
    requires Inv(w)
    ensures Distinct(w.mem.timerQueue)
  {
  }

  lemma {:induction false} AllWaitFor(mem: Mem, q: seq<FiberId>, m: MutexId)
    requires forall f :: f in q ==> mem.F(f).condMutex == Some(m)
    ensures WaitersFor(mem, q, m) == q
  {
    if q != [] {
      AllWaitFor(mem, q[1..], m);
    }
  }

  lemma {:induction false} MinusFacts(s: seq<FiberId>, q: seq<FiberId>)
    requires Distinct(s)
    ensures Distinct(Minus(s, q))
    ensures forall f :: f in Minus(s, q) <==> f in s && f !in q
    decreases |q|
  {
    if q != [] {
      WithoutFacts(s, q[0]);
      MinusFacts(Without(s, q[0]), q[1..]);
    }
  }

  /** A call of melon_cond_signalnb that nobody interleaves with computes SignalLoop. */
  lemma {:induction false} UndisturbedSignal(ws: seq<World>, f: FiberId)
    requires |ws| > 0 && ws[0].Ctl(f).SignalLoop?
    requires forall i :: 0 <= i < |ws| - 1 ==> Next(ws[i], Step.SignalOne(f), ws[i + 1])
    requires Enabled(ws[|ws| - 1], SignalEnd(f))
    ensures
      var SignalLoop(c, nb, woken, _), last := ws[0].Ctl(f), ws[|ws| - 1];
      && last.Ctl(f).SignalLoop?
      && Regions.SignalLoop(ws[0].mem, c, nb, woken) == Ok((DoSignalEnd(last, f).mem, last.Ctl(f).woken))
  {
    hide Next, Enabled, Regions.SignalOne, Regions.SignalLoop, SignalGoesOn, DoSignalEnd;
    if |ws| > 1 {
      var SignalLoop(c, nb, woken, _) := ws[0].Ctl(f);
      SignalMoves(ws[0], f, ws[1]);
      SignalUnfolds(ws[0].mem, ws[0].Ctl(f), ws[1].mem);
      UndisturbedSignal(ws[1..], f);
    } else {
      SignalStops(ws[0], f);
    }
  }

  lemma SignalUnfolds(mem: Mem, ctl: Control, mem1: Mem)
    requires ctl.SignalLoop? && SignalGoesOn(mem, ctl) && Regions.SignalOne(mem, ctl.cond) == Ok(mem1)
    ensures Regions.SignalLoop(mem, ctl.cond, ctl.nb, ctl.woken)
        == Regions.SignalLoop(mem1, ctl.cond, ctl.nb, ctl.woken + 1)
  {
    hide Regions.SignalOne;
  }

  lemma SignalStops(w: World, f: FiberId)
    requires Enabled(w, SignalEnd(f))
    ensures
      && w.Ctl(f).SignalLoop?
      && var SignalLoop(c, nb, woken, _) := w.Ctl(f);
         Regions.SignalLoop(w.mem, c, nb, woken) == Ok((DoSignalEnd(w, f).mem, woken))
  {
    hide Regions.SignalOne;
  }

  lemma SignalMoves(w: World, f: FiberId, w1: World)
    requires Next(w, Step.SignalOne(f), w1)
    ensures w1.Ctl(f) == w.Ctl(f).(woken := w.Ctl(f).woken + 1)
    ensures Regions.SignalOne(w.mem, w.Ctl(f).cond) == Ok(w1.mem)
    ensures SignalGoesOn(w.mem, w.Ctl(f))
  {
    hide Regions.SignalOne;
  }

  // ---- The expiry pass ----------------------------------------------------------------------

  /** The timer thread, from its wake-up to the end of the expiry loop at time `now`. */
  ghost predicate Pass(ws: seq<World>, now: int) {
    && |ws| > 0 && Inv(ws[0]) && ws[0].big == None && ws[0].mem.timerThread == Awake
    && (forall i :: 0 <= i < |ws| - 1 ==> Next(ws[i], Fire(now), ws[i + 1]))
    && !Enabled(ws[|ws| - 1], Fire(now))
  }

  lemma FiringKeepsTheRest(w: World, now: int, w': World)
    requires Next(w, Fire(now), w')
    ensures w'.mem.timerQueue == w.mem.timerQueue[1..]
    ensures w'.big == w.big && w'.mem.timerThread == w.mem.timerThread
    ensures forall f: FiberId :: f != w.mem.timerQueue[0] ==> w'.mem.F(f) == w.mem.F(f) && w'.Ctl(f) == w.Ctl(f)
    ensures w.mem.F(w.mem.timerQueue[0]).timer <= now
    ensures Regions.FireHead(w.mem) == Ok(w'.mem)
  {
    Regions.FireShrinks(w.mem);
    hide Regions.FireHead;
  }

  lemma PassSorted(ws: seq<World>, now: int)
    requires Pass(ws, now)
    ensures
      var w := ws[0];
      var q := w.mem.timerQueue;
      && Distinct(q)
      && forall i, j :: 0 <= i < j < |q| ==> q[i] != q[j] && w.mem.F(q[i]).timer <= w.mem.F(q[j]).timer
  {
    QueueParts(ws[0]);
  }

  lemma {:induction false} PassAt(ws: seq<World>, now: int, i: nat)
    requires Pass(ws, now) && i < |ws|
    ensures Inv(ws[i]) && ws[i].big == None && ws[i].mem.timerThread == Awake
    ensures i <= |ws[0].mem.timerQueue| && ws[i].mem.timerQueue == ws[0].mem.timerQueue[i..]
    ensures forall f :: f in ws[0].mem.timerQueue[i..] ==> ws[i].mem.F(f) == ws[0].mem.F(f)
  {
    if i > 0 {
      PassAt(ws, now, i - 1);
      hide Inv, Next;
      PassSorted(ws, now);
      FiringKeepsTheRest(ws[i - 1], now, ws[i]);
      Safety.NextKeeps(ws[i - 1], Fire(now), ws[i]);
      var q := ws[0].mem.timerQueue;
      assert q[i - 1..][0] == q[i - 1] && q[i - 1..][1..] == q[i..];
      forall f | f in q[i..] ensures ws[i].mem.F(f) == ws[0].mem.F(f) {
        assert f in q[i - 1..] && f != q[i - 1];
      }
    }
  }

  lemma FiredIsDue(ws: seq<World>, now: int, i: nat)
    requires Pass(ws, now) && i < |ws| - 1
    ensures i < |ws[0].mem.timerQueue| && ws[0].mem.F(ws[0].mem.timerQueue[i]).timer <= now
  {
    PassAt(ws, now, i);
    var q := ws[0].mem.timerQueue;
    FiringKeepsTheRest(ws[i], now, ws[i + 1]);
    assert q[i..] != [] && q[i..][0] == q[i];
  }

  lemma LeftIsNotDue(ws: seq<World>, now: int)
    requires Pass(ws, now)
    ensures
      var q, fired := ws[0].mem.timerQueue, |ws| - 1;
      fired < |q| ==> ws[0].mem.F(q[fired]).timer > now
  {
    var q, fired := ws[0].mem.timerQueue, |ws| - 1;
    PassAt(ws, now, fired);
    hide Inv, Next;
    if fired < |q| { assert q[fired..] != [] && q[fired..][0] == q[fired]; }
  }

  /** One pass fires exactly the timers that are due: the ones in the first places of the queue,
      each once, in non-decreasing order of time.  The other timers stay, in order. */
  lemma ExpiryPass(ws: seq<World>, now: int)
    requires Pass(ws, now)
    ensures
      var w := ws[0];
      var q := w.mem.timerQueue;
      var fired := |ws| - 1;
      && fired <= |q|
      && (forall i :: 0 <= i <= fired ==> ws[i].mem.timerQueue == q[i..])
      && (forall i :: 0 <= i < |q| ==> (i < fired <==> w.mem.F(q[i]).timer <= now))
      && (forall i, j :: 0 <= i < j < fired ==> q[i] != q[j] && w.mem.F(q[i]).timer <= w.mem.F(q[j]).timer)
  {
    var w, fired := ws[0], |ws| - 1;
    var q := w.mem.timerQueue;
    hide Pass;
    PassSorted(ws, now);
    PassAt(ws, now, fired);
    forall i | 0 <= i <= fired ensures ws[i].mem.timerQueue == q[i..] { PassAt(ws, now, i); }
    forall i | 0 <= i < fired ensures w.mem.F(q[i]).timer <= now { FiredIsDue(ws, now, i); }
    forall i | fired <= i < |q| ensures w.mem.F(q[i]).timer > now {
      LeftIsNotDue(ws, now);
      assert w.mem.F(q[fired]).timer <= w.mem.F(q[i]).timer;
    }
  }

  /** The loop computes the memory at the end of the pass. */
  lemma {:induction false} PassIsExpire(ws: seq<World>, now: int)
    requires Pass(ws, now)
    ensures Regions.Expire(ws[0].mem, now) == Ok(ws[|ws| - 1].mem)
    decreases |ws|
  {
    if |ws| > 1 {
      FiringKeepsTheRest(ws[0], now, ws[1]);
      PassAt(ws, now, 1);
      hide Inv, Next, Regions.FireHead;
      PassIsExpire(ws[1..], now);
    }
  }

  // ---- The release of a descriptor's queues -------------------------------------------------

  lemma PopIsRelease(w: World, fd: Fd, dir: Direction, cancel: bool)
    ensures match PopOne(w, fd, dir, cancel)
            case Ok(w') => Regions.ReleaseOne(w.mem, fd, dir, cancel) == Ok(w'.mem)
            case Failed(e) => Regions.ReleaseOne(w.mem, fd, dir, cancel) == Failed(e)
  {
  }

  lemma {:induction false} FlushIsRelease(w: World, fd: Fd, dir: Direction, cancel: bool)
    ensures match FlushOne(w, fd, dir, cancel)
            case Ok(w') => Regions.Flush(w.mem, fd, dir, cancel) == Ok(w'.mem)
            case Failed(e) => Regions.Flush(w.mem, fd, dir, cancel) == Failed(e)
    decreases |w.mem.D(fd).Queue(dir)|
  {
    if w.mem.D(fd).Queue(dir) != [] {
      PopIsRelease(w, fd, dir, cancel);
      if PopOne(w, fd, dir, cancel).Ok? {
        Regions.ReleaseShrinks(w.mem, fd, dir, cancel);
        hide PopOne, Regions.ReleaseOne;
        FlushIsRelease(PopOne(w, fd, dir, cancel).value, fd, dir, cancel);
      }
    }
  }

  lemma FlushBothIsRelease(w: World, fd: Fd, cancel: bool)
    requires Inv(w)
    ensures FlushBoth(w, fd, cancel).Ok?
    ensures Regions.FlushAll(w.mem, fd, cancel) == Ok(FlushBoth(w, fd, cancel).value.mem)
  {
    hide Inv, FlushOne, Regions.Flush;
    Faults.FlushBothNeverFaults(w, fd, cancel);
    FlushIsRelease(w, fd, Read, cancel);
    FlushIsRelease(FlushOne(w, fd, Read, cancel).value, fd, Write, cancel);
  }

  /** The steps of the reactor and of the cancellation act on the memory as the code's loops do,
      and never fail. */
  lemma ReactorSteps(w: World, fd: Fd, closes: bool)
    requires Inv(w)
    ensures w.mem.D(fd).pending.Some? ==>
              && DoHandle(w, fd).Ok?
              && Regions.Handle(w.mem, fd, w.mem.D(fd).pending.value) == Ok(DoHandle(w, fd).value.mem)
    ensures DoClose(w, fd, closes).Ok? && Regions.Close(w.mem, fd, closes) == Ok(DoClose(w, fd, closes).value.mem)
  {
    hide Inv, FlushBoth, PopOne, Regions.FlushAll, Regions.ReleaseOne, Regions.Rearm;
    FlushBothIsRelease(w, fd, true);
    if w.mem.D(fd).pending.Some? {
      Faults.HandleNeverFaults(w, fd);
      var event := w.mem.D(fd).pending.value;
      FlushBothIsRelease(w, fd, false);
      var w1 := if event.hup then FlushBoth(w, fd, false).value else w;
      PopIsRelease(w1, fd, Read, false);
      var w2 := if event.readable then PopOne(w1, fd, Read, false).value else w1;
      PopIsRelease(w2, fd, Write, false);
    }
  }
}
