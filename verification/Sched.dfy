/** src/sched.c: kernel threads that pop the ready list, resume fibers under their spinlock, and sleep
    on ready_cond; fibers that may be made ready before they have swapped out. */
module Sched {
  import opened Memory

  type ThreadId = nat

  /** Where a kernel thread stands: in sched_next without a fiber, blocked in pthread_cond_wait, before
      the spinlock of the fiber that it has popped, inside the fiber, back from swapcontext, or past
      the release of the spinlock. */
  datatype Pc =
    | Idle
    | Sleeping
    | Popped(fiber: FiberId)
    | Executing(fiber: FiberId)
    | Saved(fiber: FiberId)
    | Released(fiber: FiberId)

  /** What becomes of a fiber: it runs its code, it has put itself in a wait queue or in the timer
      queue, it is in the ready list, or a thread has taken it from there. */
  datatype Token = Absent | Active | Parked | InReady | Taken(thread: ThreadId)

  /** `spin` is the owner of the fiber's spinlock, and `stored` the fibers whose context is saved. */
  datatype State = State(
    ready: seq<FiberId>,
    threads: map<ThreadId, Pc>,
    tokens: map<FiberId, Token>,
    spin: map<FiberId, ThreadId>,
    stored: set<FiberId>)
  {
    function Token(f: FiberId): Token {
      if f in tokens then tokens[f] else Absent
    }

    function At(t: ThreadId, pc: Pc): State { this.(threads := threads[t := pc]) }

    predicate Is(t: ThreadId, pc: Pc) { t in threads && threads[t] == pc }

    function Idlers(): set<ThreadId> {
      set t | t in threads && threads[t] == Idle
    }

    function Sleepers(): set<ThreadId> {
      set t | t in threads && threads[t] == Sleeping
    }
  }

  datatype Step =
    | Create(f: FiberId, woken: Option<ThreadId>)
    | Pop(t: ThreadId)
    | Sleep(t: ThreadId)
    | Wake(t: ThreadId)
    | Resume(t: ThreadId)
    | Park(t: ThreadId)
    | MakeReady(list: seq<FiberId>, woken: Option<ThreadId>)
    | SwapOut(t: ThreadId)
    | Release(t: ThreadId)
    | Loop(t: ThreadId)

  /** pthread_cond_signal for one fiber wakes a sleeping thread, if there is one. */
  predicate Signals(s: State, woken: Option<ThreadId>) {
    match woken
    case None => s.Sleepers() == {}
    case Some(t) => t in s.Sleepers()
  }

  /** pthread_cond_broadcast. */
  function AllAwake(threads: map<ThreadId, Pc>): map<ThreadId, Pc> {
    map t | t in threads :: if threads[t] == Sleeping then Idle else threads[t]
  }

  function AllReady(tokens: map<FiberId, Token>, list: seq<FiberId>): map<FiberId, Token> {
    map f | f in tokens :: if f in list then InReady else tokens[f]
  }

  /** The end of melon_sched_ready_locked, after `nb` fibers have been pushed. */
  function Notify(threads: map<ThreadId, Pc>, nb: nat, woken: Option<ThreadId>): map<ThreadId, Pc> {
    if nb > 1 then AllAwake(threads)
    else if nb == 1 && woken.Some? then threads[woken.value := Idle]
    else threads
  }

  ghost predicate Next(s: State, v: Step, s': State) {
    match v
    case Create(f, woken) =>
      && s.Token(f) == Absent && Signals(s, woken)
      && s' == s.(ready := s.ready + [f], tokens := s.tokens[f := InReady], stored := s.stored + {f},
                  threads := Notify(s.threads, 1, woken))
    case Pop(t) =>
      && s.Is(t, Idle) && s.ready != []
      && s' == s.At(t, Popped(s.ready[0])).(ready := s.ready[1..], tokens := s.tokens[s.ready[0] := Taken(t)])
    case Sleep(t) => s.Is(t, Idle) && s.ready == [] && s' == s.At(t, Sleeping)
    case Wake(t) => s.Is(t, Sleeping) && s' == s.At(t, Idle)
    case Resume(t) =>
      && t in s.threads && s.threads[t].Popped? && s.threads[t].fiber !in s.spin
      && var f := s.threads[t].fiber;
         s' == s.At(t, Executing(f)).(spin := s.spin[f := t], tokens := s.tokens[f := Active], stored := s.stored - {f})
    case Park(t) =>
      && t in s.threads && s.threads[t].Executing? && s.Token(s.threads[t].fiber) == Active
      && s' == s.(tokens := s.tokens[s.threads[t].fiber := Parked])
    case MakeReady(list, woken) =>
      && Distinct(list) && (forall f :: f in list ==> s.Token(f) == Parked) && Signals(s, woken)
      && s' == s.(ready := s.ready + list, tokens := AllReady(s.tokens, list),
                  threads := Notify(s.threads, |list|, woken))
    case SwapOut(t) =>
      && t in s.threads && s.threads[t].Executing? && s.Token(s.threads[t].fiber) != Active
      && var f := s.threads[t].fiber;
         s' == s.At(t, Saved(f)).(stored := s.stored + {f})
    case Release(t) =>
      && t in s.threads && s.threads[t].Saved?
      && var f := s.threads[t].fiber;
         s' == s.At(t, Released(f)).(spin := s.spin - {f})
    case Loop(t) => t in s.threads && s.threads[t].Released? && s' == s.At(t, Idle)
  }

  // ---- The invariant ------------------------------------------------------------------------

  /** The thread is inside the fiber, or has swapped out of it and still holds its spinlock. */
  predicate Holds(pc: Pc, f: FiberId) {
    pc == Executing(f) || pc == Saved(f)
  }

  /** A thread has the fiber that it has popped, or the spinlock of the fiber that it runs; the context
      of the fiber is saved unless the thread is inside. */
  ghost predicate ThreadOk(s: State, t: ThreadId) {
    t in s.threads ==>
      match s.threads[t]
      case Popped(f) => s.Token(f) == Taken(t)
      case Executing(f) => f in s.spin && s.spin[f] == t && f !in s.stored && s.Token(f) != Absent
      case Saved(f) => f in s.spin && s.spin[f] == t && f in s.stored && s.Token(f) != Absent && s.Token(f) != Active
      case _ => true
  }

  /** A fiber is where its token says; its spinlock belongs to the thread that runs it. */
  ghost predicate FiberOk(s: State, f: FiberId) {
    && (f in s.ready <==> s.Token(f) == InReady)
    && (s.Token(f).Taken? ==> s.Is(s.Token(f).thread, Popped(f)))
    && (f in s.spin ==> s.spin[f] in s.threads && Holds(s.threads[s.spin[f]], f))
    && (s.Token(f) == Active ==> f in s.spin && s.Is(s.spin[f], Executing(f)))
    && (s.Token(f) != Absent && f !in s.spin ==> f in s.stored)
  }

  ghost predicate TokensOk(s: State) {
    && Distinct(s.ready)
    && (forall t: ThreadId :: ThreadOk(s, t))
    && (forall f: FiberId :: FiberOk(s, f))
  }

  /** If a thread sleeps, as many threads are awake in the scheduler as fibers are ready. */
  ghost predicate Conserving(s: State) {
    s.Sleepers() != {} ==> |s.Idlers()| >= |s.ready|
  }

  ghost predicate Good(s: State) {
    TokensOk(s) && Conserving(s)
  }

  ghost predicate Start(s: State) {
    && s.ready == [] && s.tokens == map[] && s.spin == map[] && s.stored == {}
    && (forall t :: t in s.threads ==> s.threads[t] == Idle)
  }

  lemma StartIsGood(s: State)
    requires Start(s)
    ensures Good(s)
  {
  }

  // ---- Every step keeps it ------------------------------------------------------------------

  /** A notification moves no thread that has a fiber. */
  lemma NotifyFacts(threads: map<ThreadId, Pc>, nb: nat, woken: Option<ThreadId>)
    requires woken.Some? ==> woken.value in threads && threads[woken.value] == Sleeping
    ensures
      var after := Notify(threads, nb, woken);
      && after.Keys == threads.Keys
      && forall t :: t in threads ==>
           && (threads[t] != Sleeping ==> after[t] == threads[t])
           && (threads[t] == Sleeping ==> after[t] == Idle || after[t] == Sleeping)
  {
  }

  /** Only threads without a fiber have changed. */
  ghost predicate SameFibers(s: State, s': State) {
    && s'.threads.Keys == s.threads.Keys
    && (forall t :: t in s.threads ==> s'.threads[t] == s.threads[t] || (Loose(s.threads[t]) && Loose(s'.threads[t])))
  }

  predicate Loose(pc: Pc) { pc == Idle || pc == Sleeping || pc.Released? }

  lemma TokensPart(s: State, t: ThreadId, f: FiberId)
    requires TokensOk(s)
    ensures ThreadOk(s, t) && FiberOk(s, f) && Distinct(s.ready)
  {
  }

  /** A step that changes no fiber. */
  lemma LooseKeeps(s: State, s': State)
    requires TokensOk(s) && SameFibers(s, s')
    requires s'.ready == s.ready && s'.tokens == s.tokens && s'.spin == s.spin && s'.stored == s.stored
    ensures TokensOk(s')
  {
    hide TokensOk;
    forall t: ThreadId ensures ThreadOk(s', t) { TokensPart(s, t, 0); }
    forall f: FiberId ensures FiberOk(s', f) { TokensPart(s, 0, f); }
    TokensPart(s, 0, 0);
    Assemble(s');
  }

  lemma Assemble(s: State)
    requires forall t: ThreadId :: ThreadOk(s, t)
    requires forall f: FiberId :: FiberOk(s, f)
    requires Distinct(s.ready)
    ensures TokensOk(s)
  {
  }

  /** The fibers of `list`, which were parked or did not exist, are appended to the ready list. */
  lemma AppendKeeps(s: State, list: seq<FiberId>, s': State)
    requires TokensOk(s) && SameFibers(s, s') && Distinct(list)
    requires forall f :: f in list ==> s.Token(f) == Parked || (s.Token(f) == Absent && f in s'.stored)
    requires s'.ready == s.ready + list && s'.spin == s.spin
    requires forall f: FiberId :: s'.Token(f) == if f in list then InReady else s.Token(f)
    requires forall f: FiberId :: f in s'.stored <==> f in s.stored || (f in list && s.Token(f) == Absent)
    ensures TokensOk(s')
  {
    hide TokensOk;
    forall t: ThreadId ensures ThreadOk(s', t) {
      TokensPart(s, t, if t in s.threads && !Loose(s.threads[t]) then s.threads[t].fiber else 0);
    }
    forall f: FiberId ensures FiberOk(s', f) {
      TokensPart(s, if f in s.spin then s.spin[f] else 0, f);
    }
    TokensPart(s, 0, 0);
    forall f | f in list ensures f !in s.ready { TokensPart(s, 0, f); }
    DistinctJoin(s.ready, list);
    Assemble(s');
  }

  lemma DistinctJoin(a: seq<FiberId>, b: seq<FiberId>)
    requires Distinct(a) && Distinct(b) && forall f :: f in b ==> f !in a
    ensures Distinct(a + b)
  {
    assert forall i :: 0 <= i < |b| ==> b[i] in b;
  }

  lemma CreateKeeps(s: State, f: FiberId, woken: Option<ThreadId>, s': State)
    requires TokensOk(s) && Next(s, Create(f, woken), s')
    ensures TokensOk(s')
  {
    NotifyFacts(s.threads, 1, woken);
    assert SameFibers(s, s');
    hide Notify, TokensOk;
    AppendKeeps(s, [f], s');
  }

  lemma ReadyKeeps(s: State, list: seq<FiberId>, woken: Option<ThreadId>, s': State)
    requires TokensOk(s) && Next(s, MakeReady(list, woken), s')
    ensures TokensOk(s')
  {
    NotifyFacts(s.threads, |list|, woken);
    assert SameFibers(s, s');
    hide Notify, TokensOk;
    AppendKeeps(s, list, s');
  }

  lemma PopKeeps(s: State, t: ThreadId, s': State)
    requires TokensOk(s) && Next(s, Pop(t), s')
    ensures TokensOk(s')
  {
    hide TokensOk;
    var f := s.ready[0];
    TokensPart(s, t, f);
    assert s.ready == [f] + s.ready[1..];
    forall u: ThreadId ensures ThreadOk(s', u) { TokensPart(s, u, f); }
    forall g: FiberId ensures FiberOk(s', g) { TokensPart(s, t, g); }
    Assemble(s');
  }

  lemma ResumeKeeps(s: State, t: ThreadId, s': State)
    requires TokensOk(s) && Next(s, Resume(t), s')
    ensures TokensOk(s') && s.threads[t].fiber in s.stored
  {
    hide TokensOk;
    var f := s.threads[t].fiber;
    TokensPart(s, t, f);
    forall u: ThreadId ensures ThreadOk(s', u) { TokensPart(s, u, f); }
    forall g: FiberId ensures FiberOk(s', g) { TokensPart(s, t, g); }
    Assemble(s');
  }

  /** A step of a thread that runs its fiber: it parks, swaps out, or releases the spinlock. */
  lemma RunnerKeeps(s: State, v: Step, s': State)
    requires TokensOk(s) && Next(s, v, s') && (v.Park? || v.SwapOut? || v.Release?)
    ensures TokensOk(s')
  {
    hide TokensOk;
    var f := s.threads[v.t].fiber;
    TokensPart(s, v.t, f);
    forall u: ThreadId ensures ThreadOk(s', u) { TokensPart(s, u, f); }
    forall g: FiberId ensures FiberOk(s', g) { TokensPart(s, v.t, g); }
    Assemble(s');
  }

  lemma PlacesKept(s: State, v: Step, s': State)
    requires TokensOk(s) && Next(s, v, s')
    ensures TokensOk(s')
  {
    hide TokensOk;
    match v
    case Create(f, woken) => CreateKeeps(s, f, woken, s');
    case Pop(t) => PopKeeps(s, t, s');
    case Resume(t) => ResumeKeeps(s, t, s');
    case MakeReady(list, woken) => ReadyKeeps(s, list, woken, s');
    case Sleep(t) => LooseKeeps(s, s');
    case Wake(t) => LooseKeeps(s, s');
    case Loop(t) => LooseKeeps(s, s');
    case _ => RunnerKeeps(s, v, s');
  }

  // ---- Wake-up accounting -------------------------------------------------------------------

  /** More threads are idle, or one more, or one less. */
  lemma NotifyConserves(s: State, list: seq<FiberId>, woken: Option<ThreadId>, s': State)
    requires Conserving(s) && Signals(s, woken)
    requires s'.threads == Notify(s.threads, |list|, woken) && s'.ready == s.ready + list
    ensures Conserving(s')
  {
    if |list| > 1 {
      assert s'.Sleepers() == {};
    } else if |list| == 1 && woken.Some? {
      assert s'.Idlers() == s.Idlers() + {woken.value};
    } else if |list| == 0 {
      assert s' .Idlers() == s.Idlers() && s'.Sleepers() == s.Sleepers();
    } else {
      assert s'.Sleepers() == s.Sleepers() == {};
    }
  }

  lemma ConservingKept(s: State, v: Step, s': State)
    requires Conserving(s) && Next(s, v, s')
    ensures Conserving(s')
  {
    match v
    case Create(f, woken) => NotifyConserves(s, [f], woken, s');
    case MakeReady(list, woken) => NotifyConserves(s, list, woken, s');
    case _ => ThreadConserves(s, v, s');
  }

  /** A step that moves one thread. */
  lemma ThreadConserves(s: State, v: Step, s': State)
    requires Conserving(s) && Next(s, v, s') && !v.Create? && !v.MakeReady?
    ensures Conserving(s')
  {
    var t := v.t;
    assert s'.threads == s.threads[t := s'.threads[t]];
    CountMoved(s, s', t);
  }

  lemma CountMoved(s: State, s': State, t: ThreadId)
    requires t in s.threads && t in s'.threads && s'.threads == s.threads[t := s'.threads[t]]
    ensures |s'.Idlers()| == |s.Idlers()| - (if s.threads[t] == Idle then 1 else 0)
        + (if s'.threads[t] == Idle then 1 else 0)
    ensures s.threads[t] != Sleeping && s'.threads[t] != Sleeping ==> s'.Sleepers() == s.Sleepers()
    ensures s.threads[t] == Sleeping ==> t in s.Sleepers()
  {
    var others := s.Idlers() - {t};
    assert s.Idlers() == if s.threads[t] == Idle then others + {t} else others;
    assert s'.Idlers() == if s'.threads[t] == Idle then others + {t} else others;
  }

  lemma StepKeeps(s: State, v: Step, s': State)
    requires Good(s) && Next(s, v, s')
    ensures Good(s')
  {
    hide TokensOk, Conserving, Next;
    PlacesKept(s, v, s');
    ConservingKept(s, v, s');
  }

  // ---- The promises over runs ---------------------------------------------------------------

  ghost predicate Run(ss: seq<State>, steps: seq<Step>) {
    && |ss| == |steps| + 1 && Start(ss[0])
    && forall i :: 0 <= i < |steps| ==> Next(ss[i], steps[i], ss[i + 1])
  }

  lemma {:induction false} RunIsGood(ss: seq<State>, steps: seq<Step>, i: nat)
    requires Run(ss, steps) && i < |ss|
    ensures Good(ss[i])
  {
    hide Good, Next, Start;
    if i == 0 {
      StartIsGood(ss[0]);
    } else {
      RunIsGood(ss, steps, i - 1);
      StepKeeps(ss[i - 1], steps[i - 1], ss[i]);
    }
  }

  lemma GoodParts(s: State, t: ThreadId, f: FiberId)
    requires Good(s)
    ensures ThreadOk(s, t) && FiberOk(s, f) && Distinct(s.ready) && Conserving(s)
  {
  }

  /** Two kernel threads are never inside the same fiber, even if it was made ready and popped before
      it swapped out. */
  lemma OneExecutor(ss: seq<State>, steps: seq<Step>, i: nat, f: FiberId, t: ThreadId, u: ThreadId)
    requires Run(ss, steps) && i < |ss|
    requires t in ss[i].threads && u in ss[i].threads && Holds(ss[i].threads[t], f) && Holds(ss[i].threads[u], f)
    ensures t == u
  {
    hide Run, Good;
    RunIsGood(ss, steps, i);
    GoodParts(ss[i], t, f);
    GoodParts(ss[i], u, f);
  }

  /** A fiber is resumed only when its context is saved, and then no thread is inside it. */
  lemma ResumesSavedContext(ss: seq<State>, steps: seq<Step>, i: nat, t: ThreadId, u: ThreadId)
    requires Run(ss, steps) && i < |steps| && steps[i] == Resume(t)
    ensures
      var s := ss[i];
      && t in s.threads && s.threads[t].Popped?
      && s.threads[t].fiber in s.stored
      && !s.Is(u, Executing(s.threads[t].fiber))
  {
    assert Next(ss[i], steps[i], ss[i + 1]);
    hide Run, Good;
    RunIsGood(ss, steps, i);
    GoodParts(ss[i], t, ss[i].threads[t].fiber);
    GoodParts(ss[i], u, ss[i].threads[t].fiber);
  }

  /** A fiber is at one place at a time: at most once in the ready list, or popped by one thread. */
  lemma OneToken(ss: seq<State>, steps: seq<Step>, i: nat, f: FiberId, t: ThreadId, u: ThreadId)
    requires Run(ss, steps) && i < |ss| && ss[i].Is(t, Popped(f))
    ensures Distinct(ss[i].ready) && f !in ss[i].ready
    ensures ss[i].Is(u, Popped(f)) ==> t == u
  {
    hide Run, Good;
    RunIsGood(ss, steps, i);
    GoodParts(ss[i], t, f);
    GoodParts(ss[i], u, f);
  }

  /** If a thread sleeps, the threads that are awake in the scheduler suffice for the ready list. */
  lemma WorkConserving(ss: seq<State>, steps: seq<Step>, i: nat, t: ThreadId)
    requires Run(ss, steps) && i < |ss| && ss[i].Is(t, Sleeping)
    ensures |ss[i].Idlers()| >= |ss[i].ready|
  {
    hide Run, Good;
    RunIsGood(ss, steps, i);
    GoodParts(ss[i], t, 0);
    assert t in ss[i].Sleepers();
  }

  // ---- The ready list is first in, first out ------------------------------------------------

  /** The pops among the steps from `i` to `j`. */
  function Pops(steps: seq<Step>, i: nat, j: nat): (n: nat)
    requires i <= j <= |steps|
    decreases j - i
  {
    if i == j then 0 else Pops(steps, i, j - 1) + (if steps[j - 1].Pop? then 1 else 0)
  }

  lemma ReadyMoves(s: State, v: Step, s': State)
    requires Next(s, v, s')
    ensures if v.Pop? then s.ready != [] && s'.ready == s.ready[1..] else s.ready <= s'.ready
    ensures v.Pop? ==> s'.Is(v.t, Popped(s.ready[0]))
  {
  }

  /** A fiber at position `p` moves up by one with each pop, and is popped after exactly `p` others. */
  lemma {:induction false} FirstInFirstOut(ss: seq<State>, steps: seq<Step>, i: nat, j: nat, p: nat)
    requires Run(ss, steps) && i <= j < |ss| && p < |ss[i].ready| && Pops(steps, i, j) <= p
    ensures p - Pops(steps, i, j) < |ss[j].ready| && ss[j].ready[p - Pops(steps, i, j)] == ss[i].ready[p]
    ensures Pops(steps, i, j) == p && j < |steps| && steps[j].Pop? ==> ss[j + 1].Is(steps[j].t, Popped(ss[i].ready[p]))
    decreases j - i
  {
    hide Next, Start;
    if i < j {
      FirstInFirstOut(ss, steps, i, j - 1, p);
      ReadyMoves(ss[j - 1], steps[j - 1], ss[j]);
    }
    if j < |steps| { ReadyMoves(ss[j], steps[j], ss[j + 1]); }
  }
}
