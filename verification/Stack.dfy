/** src/stack_alloc.c: the cache of fiber stacks, its spinlock, and the size check that is made without
    the spinlock. */
module Stack {
  import opened Memory

  type Addr = nat
  type ThreadId = nat

  const LIMIT: int := 100

  /** `g_stack_list`, first in first out, and `g_stack_list_nb`. */
  datatype Cache = Cache(list: seq<Addr>, nb: int)
  {
    /** The locked part of melon_stack_alloc. */
    function Pop(): (Option<Addr>, Cache) {
      if list == [] then (None, this) else (Some(list[0]), Cache(list[1..], nb - 1))
    }

    /** The locked part of melon_stack_free. */
    function Push(addr: Addr): Cache {
      Cache(list + [addr], nb + 1)
    }
  }

  // ---- The functions ------------------------------------------------------------------------

  class StackCache {
    var list: seq<Addr>
    var nb: int
    /** The stacks that are mapped: the cached ones, and those that are in use. */
    ghost var mapped: set<Addr>

    ghost function Value(): Cache
      reads this
    {
      Cache(list, nb)
    }

    /** The counter counts the cached stacks, each of which is cached once and mapped. */
    ghost predicate Valid()
      reads this
    {
      nb == |list| && Distinct(list) && forall a :: a in list ==> a in mapped
    }

    /** melon_stack_init. */
    constructor ()
      ensures Valid() && Value() == Cache([], 0) && mapped == {}
    {
      list, nb, mapped := [], 0, {};
    }

    /** melon_stack_alloc; `page` is what mmap returns, if it is called and succeeds.  The stack is
        mapped and not cached; before, it was cached or not mapped at all, hence not in use. */
    method Alloc(page: Option<Addr>) returns (addr: Option<Addr>)
      requires Valid() && (page.Some? ==> page.value !in mapped)
      modifies this
      ensures Valid() && Value() == old(Value().Pop()).1
      ensures addr == None <==> old(list) == [] && page == None
      ensures addr.Some? ==>
                && addr.value in mapped && addr.value !in list
                && (addr.value in old(list) || addr.value !in old(mapped))
                && mapped == old(mapped) + {addr.value}
      ensures addr == None ==> mapped == old(mapped)
      ensures forall a :: a in list <==> a in old(list) && addr != Some(a)
    {
      if list == [] {
        if page.None? {
          return None;
        }
        mapped := mapped + {page.value};
        return page;
      }
      assert list == [list[0]] + list[1..];
      addr := Some(list[0]);
      list := list[1..];
      nb := nb - 1;
    }

    /** melon_stack_free, of a stack that is in use: it ends cached, or unmapped if too many are. */
    method Free(addr: Addr)
      requires Valid() && addr in mapped && addr !in list
      modifies this
      ensures Valid() && Value() == if old(nb) > LIMIT then old(Value()) else old(Value().Push(addr))
      ensures addr in list <==> old(|list|) <= LIMIT
      ensures addr in mapped <==> addr in list
      ensures forall a :: a != addr ==> (a in list <==> a in old(list)) && (a in mapped <==> a in old(mapped))
    {
      if nb > LIMIT {
        mapped := mapped - {addr};
        return;
      }
      nb := nb + 1;
      list := list + [addr];
    }

    /** melon_stack_deinit unmaps every cached stack and no other.  It leaves the counter as it is,
        which then counts nothing, unless there was nothing to unmap. */
    method Deinit()
      requires Valid()
      modifies this
      ensures list == [] && nb == old(nb) && mapped == old(mapped) - set a | a in old(list)
      ensures Valid() <==> old(list) == []
    {
      ghost var k := 0;
      while list != []
        invariant k <= |old(list)| && list == old(list)[k..] && nb == old(nb)
        invariant mapped == old(mapped) - set a | a in old(list)[..k]
        decreases |list|
      {
        var item := list[0];
        list := list[1..];
        mapped := mapped - {item};
        assert old(list)[..k + 1] == old(list)[..k] + [item];
        k := k + 1;
      }
      assert old(list)[..k] == old(list);
    }
  }

  // ---- Threads that allocate and free at the same time --------------------------------------

  /** A thread may be between the check and the push, before a call of munmap, or before one of mmap. */
  datatype Pc = Elsewhere | Pushing(addr: Addr) | Unmapping(addr: Addr) | Mapping

  datatype State = State(cache: Cache, mapped: set<Addr>, live: set<Addr>, threads: map<ThreadId, Pc>)
  {
    predicate Is(t: ThreadId, pc: Pc) { t in threads && threads[t] == pc }

    function At(t: ThreadId, pc: Pc): State { this.(threads := threads[t := pc]) }

    /** The threads that have passed the check. */
    function Pushers(): set<ThreadId> {
      set t | t in threads && threads[t].Pushing?
    }

    /** The stacks that a thread is freeing. */
    function InTransit(): set<Addr> {
      set t | t in threads && Frees(threads[t]) :: threads[t].addr
    }

    function Cached(): set<Addr> {
      set a | a in cache.list
    }
  }

  datatype Step =
    | Alloc(t: ThreadId)
    | Map(t: ThreadId, page: Option<Addr>)
    | Check(t: ThreadId, addr: Addr)
    | Push(t: ThreadId)
    | Unmap(t: ThreadId)

  /** Only a live stack is freed, and mmap returns an address that is not mapped. */
  ghost predicate Next(s: State, v: Step, s': State) {
    match v
    case Alloc(t) =>
      && s.Is(t, Elsewhere)
      && var (addr, cache) := s.cache.Pop();
         s' == if addr.Some? then s.(cache := cache, live := s.live + {addr.value}) else s.At(t, Mapping)
    case Map(t, page) =>
      && s.Is(t, Mapping) && (page.Some? ==> page.value !in s.mapped)
      && s' == (if page.Some? then s.(mapped := s.mapped + {page.value}, live := s.live + {page.value})
          else s).At(t, Elsewhere)
    case Check(t, addr) =>
      && s.Is(t, Elsewhere) && addr in s.live
      && s' == s.At(t, if s.cache.nb > LIMIT then Unmapping(addr) else Pushing(addr)).(live := s.live - {addr})
    case Push(t) =>
      && t in s.threads && s.threads[t].Pushing?
      && s' == s.At(t, Elsewhere).(cache := s.cache.Push(s.threads[t].addr))
    case Unmap(t) =>
      && t in s.threads && s.threads[t].Unmapping?
      && s' == s.At(t, Elsewhere).(mapped := s.mapped - {s.threads[t].addr})
  }

  // ---- The invariant ------------------------------------------------------------------------

  /** Each mapped stack is live, cached once, or being freed by one thread. */
  ghost predicate Owned(s: State) {
    && s.mapped == s.live + s.Cached() + s.InTransit()
    && s.live !! s.Cached() && s.live !! s.InTransit() && s.Cached() !! s.InTransit()
    && Distinct(s.cache.list)
    && (forall t, u :: t in s.threads && u in s.threads && t != u && Frees(s.threads[t]) && Frees(s.threads[u]) ==>
          s.threads[t].addr != s.threads[u].addr)
  }

  predicate Frees(pc: Pc) { pc.Pushing? || pc.Unmapping? }

  ghost predicate Bounded(s: State) {
    && s.cache.nb == |s.cache.list|
    && s.cache.nb + |s.Pushers()| <= LIMIT + |s.threads|
  }

  ghost predicate Good(s: State) { Owned(s) && Bounded(s) }

  ghost predicate Start(s: State) {
    && s.cache == Cache([], 0) && s.mapped == {} && s.live == {}
    && forall t :: t in s.threads ==> s.threads[t] == Elsewhere
  }

  lemma StartIsGood(s: State)
    requires Start(s)
    ensures Good(s)
  {
    assert s.InTransit() == {} && s.Cached() == {} && s.Pushers() == {};
  }

  /** What is in transit, without and with a thread that moves. */
  lemma TransitMoves(s: State, t: ThreadId, s': State)
    requires t in s.threads && !Frees(s.threads[t]) && t in s'.threads && s'.threads == s.threads[t := s'.threads[t]]
    ensures s'.InTransit() == s.InTransit() + (if Frees(s'.threads[t]) then {s'.threads[t].addr} else {})
  {
    forall a | a in s.InTransit() ensures a in s'.InTransit() {
      var u :| u in s.threads && Frees(s.threads[u]) && s.threads[u].addr == a;
      assert u in s'.threads && s'.threads[u] == s.threads[u];
    }
    forall a | a in s'.InTransit() ensures a in s.InTransit() || (Frees(s'.threads[t]) && a == s'.threads[t].addr) {
      var u :| u in s'.threads && Frees(s'.threads[u]) && s'.threads[u].addr == a;
      assert u != t ==> s.threads[u] == s'.threads[u];
    }
    if Frees(s'.threads[t]) { assert s'.threads[t].addr in s'.InTransit(); }
  }

  lemma AllocKeeps(s: State, t: ThreadId, s': State)
    requires Good(s) && Next(s, Alloc(t), s')
    ensures Good(s')
  {
    assert s'.Pushers() == s.Pushers();
    if s.cache.list == [] { TransitMoves(s, t, s'); }
    if s.cache.list != [] {
      var addr := s.cache.list[0];
      assert s.cache.list == [addr] + s'.cache.list;
      assert s'.Cached() == s.Cached() - {addr};
      assert addr in s.Cached();
    } else {
      assert s'.Cached() == s.Cached();
    }
  }

  lemma MapKeeps(s: State, t: ThreadId, page: Option<Addr>, s': State)
    requires Good(s) && Next(s, Map(t, page), s')
    ensures Good(s')
  {
    assert s'.Pushers() == s.Pushers();
    TransitMoves(s, t, s');
    assert s'.Cached() == s.Cached();
  }

  lemma CheckKeeps(s: State, t: ThreadId, addr: Addr, s': State)
    requires Good(s) && Next(s, Check(t, addr), s')
    ensures Good(s')
  {
    assert s'.Cached() == s.Cached();
    TransitMoves(s, t, s');
    if s.cache.nb > LIMIT {
      assert s'.Pushers() == s.Pushers();
    } else {
      assert s'.Pushers() == s.Pushers() + {t};
      SizeOf(s'.Pushers(), s'.threads.Keys);
    }
  }

  lemma {:induction false} SizeOf(a: set<ThreadId>, b: set<ThreadId>)
    requires a <= b
    ensures |a| <= |b|
  {
    if a != {} {
      var x :| x in a;
      SizeOf(a - {x}, b - {x});
    }
  }

  lemma LeavesTransit(s: State, t: ThreadId, s': State)
    requires Owned(s) && t in s.threads && Frees(s.threads[t]) && s'.threads == s.threads[t := Elsewhere]
    ensures s'.InTransit() == s.InTransit() - {s.threads[t].addr} && s.threads[t].addr in s.InTransit()
  {
    assert s.threads[t].addr in s.InTransit();
    forall a | a in s'.InTransit() ensures a in s.InTransit() && a != s.threads[t].addr {
      var u :| u in s'.threads && Frees(s'.threads[u]) && s'.threads[u].addr == a;
      assert s'.threads[t] == Elsewhere;
      assert u in s.threads && s.threads[u] == s'.threads[u];
    }
    forall a | a in s.InTransit() && a != s.threads[t].addr ensures a in s'.InTransit() {
      var u :| u in s.threads && Frees(s.threads[u]) && s.threads[u].addr == a;
      assert s'.threads[u] == s.threads[u];
    }
  }

  lemma PushKeeps(s: State, t: ThreadId, s': State)
    requires Good(s) && Next(s, Push(t), s')
    ensures Good(s')
  {
    LeavesTransit(s, t, s');
    assert s'.Cached() == s.Cached() + {s.threads[t].addr};
    assert s'.Pushers() == s.Pushers() - {t} && t in s.Pushers();
    assert s.threads[t].addr !in s.Cached();
  }

  lemma UnmapKeeps(s: State, t: ThreadId, s': State)
    requires Good(s) && Next(s, Unmap(t), s')
    ensures Good(s')
  {
    LeavesTransit(s, t, s');
    assert s'.Cached() == s.Cached();
    assert s'.Pushers() == s.Pushers() && !s.threads[t].Pushing?;
  }

  lemma StepKeeps(s: State, v: Step, s': State)
    requires Good(s) && Next(s, v, s')
    ensures Good(s')
  {
    hide Good, Next;
    match v
    case Alloc(t) => AllocKeeps(s, t, s');
    case Map(t, page) => MapKeeps(s, t, page, s');
    case Check(t, addr) => CheckKeeps(s, t, addr, s');
    case Push(t) => PushKeeps(s, t, s');
    case Unmap(t) => UnmapKeeps(s, t, s');
  }

  ghost predicate Run(ss: seq<State>, steps: seq<Step>) {
    && |ss| == |steps| + 1 && Start(ss[0])
    && forall i :: 0 <= i < |steps| ==> Next(ss[i], steps[i], ss[i + 1])
  }

  lemma {:induction false} RunIsGood(ss: seq<State>, steps: seq<Step>, i: nat)
    requires Run(ss, steps) && i < |ss|
    ensures Good(ss[i]) && |ss[i].threads| == |ss[0].threads|
  {
    hide Good, Start;
    if i == 0 {
      StartIsGood(ss[0]);
    } else {
      RunIsGood(ss, steps, i - 1);
      StepKeeps(ss[i - 1], steps[i - 1], ss[i]);
      assert ss[i].threads.Keys == ss[i - 1].threads.Keys;
      KeysCount(ss[i].threads);
      KeysCount(ss[i - 1].threads);
    }
  }

  lemma KeysCount(m: map<ThreadId, Pc>)
    ensures |m| == |m.Keys|
  {
  }

  /** The cached stacks and the threads between the check and the push are never more than 100 and the
      number of threads. */
  lemma CacheBound(ss: seq<State>, steps: seq<Step>, i: nat)
    requires Run(ss, steps) && i < |ss|
    ensures ss[i].cache.nb == |ss[i].cache.list|
    ensures ss[i].cache.nb + |ss[i].Pushers()| <= 100 + |ss[0].threads|
  {
    RunIsGood(ss, steps, i);
  }

  /** A freed stack is kept for reuse exactly if at most 100 are counted when the thread looks. */
  lemma FreeKeeps(s: State, t: ThreadId, addr: Addr, s': State)
    requires Next(s, Check(t, addr), s')
    ensures s.cache.nb <= 100 <==> s'.Is(t, Pushing(addr))
    ensures s.cache.nb > 100 <==> s'.Is(t, Unmapping(addr))
    ensures addr in s.live && s'.live == s.live - {addr} && s'.cache == s.cache && s'.mapped == s.mapped
  {
  }

  /** Each mapped stack is live, cached or being freed, and only one of these. */
  lemma MappedOnce(ss: seq<State>, steps: seq<Step>, i: nat)
    requires Run(ss, steps) && i < |ss|
    ensures
      var s := ss[i];
      && s.mapped == s.live + s.Cached() + s.InTransit()
      && s.live !! s.Cached() && s.live !! s.InTransit() && s.Cached() !! s.InTransit()
      && Distinct(s.cache.list)
  {
    RunIsGood(ss, steps, i);
  }

  /** melon_stack_alloc returns a stack that nobody uses: from the cache, one that is mapped but neither
      live nor being freed; from mmap, one that is in none of the three sets.  Afterwards it is live, and
      in neither of the others. */
  lemma AllocIsFresh(ss: seq<State>, steps: seq<Step>, i: nat)
    requires Run(ss, steps) && i < |steps|
    ensures
      var s, s' := ss[i], ss[i + 1];
      match steps[i]
      case Alloc(_) =>
        s.cache.list != [] ==>
          var addr := s.cache.list[0];
          && addr in s.mapped && addr !in s.live && addr !in s.InTransit()
          && s'.live == s.live + {addr} && addr !in s'.Cached() && addr !in s'.InTransit()
      case Map(_, Some(addr)) =>
        && addr !in s.live && addr !in s.Cached() && addr !in s.InTransit()
        && s'.live == s.live + {addr} && addr !in s'.Cached() && addr !in s'.InTransit() && addr in s'.mapped
      case _ => s'.live <= s.live
  {
    MappedOnce(ss, steps, i);
    MappedOnce(ss, steps, i + 1);
    assert Next(ss[i], steps[i], ss[i + 1]);
    var s, s' := ss[i], ss[i + 1];
    if steps[i].Alloc? && s.cache.list != [] { assert s.cache.list[0] in s.Cached(); }
    hide Run, Distinct;
  }
}
