/** The heap of the runtime: the fibers, mutexes, conditions and descriptors that g_melon reaches,
    linked by the rings of src/dlist.h and src/list.h, and the value of type Mem that they stand for. */
module Heap {
  import opened Memory
  import opened Objects
  import opened Rings
  import Regions

  ghost function Ids(s: seq<Fiber>): (r: seq<FiberId>)
    ensures |r| == |s| && forall i :: 0 <= i < |s| ==> r[i] == s[i].id
  {
    seq(|s|, i requires 0 <= i < |s| => s[i].id)
  }

  /** The variable that holds the head of a doubly linked queue. */
  datatype ListHead = LockHead(mutex: Mutex) | WaitHead(cond: Cond) | FdHead(io: Io, dir: Direction)
  {
    ghost function Id(): (q: QueueId)
      ensures q != ReadyQueue
    {
      match this
      case LockHead(mutex) => LockQueue(mutex.id)
      case WaitHead(cond) => WaitQueue(cond.id)
      case FdHead(io, dir) => FdQueue(io.id, dir)
    }
  }

  ghost function OwnerView(f: Fiber?): Option<FiberId> {
    if f == null then None else Some(f.id)
  }

  ghost function MutexName(mutex: Mutex?): Option<MutexId> {
    if mutex == null then None else Some(mutex.id)
  }

  ghost function CallbackView(cb: Callback): TimerCallback {
    match cb
    case NoCb => NoCallback
    case UsleepCb => UsleepCallback
    case TimedlockCb(mutex) => TimedlockCallback(mutex.id)
    case TimedwaitCb(cond) => TimedwaitCallback(cond.id)
    case WaitforCb(fd) => WaitforCallback(fd)
  }

  ghost function FiberView(f: Fiber): FiberState
    reads f`timer, f`timerCallback, f`timeout, f`waitedEvent, f`ioCanceled, f`condMutex, f`lockCount
  {
    FiberState(f.timer, CallbackView(f.timerCallback), f.timeout, f.waitedEvent, f.ioCanceled,
               MutexName(f.condMutex), f.lockCount)
  }

  ghost function IoView(io: Io, readers: seq<Fiber>, writers: seq<Fiber>): Descriptor
    reads io`isInEpoll, io`epoll
  {
    Descriptor(Ids(readers), Ids(writers), io.isInEpoll, io.epoll.registered, io.epoll.armed,
               io.epoll.armedRead, io.epoll.armedWrite, io.epoll.pending)
  }

  /** Each queue holds exactly the fibers that have their place there; the strays have none. */
  ghost predicate Marking(queues: map<QueueId, seq<Fiber>>, places: map<Fiber, QueueId>, strays: set<Fiber>) {
    && (forall q, n :: q in queues && n in queues[q] ==> n in places && places[n] == q)
    && (forall n :: n in places ==> places[n] in queues && n in queues[places[n]])
    && (forall n :: n in strays ==> n !in places)
  }

  lemma MarkPush(queues: map<QueueId, seq<Fiber>>, places: map<Fiber, QueueId>, strays: set<Fiber>, q: QueueId,
                 f: Fiber)
    requires Marking(queues, places, strays) && q in queues && f !in places && f !in strays
    ensures Marking(queues[q := queues[q] + [f]], places[f := q], strays)
  {
  }

  lemma MarkLess(queues: map<QueueId, seq<Fiber>>, places: map<Fiber, QueueId>, strays: set<Fiber>, q: QueueId,
                 f: Fiber, rest: seq<Fiber>)
    requires Marking(queues, places, strays) && q in queues && f in queues[q]
    requires forall n :: n in rest <==> n in queues[q] && n != f
    ensures Marking(queues[q := rest], places - {f}, strays)
  {
    var queues', places' := queues[q := rest], places - {f};
    forall r, n | r in queues' && n in queues'[r] ensures n in places' && places'[n] == r {
      assert n in queues[q] ==> places[n] == q;
      assert n in queues[r];
    }
  }

  lemma MarkRemove(queues: map<QueueId, seq<Fiber>>, places: map<Fiber, QueueId>, strays: set<Fiber>, q: QueueId,
                   f: Fiber)
    requires Marking(queues, places, strays) && q in queues && f in queues[q] && Distinct(queues[q])
    ensures Marking(queues[q := Without(queues[q], f)], places - {f}, strays)
  {
    WithoutFacts(queues[q], f);
    var rest := Without(queues[q], f);
    MarkLess(queues, places, strays, q, f, rest);
  }

  lemma MarkTake(queues: map<QueueId, seq<Fiber>>, places: map<Fiber, QueueId>, strays: set<Fiber>, q: QueueId)
    requires Marking(queues, places, strays) && q in queues
    ensures Marking(queues[q := []], places - Members(queues[q]), strays + Members(queues[q]))
    ensures strays !! Members(queues[q]) && Members(queues[q]) <= places.Keys
  {
    var queues', places' := queues[q := []], places - Members(queues[q]);
    forall r, n | r in queues' && n in queues'[r] ensures n in places' && places'[n] == r {
      assert r != q && n in queues[r];
      OnePlace(queues, places, strays, q, r, n);
    }
  }

  lemma OnePlace(queues: map<QueueId, seq<Fiber>>, places: map<Fiber, QueueId>, strays: set<Fiber>, q: QueueId,
                 r: QueueId, n: Fiber)
    requires Marking(queues, places, strays) && q in queues && r in queues && n in queues[r]
    ensures n !in strays && (n in queues[q] ==> q == r)
  {
    assert n in places && places[n] == r;
    assert n in queues[q] ==> places[n] == q;
  }

  lemma StraysApart(queues: map<QueueId, seq<Fiber>>, places: map<Fiber, QueueId>, strays: set<Fiber>)
    requires Marking(queues, places, strays)
    ensures forall q :: q in queues ==> Members(queues[q]) !! strays
    ensures strays !! places.Keys
  {
    forall q, n | q in queues && n in Members(queues[q]) ensures n !in strays {
      OnePlace(queues, places, strays, q, q, n);
    }
  }

  /** What an operation on the queue `q` and the fiber `f` reaches is in no other queue. */
  ghost predicate Isolated(queues: map<QueueId, seq<Fiber>>, q: QueueId, f: Fiber) {
    q in queues && forall r :: r in queues && r != q ==> Members(queues[r]) !! Nodes(queues[q], f)
  }

  lemma MarkApart(queues: map<QueueId, seq<Fiber>>, places: map<Fiber, QueueId>, strays: set<Fiber>, q: QueueId,
                  f: Fiber)
    requires Marking(queues, places, strays) && q in queues
    requires f in queues[q] || (f !in places && f !in strays)
    ensures Isolated(queues, q, f)
    ensures strays !! Nodes(queues[q], f)
    ensures f !in places ==> f !in queues[q]
    ensures forall n :: n in Nodes(queues[q], f) && n != f ==> n in places
  {
    forall r, n | r in queues && r != q && n in queues[r] ensures n !in Nodes(queues[q], f) {
      assert places[n] == r;
    }
    forall n | n in Nodes(queues[q], f) ensures n !in strays {
      assert n == f || n in places;
    }
  }

  /** The descriptor with the flags and the interest given. */
  ghost function WithEpoll(d: Descriptor, isInEpoll: bool, e: Epoll): Descriptor {
    d.(isInEpoll := isInEpoll, registered := e.registered, armed := e.armed, armedRead := e.armedRead,
       armedWrite := e.armedWrite, pending := e.pending)
  }

  ghost function QueuesOf(ms: set<MutexId>, cs: set<CondId>, fds: set<Fd>): set<QueueId> {
    {ReadyQueue} + (set i | i in ms :: LockQueue(i)) + (set i | i in cs :: WaitQueue(i))
    + (set i | i in fds :: FdQueue(i, Read)) + (set i | i in fds :: FdQueue(i, Write))
  }

  lemma InQueuesOf(ms: set<MutexId>, cs: set<CondId>, fds: set<Fd>)
    ensures
      forall q :: q in QueuesOf(ms, cs, fds) <==>
        match q
        case ReadyQueue => true
        case LockQueue(m) => m in ms
        case WaitQueue(c) => c in cs
        case FdQueue(fd, _) => fd in fds
  {
    forall q: QueueId | q.FdQueue? ensures q in QueuesOf(ms, cs, fds) <==> q.fd in fds {
      assert q == FdQueue(q.fd, if q.dir.Read? then Read else Write);
    }
  }

  ghost function Of(qs: map<QueueId, seq<Fiber>>, q: QueueId): seq<Fiber> {
    if q in qs then qs[q] else []
  }

  class Melon {
    ghost const fibers: map<FiberId, Fiber>
    ghost const mutexes: map<MutexId, Mutex>
    ghost const conds: map<CondId, Cond>
    const io: map<Fd, Io>
    var ready: Fiber?
    var timerQueue: Fiber?
    var timerThread: TimerThread
    /** The fibers of each queue, and of the timer queue, in order. */
    ghost var queues: map<QueueId, seq<Fiber>>
    ghost var places: map<Fiber, QueueId>
    ghost var timers: seq<Fiber>
    /** The fibers in the local list of a melon_cond_signalnb, or lost by one. */
    ghost var strays: set<Fiber>

    // ---- What is well formed ----------------------------------------------------------------

    ghost predicate HasHead(l: ListHead) {
      match l
      case LockHead(mutex) => mutex in mutexes.Values
      case WaitHead(cond) => cond in conds.Values
      case FdHead(d, _) => d in io.Values
    }

    /** Every object is known by its own name. */
    ghost predicate Named() {
      && (forall i :: i in fibers ==> fibers[i].id == i)
      && (forall i :: i in mutexes ==> mutexes[i].id == i)
      && (forall i :: i in conds ==> conds[i].id == i)
      && (forall i :: i in io ==> io[i].id == i)
    }

    ghost predicate HasQueue(q: QueueId) {
      match q
      case ReadyQueue => true
      case LockQueue(m) => m in mutexes
      case WaitQueue(c) => c in conds
      case FdQueue(fd, _) => fd in io
    }

    ghost function HeadOf(q: QueueId): Fiber?
      requires HasQueue(q)
      reads this`ready, mutexes.Values`lockQueue, conds.Values`waitQueue, io.Values`readQueue, io.Values`writeQueue
    {
      match q
      case ReadyQueue => ready
      case LockQueue(m) => mutexes[m].lockQueue
      case WaitQueue(c) => conds[c].waitQueue
      case FdQueue(fd, dir) => if dir.Read? then io[fd].readQueue else io[fd].writeQueue
    }

    /** The queue `q` links the fibers of `s`. */
    ghost predicate RingFor(q: QueueId, s: seq<Fiber>)
      requires HasQueue(q)
      reads Members(s)`next, Members(s)`prev
      reads this`ready, mutexes.Values`lockQueue, conds.Values`waitQueue, io.Values`readQueue, io.Values`writeQueue
    {
      if q == ReadyQueue then TailRing(ready, s) else Ring(HeadOf(q), s, Plain)
    }

    ghost predicate Marked()
      reads this`queues, this`places, this`strays
    {
      && Marking(queues, places, strays)
      && (forall q :: q in queues <==> HasQueue(q))
      && places.Keys <= fibers.Values && strays <= fibers.Values
    }

    /** A fiber without a place is not linked. */
    ghost predicate Cleared()
      reads this`places, this`strays, fibers.Values`next
    {
      forall n <- fibers.Values :: n !in places && n !in strays ==> n.next == null
    }

    ghost predicate Ringed()
      reads this`queues, fibers.Values`next, fibers.Values`prev
      reads this`ready, mutexes.Values`lockQueue, conds.Values`waitQueue, io.Values`readQueue, io.Values`writeQueue
    {
      forall q :: q in queues ==> Members(queues[q]) <= fibers.Values && HasQueue(q) && RingFor(q, queues[q])
    }

    ghost predicate Timed()
      reads this`timers, this`timerQueue, fibers.Values`timerNext, fibers.Values`timerPrev
    {
      Members(timers) <= fibers.Values && Ring(timerQueue, timers, TimerLinks)
    }

    ghost predicate KnownCallback(cb: Callback) {
      match cb
      case TimedlockCb(mutex) => mutex in mutexes.Values
      case TimedwaitCb(cond) => cond in conds.Values
      case WaitforCb(fd) => fd in io
      case _ => true
    }

    /** The pointers to mutexes, conditions and fibers lead to known ones. */
    ghost predicate Pointed()
      reads mutexes.Values`owner, fibers.Values`condMutex, fibers.Values`timerCallback
    {
      && (forall m <- mutexes.Values :: m.owner != null ==> m.owner in fibers.Values)
      && (forall f <- fibers.Values :: f.condMutex != null ==> f.condMutex in mutexes.Values)
      && (forall f <- fibers.Values :: KnownCallback(f.timerCallback))
    }

    ghost predicate Linked()
      reads this`queues, this`places, this`strays, fibers.Values`next, fibers.Values`prev
      reads this`ready, mutexes.Values`lockQueue, conds.Values`waitQueue, io.Values`readQueue, io.Values`writeQueue
    {
      Marked() && Cleared() && Ringed()
    }

    ghost predicate Valid()
      reads this, fibers.Values, mutexes.Values, conds.Values, io.Values
    {
      Named() && Linked() && Timed() && Pointed()
    }

    // ---- The value --------------------------------------------------------------------------

    ghost function FibersView(): map<FiberId, FiberState>
      reads fibers.Values`timer, fibers.Values`timerCallback, fibers.Values`timeout, fibers.Values`waitedEvent
      reads fibers.Values`ioCanceled, fibers.Values`condMutex, fibers.Values`lockCount
    {
      map i | i in fibers :: FiberView(fibers[i])
    }

    ghost function MutexesView(qs: map<QueueId, seq<Fiber>>): map<MutexId, MutexState>
      reads mutexes.Values`owner, mutexes.Values`lockCount
    {
      map i | i in mutexes ::
        MutexState(OwnerView(mutexes[i].owner), Ids(Of(qs, LockQueue(i))), mutexes[i].lockCount, mutexes[i].isRecursive)
    }

    ghost function CondsView(qs: map<QueueId, seq<Fiber>>): map<CondId, seq<FiberId>> {
      map i | i in conds :: Ids(Of(qs, WaitQueue(i)))
    }

    ghost function IosView(qs: map<QueueId, seq<Fiber>>): map<Fd, Descriptor>
      reads io.Values`isInEpoll, io.Values`epoll
    {
      map i | i in io :: IoView(io[i], Of(qs, FdQueue(i, Read)), Of(qs, FdQueue(i, Write)))
    }

    /** The value of the heap, if its queues were `qs`. */
    ghost function ViewWith(qs: map<QueueId, seq<Fiber>>): Mem
      reads this`timers, this`timerThread, fibers.Values`timer, fibers.Values`timerCallback, fibers.Values`timeout
      reads fibers.Values`waitedEvent, fibers.Values`ioCanceled, fibers.Values`condMutex, fibers.Values`lockCount
      reads mutexes.Values`owner, mutexes.Values`lockCount
      reads io.Values`isInEpoll, io.Values`epoll
    {
      Mem(Ids(Of(qs, ReadyQueue)), Ids(timers), timerThread, FibersView(), MutexesView(qs), CondsView(qs), IosView(qs))
    }

    ghost function View(): Mem
      reads this`queues, this`timers, this`timerThread, fibers.Values`timer, fibers.Values`timerCallback
      reads fibers.Values`timeout
      reads fibers.Values`waitedEvent, fibers.Values`ioCanceled, fibers.Values`condMutex, fibers.Values`lockCount
      reads mutexes.Values`owner, mutexes.Values`lockCount
      reads io.Values`isInEpoll, io.Values`epoll
    {
      ViewWith(queues)
    }

    lemma MutexesQueue(qs: map<QueueId, seq<Fiber>>, q: QueueId, s: seq<Fiber>)
      requires HasQueue(q)
      ensures
        var v := MutexesView(qs);
        MutexesView(qs[q := s]) == if q.LockQueue? then v[q.mutex := v[q.mutex].(lockQueue := Ids(s))] else v
    {
      hide Ids;
    }

    lemma CondsQueue(qs: map<QueueId, seq<Fiber>>, q: QueueId, s: seq<Fiber>)
      requires HasQueue(q)
      ensures CondsView(qs[q := s]) == if q.WaitQueue? then CondsView(qs)[q.cond := Ids(s)] else CondsView(qs)
    {
      hide Ids;
    }

    lemma IosQueue(qs: map<QueueId, seq<Fiber>>, q: QueueId, s: seq<Fiber>)
      requires HasQueue(q)
      ensures
        var v := IosView(qs);
        IosView(qs[q := s]) == if q.FdQueue? then v[q.fd := v[q.fd].WithQueue(q.dir, Ids(s))] else v
    {
      hide Ids;
    }

    /** Changing one queue changes that queue in the value. */
    lemma QueueView(qs: map<QueueId, seq<Fiber>>, q: QueueId, s: seq<Fiber>)
      requires HasQueue(q)
      ensures ViewWith(qs[q := s]) == ViewWith(qs).SetQueue(q, Ids(s))
    {
      hide Ids, MutexesView, CondsView, IosView, FibersView;
      MutexesQueue(qs, q, s);
      CondsQueue(qs, q, s);
      IosQueue(qs, q, s);
      MutexesKeys(qs);
    }

    lemma MutexesKeys(qs: map<QueueId, seq<Fiber>>)
      ensures MutexesView(qs).Keys == mutexes.Keys && CondsView(qs).Keys == conds.Keys && IosView(qs).Keys == io.Keys
    {
    }

    // ---- Reading and writing one object ------------------------------------------------------

    ghost function MutexView(mutex: Mutex): MutexState
      reads this`queues, mutex`owner, mutex`lockCount
    {
      MutexState(OwnerView(mutex.owner), Ids(Of(queues, LockQueue(mutex.id))), mutex.lockCount, mutex.isRecursive)
    }

    ghost function FdView(d: Io): Descriptor
      reads this`queues, d`isInEpoll, d`epoll
    {
      IoView(d, Of(queues, FdQueue(d.id, Read)), Of(queues, FdQueue(d.id, Write)))
    }

    lemma FiberAt(f: Fiber)
      requires Named() && f in fibers.Values
      ensures View().F(f.id) == FiberView(f)
    {
    }

    lemma MutexAt(mutex: Mutex)
      requires Named() && mutex in mutexes.Values
      ensures View().M(mutex.id) == MutexView(mutex)
    {
      hide Ids;
    }

    lemma FdAt(d: Io)
      requires Named() && d in io.Values
      ensures View().D(d.id) == FdView(d)
    {
      hide Ids;
    }

    lemma QueueAt(q: QueueId)
      requires Named() && HasQueue(q)
      ensures View().Queue(q) == Ids(Of(queues, q))
    {
      hide Ids;
    }

    /** The value of the heap, part by part. */
    lemma ViewIs()
      requires Named()
      ensures View() == ViewWith(queues) == Whole(queues, FibersView())
      ensures View() == Mem(Ids(Of(queues, ReadyQueue)), Ids(timers), timerThread, FibersView(), MutexesView(queues),
                            CondsView(queues), IosView(queues))
      ensures FibersView().Keys == fibers.Keys
      ensures forall n <- fibers.Values :: n.id in fibers && FibersView()[n.id] == FiberView(n)
    {
    }

    ghost function Whole(qs: map<QueueId, seq<Fiber>>, fs: map<FiberId, FiberState>): Mem
      reads this`timers, this`timerThread, mutexes.Values`owner, mutexes.Values`lockCount
      reads io.Values`isInEpoll, io.Values`epoll
    {
      Mem(Ids(Of(qs, ReadyQueue)), Ids(timers), timerThread, fs, MutexesView(qs), CondsView(qs), IosView(qs))
    }

    /** After a write to the fields of `f`. */
    lemma FiberWritten(v: Mem, qs: map<QueueId, seq<Fiber>>, f: Fiber)
      requires Named() && f in fibers.Values
      requires v == Whole(qs, v.fibers) && v.fibers.Keys == fibers.Keys
      requires forall n <- fibers.Values :: n.id in fibers && (n != f ==> v.fibers[n.id] == FiberView(n))
      ensures ViewWith(qs) == v.SetF(f.id, FiberView(f))
    {
      hide Ids, MutexesView, CondsView, IosView;
      forall i | i in fibers && i != f.id ensures FibersView()[i] == v.fibers[i] {
        assert fibers[i] in fibers.Values && fibers[i].id == i;
      }
      assert FibersView() == v.fibers[f.id := FiberView(f)];
    }

    /** After a write to the fields of `mutex`. */
    lemma MutexWritten(v: map<MutexId, MutexState>, mutex: Mutex)
      requires Named() && mutex in mutexes.Values && v.Keys == mutexes.Keys
      requires forall n <- mutexes.Values :: n.id in mutexes && (n != mutex ==> v[n.id] == MutexView(n))
      ensures MutexesView(queues) == v[mutex.id := MutexView(mutex)]
    {
      hide Ids;
      forall i | i in mutexes && i != mutex.id ensures v[i] == MutexView(mutexes[i]) {
        assert mutexes[i] in mutexes.Values && mutexes[i].id == i;
      }
    }

    /** After a write to the fields of `d`. */
    lemma FdWritten(v: map<Fd, Descriptor>, d: Io)
      requires Named() && d in io.Values && v.Keys == io.Keys
      requires forall n <- io.Values :: n.id in io && (n != d ==> v[n.id] == FdView(n))
      ensures IosView(queues) == v[d.id := FdView(d)]
    {
      hide Ids;
      forall i | i in io && i != d.id ensures v[i] == FdView(io[i]) {
        assert io[i] in io.Values && io[i].id == i;
      }
    }

    // ---- Queue operations on the heap -------------------------------------------------------

    function Load(l: ListHead): (f: Fiber?)
      requires HasHead(l) && Named()
      reads mutexes.Values`lockQueue, conds.Values`waitQueue, io.Values`readQueue, io.Values`writeQueue
      ensures f == HeadOf(l.Id())
    {
      match l
      case LockHead(mutex) => mutex.lockQueue
      case WaitHead(cond) => cond.waitQueue
      case FdHead(d, dir) => if dir.Read? then d.readQueue else d.writeQueue
    }

    /** The queues other than `q` are well formed. */
    ghost predicate RingedBut(q: QueueId)
      reads this`queues, fibers.Values`next, fibers.Values`prev
      reads this`ready, mutexes.Values`lockQueue, conds.Values`waitQueue, io.Values`readQueue, io.Values`writeQueue
    {
      forall r :: r in queues && r != q ==> Members(queues[r]) <= fibers.Values && HasQueue(r) && RingFor(r, queues[r])
    }

    /** A queue's new head is stored; `s` is what it now links. */
    method Store(l: ListHead, f: Fiber?, ghost s: seq<Fiber>)
      requires HasHead(l) && Named() && RingedBut(l.Id()) && Ring(f, s, Plain) && Members(s) <= fibers.Values
      modifies this`queues, mutexes.Values`lockQueue, conds.Values`waitQueue, io.Values`readQueue, io.Values`writeQueue
      ensures queues == old(queues)[l.Id() := s] && Ringed()
      ensures forall n <- fibers.Values :: n.next == old(n.next) && n.prev == old(n.prev)
    {
      match l
      case LockHead(mutex) => StoreLock(mutex, f, s);
      case WaitHead(cond) => StoreWait(cond, f, s);
      case FdHead(d, dir) => StoreFd(d, dir, f, s);
    }

    method StoreLock(mutex: Mutex, f: Fiber?, ghost s: seq<Fiber>)
      requires mutex in mutexes.Values && Named() && RingedBut(LockQueue(mutex.id)) && Ring(f, s, Plain)
      requires Members(s) <= fibers.Values
      modifies this`queues, mutex`lockQueue
      ensures queues == old(queues)[LockQueue(mutex.id) := s] && Ringed()
    {
      hide Ring, TailRing;
      mutex.lockQueue := f;
      queues := queues[LockQueue(mutex.id) := s];
    }

    method StoreWait(cond: Cond, f: Fiber?, ghost s: seq<Fiber>)
      requires cond in conds.Values && Named() && RingedBut(WaitQueue(cond.id)) && Ring(f, s, Plain)
      requires Members(s) <= fibers.Values
      modifies this`queues, cond`waitQueue
      ensures queues == old(queues)[WaitQueue(cond.id) := s] && Ringed()
    {
      hide Ring, TailRing;
      cond.waitQueue := f;
      queues := queues[WaitQueue(cond.id) := s];
    }

    method StoreFd(d: Io, dir: Direction, f: Fiber?, ghost s: seq<Fiber>)
      requires d in io.Values && Named() && RingedBut(FdQueue(d.id, dir)) && Ring(f, s, Plain)
      requires Members(s) <= fibers.Values
      modifies this`queues, d`readQueue, d`writeQueue
      ensures queues == old(queues)[FdQueue(d.id, dir) := s] && Ringed()
    {
      hide Ring, TailRing;
      if dir.Read? { d.readQueue := f; } else { d.writeQueue := f; }
      queues := queues[FdQueue(d.id, dir) := s];
    }

    /** The links of the strays are as they were. */
    twostate predicate StraysKept(except: Fiber?)
      reads this`strays, fibers.Values`next, fibers.Values`prev
    {
      forall n <- fibers.Values :: n in old(strays) && n != except ==> n.next == old(n.next) && n.prev == old(n.prev)
    }

    /** A fiber that is in no queue and in no list of a signaller. */
    ghost predicate Free(f: Fiber)
      reads this`places, this`strays
    {
      f in fibers.Values && f !in places && f !in strays
    }

    /** The links of the fibers outside `reached` are as they were. */
    twostate predicate LinksKept(reached: set<Fiber>)
      reads fibers.Values`next, fibers.Values`prev
    {
      forall n <- fibers.Values :: n !in reached ==> n.next == old(n.next) && n.prev == old(n.prev)
    }

    method PushRing(l: ListHead, f: Fiber)
      requires Named() && Ringed() && HasHead(l) && f in fibers.Values && Isolated(queues, l.Id(), f)
      requires f !in queues[l.Id()]
      modifies this`queues, fibers.Values`next, fibers.Values`prev
      modifies mutexes.Values`lockQueue, conds.Values`waitQueue, io.Values`readQueue, io.Values`writeQueue
      ensures Ringed() && LinksKept(Nodes(Of(old(queues), l.Id()), f))
      ensures queues == old(queues)[l.Id() := Of(old(queues), l.Id()) + [f]]
    {
      hide Ring, TailRing;
      ghost var q := l.Id();
      var head := Push(Load(l), f, Plain, queues[q]);
      Store(l, head, queues[q] + [f]);
    }

    /** melon_dlist_push on one of the queues. */
    method PushOn(l: ListHead, f: Fiber)
      requires Named() && Linked() && HasHead(l) && Free(f)
      modifies this`queues, this`places, fibers.Values`next, fibers.Values`prev
      modifies mutexes.Values`lockQueue, conds.Values`waitQueue, io.Values`readQueue, io.Values`writeQueue
      ensures Linked()
      ensures queues == old(queues)[l.Id() := Of(old(queues), l.Id()) + [f]]
      ensures places == old(places)[f := l.Id()]
      ensures StraysKept(null)
    {
      ghost var q := l.Id();
      hide Ringed, Marking, Isolated;
      MarkApart(queues, places, strays, q, f);
      MarkPush(queues, places, strays, q, f);
      PushRing(l, f);
      places := places[f := q];
    }

    method UnlinkRing(l: ListHead, f: Fiber)
      requires Named() && Ringed() && HasHead(l) && Isolated(queues, l.Id(), f) && f in queues[l.Id()]
      modifies this`queues, fibers.Values`next, fibers.Values`prev
      modifies mutexes.Values`lockQueue, conds.Values`waitQueue, io.Values`readQueue, io.Values`writeQueue
      ensures Ringed() && LinksKept(Nodes(Of(old(queues), l.Id()), f)) && f.next == null && f.prev == null
      ensures queues == old(queues)[l.Id() := Without(Of(old(queues), l.Id()), f)]
    {
      hide Ring, TailRing;
      ghost var q := l.Id();
      DistinctQueue(q);
      WithoutFacts(queues[q], f);
      assert Members(Without(queues[q], f)) <= Members(queues[q]) <= fibers.Values;
      hide Distinct, Without;
      var head := Unlink(Load(l), f, Plain, queues[q]);
      Store(l, head, Without(queues[q], f));
    }

    /** melon_dlist_unlink on one of the queues. */
    method UnlinkFrom(l: ListHead, f: Fiber)
      requires Named() && Linked() && HasHead(l) && f in Of(queues, l.Id())
      modifies this`queues, this`places, fibers.Values`next, fibers.Values`prev
      modifies mutexes.Values`lockQueue, conds.Values`waitQueue, io.Values`readQueue, io.Values`writeQueue
      ensures Linked() && Free(f)
      ensures queues == old(queues)[l.Id() := Without(Of(old(queues), l.Id()), f)]
      ensures places == old(places) - {f}
      ensures StraysKept(null)
    {
      ghost var q := l.Id();
      hide Ringed, Marking, Isolated, Without, Distinct;
      DistinctQueue(q);
      MarkApart(queues, places, strays, q, f);
      MarkRemove(queues, places, strays, q, f);
      UnlinkRing(l, f);
      places := places - {f};
    }

    lemma DistinctQueue(q: QueueId)
      requires Ringed() && q in queues
      ensures Distinct(queues[q])
      ensures HasQueue(q) && (q != ReadyQueue ==> HeadOf(q) == Head(queues[q]))
    {
      hide Distinct;
      assert RingFor(q, queues[q]);
    }

    // ---- The ready queue --------------------------------------------------------------------

    method StoreReady(f: Fiber?, ghost s: seq<Fiber>)
      requires Named() && RingedBut(ReadyQueue) && TailRing(f, s) && Members(s) <= fibers.Values
      modifies this`queues, this`ready
      ensures queues == old(queues)[ReadyQueue := s] && Ringed() && ready == f
    {
      hide Ring, TailRing;
      ready := f;
      queues := queues[ReadyQueue := s];
    }

    method PushReady(f: Fiber)
      requires Named() && Ringed() && f in fibers.Values && f.next == null && Isolated(queues, ReadyQueue, f)
      requires f !in queues[ReadyQueue]
      modifies this`ready, this`queues, fibers.Values`next, f`waitedEvent
      ensures Ringed() && LinksKept(Nodes(Of(old(queues), ReadyQueue), f)) && f.waitedEvent == NO_EVENT
      ensures queues == old(queues)[ReadyQueue := Of(old(queues), ReadyQueue) + [f]]
    {
      hide Ring, TailRing, Listed;
      ghost var s := queues[ReadyQueue];
      assert RingFor(ReadyQueue, s);
      SingleListed(f);
      assert Members([f]) == {f};
      var list, nb := MoveAll(ready, f, s, [f]);
      assert RingedBut(ReadyQueue);
      StoreReady(list, s + [f]);
    }

    method MakeReady(f: Fiber)
      requires Named() && Linked() && Free(f)
      modifies this`ready, this`queues, this`places, fibers.Values`next, f`waitedEvent
      ensures Linked() && StraysKept(null) && f.waitedEvent == NO_EVENT
      ensures queues == old(queues)[ReadyQueue := Of(old(queues), ReadyQueue) + [f]]
      ensures places == old(places)[f := ReadyQueue]
    {
      hide Ringed, Marking, Isolated;
      assert ReadyQueue in queues by { assert HasQueue(ReadyQueue); }
      MarkApart(queues, places, strays, ReadyQueue, f);
      MarkPush(queues, places, strays, ReadyQueue, f);
      PushReady(f);
      places := places[f := ReadyQueue];
    }

    /** melon_sched_ready_locked for one fiber. */
    method SchedReady(f: Fiber)
      requires Valid() && Free(f)
      modifies this`ready, this`queues, this`places, fibers.Values`next, f`waitedEvent
      ensures Valid() && View() == Regions.SchedReady(old(View()), f.id)
      ensures places == old(places)[f := ReadyQueue] && StraysKept(null)
    {
      hide *;
      Parts();
      ViewIs();
      FreeParts(f);
      HasReady();
      QueueAt(ReadyQueue);
      FiberAt(f);
      FiberIs(f);
      ghost var v, qs := View(), queues;
      MakeReady(f);
      FiberWritten(v, qs, f);
      FiberIs(f);
      QueueView(qs, ReadyQueue, Of(qs, ReadyQueue) + [f]);
      ReadyIs(v, Of(qs, ReadyQueue), f);
      AllParts();
      ViewIs();
    }

    lemma FiberIs(f: Fiber)
      ensures FiberView(f) == FiberState(f.timer, CallbackView(f.timerCallback), f.timeout, f.waitedEvent, f.ioCanceled,
                                         MutexName(f.condMutex), f.lockCount)
    {
    }

    lemma ReadyIs(v: Mem, s: seq<Fiber>, f: Fiber)
      requires v.Queue(ReadyQueue) == Ids(s)
      ensures v.SetF(f.id, v.F(f.id).(waitedEvent := NO_EVENT)).SetQueue(ReadyQueue, Ids(s + [f]))
          == Regions.SchedReady(v, f.id)
    {
      assert Ids(s + [f]) == Ids(s) + [f.id];
    }

    lemma FreeParts(f: Fiber)
      requires Free(f)
      ensures f in fibers.Values
    {
    }

    lemma HasReady()
      requires Linked()
      ensures HasQueue(ReadyQueue) && ReadyQueue in queues
    {
      assert HasQueue(ReadyQueue);
    }

    lemma Parts()
      requires Valid()
      ensures Named() && Linked() && Timed() && Pointed()
    {
    }

    lemma AllParts()
      requires Named() && Linked() && Timed() && Pointed()
      ensures Valid()
    {
    }

    // ---- The other queues, and what they are in the value -----------------------------------

    lemma HeadParts(l: ListHead)
      requires HasHead(l) && Named() && Linked()
      ensures HasQueue(l.Id()) && l.Id() in queues
    {
    }

    lemma IdsFacts(s: seq<Fiber>, f: Fiber)
      requires Named() && Members(s) <= fibers.Values && f in fibers.Values
      ensures Ids(s + [f]) == Ids(s) + [f.id]
      ensures f in s <==> f.id in Ids(s)
      ensures f in s ==> Ids(Without(s, f)) == Without(Ids(s), f.id)
    {
      assert Ids(s + [f]) == Ids(s) + [f.id];
      if f.id in Ids(s) {
        var i :| 0 <= i < |s| && Ids(s)[i] == f.id;
        assert s[i] in Members(s) && s[i] == f;
      }
      forall i | 0 <= i < |s| && s[i] == f ensures f.id in Ids(s) {
        assert Ids(s)[i] == f.id;
      }
      if f in s { IdsWithout(s, f); }
    }

    lemma {:induction false} IdsWithout(s: seq<Fiber>, f: Fiber)
      requires Named() && Members(s) <= fibers.Values && f in fibers.Values
      ensures Ids(Without(s, f)) == Without(Ids(s), f.id)
    {
      if s != [] {
        assert s[0] in Members(s) && Ids(s)[1..] == Ids(s[1..]);
        assert Members(s[1..]) <= Members(s);
        IdsWithout(s[1..], f);
        assert Ids([s[0]] + Without(s[1..], f)) == [s[0].id] + Ids(Without(s[1..], f));
      }
    }

    lemma MembersHere(q: QueueId)
      requires Linked() && q in queues
      ensures Members(queues[q]) <= fibers.Values && Of(queues, q) == queues[q]
    {
    }

    /** A queue, its sequence of fibers, and what it is in the value. */
    lemma QueueFacts(l: ListHead, f: Fiber)
      requires Valid() && HasHead(l) && f in fibers.Values
      ensures
        var q, v := l.Id(), View();
        && HasQueue(q) && q in queues && Of(queues, q) == queues[q] && v == ViewWith(queues)
        && Ids(queues[q] + [f]) == v.Queue(q) + [f.id]
        && (f in queues[q] <==> f.id in v.Queue(q))
        && (f in queues[q] ==> Ids(Without(queues[q], f)) == Without(v.Queue(q), f.id))
    {
      hide *;
      Parts();
      ViewIs();
      HeadParts(l);
      MembersHere(l.Id());
      QueueAt(l.Id());
      IdsFacts(queues[l.Id()], f);
    }

    /** melon_dlist_push on a queue. */
    method Enqueue(l: ListHead, f: Fiber)
      requires Valid() && HasHead(l) && Free(f)
      modifies this`queues, this`places, fibers.Values`next, fibers.Values`prev
      modifies mutexes.Values`lockQueue, conds.Values`waitQueue, io.Values`readQueue, io.Values`writeQueue
      ensures Valid() && View() == old(View()).SetQueue(l.Id(), old(View()).Queue(l.Id()) + [f.id])
      ensures places == old(places)[f := l.Id()] && StraysKept(null)
    {
      hide *;
      Parts();
      FreeParts(f);
      QueueFacts(l, f);
      ghost var v, qs := View(), queues;
      PushOn(l, f);
      assert ViewWith(qs) == v;
      QueueView(qs, l.Id(), qs[l.Id()] + [f]);
      AllParts();
      ViewIs();
    }

    /** melon_dlist_unlink from a queue. */
    method Dequeue(l: ListHead, f: Fiber)
      requires Valid() && HasHead(l) && f in fibers.Values && f.id in View().Queue(l.Id())
      modifies this`queues, this`places, fibers.Values`next, fibers.Values`prev
      modifies mutexes.Values`lockQueue, conds.Values`waitQueue, io.Values`readQueue, io.Values`writeQueue
      ensures Valid() && View() == old(View()).SetQueue(l.Id(), Without(old(View()).Queue(l.Id()), f.id))
      ensures Free(f) && places == old(places) - {f} && StraysKept(null)
    {
      hide *;
      Parts();
      QueueFacts(l, f);
      ghost var v, qs := View(), queues;
      UnlinkFrom(l, f);
      assert ViewWith(qs) == v;
      QueueView(qs, l.Id(), Without(qs[l.Id()], f));
      AllParts();
      ViewIs();
    }

    // ---- The timer queue --------------------------------------------------------------------

    lemma TimedParts()
      requires Timed()
      ensures Ring(timerQueue, timers, TimerLinks) && Members(timers) <= fibers.Values && Distinct(timers)
      ensures timerQueue == null <==> timers == []
    {
    }

    lemma TimersAt()
      ensures View().timerQueue == Ids(timers)
    {
    }

    lemma KeysAre(s: seq<Fiber>)
      requires Named() && Members(s) <= fibers.Values
      ensures TimersOf(s) == Keys(FibersView(), Ids(s))
    {
      forall i | 0 <= i < |s| ensures TimersOf(s)[i] == Keys(FibersView(), Ids(s))[i] {
        assert s[i] in Members(s);
      }
    }

    lemma InsertIds(s: seq<Fiber>, p: nat, f: Fiber)
      requires p <= |s|
      ensures Ids(InsertAt(s, p, f)) == InsertAt(Ids(s), p, f.id)
      ensures Members(InsertAt(s, p, f)) == Members(s) + {f}
    {
      assert s == s[..p] + s[p..];
    }

    lemma TimerPushIs(v: Mem, s: seq<Fiber>, f: Fiber)
      requires v.timerQueue == Ids(s) && v.F(f.id).timer == f.timer
      requires Keys(v.fibers, Ids(s)) == TimersOf(s)
      ensures
        var p := InsertPos(TimersOf(s), f.timer);
        Regions.TimerPush(v, f.id)
            == v.(timerQueue := Ids(InsertAt(s, p, f)), timerThread := if p == 0 then Awake else v.timerThread)
    {
      InsertIds(s, InsertPos(TimersOf(s), f.timer), f);
    }

    method PushTimer(f: Fiber)
      requires Timed() && f in fibers.Values && f !in timers
      modifies this`timers, this`timerQueue, this`timerThread, fibers.Values`timerNext, fibers.Values`timerPrev
      ensures Timed()
      ensures
        var p := InsertPos(old(TimersOf(timers)), f.timer);
        timers == InsertAt(old(timers), p, f) && timerThread == if p == 0 then Awake else old(timerThread)
    {
      hide Ring, InsertPos, InsertAt, TimersOf;
      ghost var s, p := timers, InsertPos(TimersOf(timers), f.timer);
      InsertIds(s, p, f);
      var list, front := InsertSorted(timerQueue, f, s);
      timerQueue := list;
      timers := InsertAt(s, p, f);
      if front {
        timerThread := Awake;
      }
    }

    /** What melon_timer_push_locked does to the value, in terms of the ring. */
    lemma TimerPushView(f: Fiber)
      requires Valid() && f in fibers.Values && f.id !in View().timerQueue
      ensures f !in timers
      ensures
        var p := InsertPos(TimersOf(timers), f.timer);
        Regions.TimerPush(View(), f.id)
        == Untimed().(timerQueue := Ids(InsertAt(timers, p, f)), timerThread := if p == 0 then Awake else timerThread)
    {
      hide *;
      Parts();
      ViewIs();
      TimedParts();
      TimersAt();
      IdsFacts(timers, f);
      KeysAre(timers);
      FiberAt(f);
      FiberIs(f);
      TimersView();
      TimerPushIs(View(), timers, f);
    }

    /** melon_timer_push_locked. */
    method TimerPush(f: Fiber)
      requires Valid() && f in fibers.Values && f.id !in View().timerQueue
      modifies this`timers, this`timerQueue, this`timerThread, fibers.Values`timerNext, fibers.Values`timerPrev
      ensures Valid() && View() == Regions.TimerPush(old(View()), f.id)
      ensures exists p :: 0 <= p <= |old(timers)| && timers == InsertAt(old(timers), p, f)
    {
      hide *;
      Parts();
      TimerPushView(f);
      PushTimer(f);
      assert Untimed() == old(Untimed());
      AllParts();
      TimersView();
    }

    /** The value without the timer queue and the timer thread. */
    ghost function Untimed(): Mem
      reads this`queues, fibers.Values`timer, fibers.Values`timerCallback, fibers.Values`timeout
      reads fibers.Values`waitedEvent, fibers.Values`ioCanceled, fibers.Values`condMutex, fibers.Values`lockCount
      reads mutexes.Values`owner, mutexes.Values`lockCount, io.Values`isInEpoll, io.Values`epoll
    {
      Mem(Ids(Of(queues, ReadyQueue)), [], Awake, FibersView(), MutexesView(queues), CondsView(queues), IosView(queues))
    }

    lemma TimersView()
      ensures View() == Untimed().(timerQueue := Ids(timers), timerThread := timerThread)
    {
    }

    /** What the timer thread does, or is made to do. */
    method SetTimerThread(t: TimerThread)
      requires Valid()
      modifies this`timerThread
      ensures Valid() && View() == old(View()).(timerThread := t)
    {
      hide *;
      Parts();
      TimersView();
      timerThread := t;
      assert Untimed() == old(Untimed());
      AllParts();
      TimersView();
    }

    method RemoveTimer(f: Fiber)
      requires Timed() && f in timers
      modifies this`timers, this`timerQueue, fibers.Values`timerNext, fibers.Values`timerPrev
      ensures Timed() && timers == Without(old(timers), f)
    {
      hide Ring, Distinct, Without;
      TimedParts();
      Inverse(timerQueue, timers, TimerLinks, f);
      assert f.timerNext != null;
      assert f.timerPrev != null;
      WithoutFacts(timers, f);
      assert Members(Without(timers, f)) <= Members(timers);
      ghost var s := timers;
      var list := Unlink(timerQueue, f, TimerLinks, s);
      timerQueue := list;
      timers := Without(s, f);
    }

    /** melon_timer_remove_locked. */
    method TimerRemove(f: Fiber)
      requires Valid() && f in fibers.Values && f.id in View().timerQueue
      modifies this`timers, this`timerQueue, fibers.Values`timerNext, fibers.Values`timerPrev
      ensures Valid() && Regions.TimerRemove(old(View()), f.id) == Ok(View())
    {
      hide *;
      Parts();
      ViewIs();
      TimedParts();
      TimersAt();
      IdsFacts(timers, f);
      TimersView();
      RemoveIs(View(), f.id);
      RemoveTimer(f);
      assert Untimed() == old(Untimed());
      AllParts();
      TimersView();
    }

    lemma RemoveIs(v: Mem, f: FiberId)
      requires f in v.timerQueue
      ensures Regions.TimerRemove(v, f) == Ok(v.(timerQueue := Without(v.timerQueue, f)))
    {
    }

    // ---- Writes to the fields of one object, and what they are in the value ------------------

    /** `timer`. */
    method SetTimer(f: Fiber, t: int)
      requires Valid() && f in fibers.Values
      modifies f`timer
      ensures Valid() && f.timer == t && View() == old(View()).SetF(f.id, old(View()).F(f.id).(timer := t))
    {
      hide *;
      Parts();
      ViewIs();
      FiberAt(f);
      FiberIs(f);
      ghost var v := View();
      f.timer := t;
      FiberWritten(v, queues, f);
      FiberIs(f);
      AllParts();
      ViewIs();
    }

    /** `lock_count`. */
    method SetLockCount(f: Fiber, n: int)
      requires Valid() && f in fibers.Values
      modifies f`lockCount
      ensures Valid() && View() == old(View()).SetF(f.id, old(View()).F(f.id).(lockCount := n))
    {
      hide *;
      Parts();
      ViewIs();
      FiberAt(f);
      FiberIs(f);
      ghost var v := View();
      f.lockCount := n;
      FiberWritten(v, queues, f);
      FiberIs(f);
      AllParts();
      ViewIs();
    }

    /** The flag in the callback's context. */
    method SetTimeout(f: Fiber)
      requires Valid() && f in fibers.Values
      modifies f`timeout
      ensures Valid() && View() == old(View()).SetF(f.id, old(View()).F(f.id).(timeout := true))
    {
      hide *;
      Parts();
      ViewIs();
      FiberAt(f);
      FiberIs(f);
      ghost var v := View();
      f.timeout := true;
      FiberWritten(v, queues, f);
      FiberIs(f);
      AllParts();
      ViewIs();
    }

    /** `waited_event`, to a value without I/O bits. */
    method ClearWaited(f: Fiber)
      requires Valid() && f in fibers.Values
      modifies f`waitedEvent
      ensures Valid() && View() == old(View()).SetF(f.id, old(View()).F(f.id).(waitedEvent := NO_EVENT))
    {
      hide *;
      Parts();
      ViewIs();
      FiberAt(f);
      FiberIs(f);
      ghost var v := View();
      f.waitedEvent := NO_EVENT;
      FiberWritten(v, queues, f);
      FiberIs(f);
      AllParts();
      ViewIs();
    }

    /** `io_canceled`. */
    method SetCanceled(f: Fiber)
      requires Valid() && f in fibers.Values
      modifies f`ioCanceled
      ensures Valid() && View() == old(View()).SetF(f.id, old(View()).F(f.id).(ioCanceled := true))
    {
      hide *;
      Parts();
      ViewIs();
      FiberAt(f);
      FiberIs(f);
      ghost var v := View();
      f.ioCanceled := true;
      FiberWritten(v, queues, f);
      FiberIs(f);
      AllParts();
      ViewIs();
    }

    method WriteWaited(f: Fiber, events: Events)
      requires Pointed()
      modifies f`waitedEvent, f`ioCanceled
      ensures Pointed() && f.waitedEvent == events && !f.ioCanceled
    {
      f.waitedEvent := events;
      f.ioCanceled := false;
    }

    /** `waited_event` and `io_canceled`, before a wait. */
    method SetWaited(f: Fiber, events: Events)
      requires Valid() && f in fibers.Values
      modifies f`waitedEvent, f`ioCanceled
      ensures Valid()
      ensures View() == old(View()).SetF(f.id, old(View()).F(f.id).(waitedEvent := events, ioCanceled := false))
    {
      hide *;
      Parts();
      ViewIs();
      FiberAt(f);
      FiberIs(f);
      ghost var v := View();
      WriteWaited(f, events);
      FiberWritten(v, queues, f);
      FiberIs(f);
      AllParts();
      ViewIs();
    }

    method WriteTimer(f: Fiber, t: int, cb: Callback, timeout: bool)
      requires Pointed() && f in fibers.Values && KnownCallback(cb)
      modifies f`timer, f`timerCallback, f`timeout
      ensures Pointed() && f.timer == t && f.timerCallback == cb && f.timeout == timeout
    {
      f.timer := t;
      f.timerCallback := cb;
      f.timeout := timeout;
    }

    /** The timer, its callback and the flag in the callback's context. */
    method SetAlarm(f: Fiber, t: int, cb: Callback, timeout: bool)
      requires Valid() && f in fibers.Values && KnownCallback(cb)
      modifies f`timer, f`timerCallback, f`timeout
      ensures Valid() && f.timer == t && f.timerCallback == cb && f.timeout == timeout
      ensures View() == old(View()).SetF(f.id,
          old(View()).F(f.id).(timer := t, timerCallback := CallbackView(cb), timeout := timeout))
    {
      hide *;
      Parts();
      ViewIs();
      FiberAt(f);
      FiberIs(f);
      ghost var v := View();
      WriteTimer(f, t, cb, timeout);
      FiberWritten(v, queues, f);
      FiberIs(f);
      AllParts();
      ViewIs();
    }

    /** The timer is set, and the fiber joins the timer queue. */
    method StartTimer(f: Fiber, t: int, cb: Callback, timeout: bool)
      requires Valid() && f in fibers.Values && KnownCallback(cb) && f.id !in View().timerQueue
      modifies f`timer, f`timerCallback, f`timeout
      modifies this`timers, this`timerQueue, this`timerThread, fibers.Values`timerNext, fibers.Values`timerPrev
      ensures Valid() && f.timer == t && f.timerCallback == cb && f.timeout == timeout && f in timers
      ensures
        var v := old(View());
        var fiber := v.F(f.id).(timer := t, timerCallback := CallbackView(cb), timeout := timeout);
        View() == Regions.TimerPush(v.SetF(f.id, fiber), f.id)
    {
      hide Valid, View, Regions.TimerPush, Mem.F;
      SetAlarm(f, t, cb, timeout);
      TimerPush(f);
    }

    method WriteSaved(f: Fiber, mutex: Mutex, n: int)
      requires Pointed() && f in fibers.Values && mutex in mutexes.Values
      modifies f`condMutex, f`lockCount
      ensures Pointed() && f.condMutex == mutex && f.lockCount == n
    {
      f.condMutex := mutex;
      f.lockCount := n;
    }

    /** The mutex to relock and its lock count. */
    method SetSaved(f: Fiber, mutex: Mutex, n: int)
      requires Valid() && f in fibers.Values && mutex in mutexes.Values
      modifies f`condMutex, f`lockCount
      ensures Valid() && f.condMutex == mutex && f.lockCount == n
      ensures View() == old(View()).SetF(f.id, old(View()).F(f.id).(condMutex := MutexName(mutex), lockCount := n))
    {
      hide *;
      Parts();
      ViewIs();
      FiberAt(f);
      FiberIs(f);
      ghost var v := View();
      WriteSaved(f, mutex, n);
      FiberWritten(v, queues, f);
      FiberIs(f);
      AllParts();
      ViewIs();
    }

    method WriteOwner(mutex: Mutex, owner: Fiber?, n: int)
      requires Pointed() && mutex in mutexes.Values && (owner == null || owner in fibers.Values)
      modifies mutex`owner, mutex`lockCount
      ensures Pointed() && mutex.owner == owner && mutex.lockCount == n
    {
      mutex.owner := owner;
      mutex.lockCount := n;
    }

    /** The value without the mutexes. */
    ghost function Unlocked(): Mem
      reads this`queues, this`timers, this`timerThread, fibers.Values`timer, fibers.Values`timerCallback
      reads fibers.Values`timeout
      reads fibers.Values`waitedEvent, fibers.Values`ioCanceled, fibers.Values`condMutex, fibers.Values`lockCount
      reads io.Values`isInEpoll, io.Values`epoll
    {
      Mem(Ids(Of(queues, ReadyQueue)), Ids(timers), timerThread, FibersView(), map[], CondsView(queues),
          IosView(queues))
    }

    lemma UnlockedView()
      ensures View() == Unlocked().(mutexes := MutexesView(queues))
    {
    }

    /** `owner` and `lock_count`. */
    method SetOwner(mutex: Mutex, owner: Fiber?, n: int)
      requires Valid() && mutex in mutexes.Values && (owner == null || owner in fibers.Values)
      modifies mutex`owner, mutex`lockCount
      ensures Valid() && mutex.owner == owner && mutex.lockCount == n
      ensures View() == old(View()).SetM(mutex.id, old(View()).M(mutex.id).(owner := OwnerView(owner), lockCount := n))
    {
      hide *;
      Parts();
      UnlockedView();
      MutexesOf();
      MutexAt(mutex);
      MutexIs(mutex);
      ghost var v := View();
      WriteOwner(mutex, owner, n);
      assert Unlocked() == old(Unlocked());
      MutexWritten(v.mutexes, mutex);
      MutexIs(mutex);
      MutexSet(v, mutex.id, MutexView(mutex));
      AllParts();
      UnlockedView();
    }

    lemma MutexSet(v: Mem, m: MutexId, mutex: MutexState)
      ensures v.SetM(m, mutex) == v.(mutexes := v.mutexes[m := mutex])
    {
    }

    lemma FdSet(v: Mem, fd: Fd, d: Descriptor)
      ensures v.SetD(fd, d) == v.(fds := v.fds[fd := d])
    {
    }

    lemma MutexIs(mutex: Mutex)
      ensures MutexView(mutex)
          == MutexState(OwnerView(mutex.owner), Ids(Of(queues, LockQueue(mutex.id))), mutex.lockCount,
                        mutex.isRecursive)
    {
    }

    lemma MutexesOf()
      requires Named()
      ensures MutexesView(queues).Keys == mutexes.Keys
      ensures forall n <- mutexes.Values :: n.id in mutexes && MutexesView(queues)[n.id] == MutexView(n)
    {
      hide Ids;
    }

    method WriteFd(d: Io, isInEpoll: bool, epoll: Epoll)
      requires Valid()
      modifies d`isInEpoll, d`epoll
      ensures Valid() && Unpolled() == old(Unpolled()) && d.isInEpoll == isInEpoll && d.epoll == epoll
    {
      hide *;
      Parts();
      d.isInEpoll := isInEpoll;
      d.epoll := epoll;
      AllParts();
    }

    /** The value without the descriptors. */
    ghost function Unpolled(): Mem
      reads this`queues, this`timers, this`timerThread, fibers.Values`timer, fibers.Values`timerCallback
      reads fibers.Values`timeout
      reads fibers.Values`waitedEvent, fibers.Values`ioCanceled, fibers.Values`condMutex, fibers.Values`lockCount
      reads mutexes.Values`owner, mutexes.Values`lockCount
    {
      Mem(Ids(Of(queues, ReadyQueue)), Ids(timers), timerThread, FibersView(), MutexesView(queues), CondsView(queues),
          map[])
    }

    lemma UnpolledView()
      ensures View() == Unpolled().(fds := IosView(queues))
    {
    }

    lemma FdChange(v: map<Fd, Descriptor>, d: Io, before: Descriptor, wasIn: bool, was: Epoll)
      requires Named() && d in io.Values && v.Keys == io.Keys && v[d.id] == before == WithEpoll(Base(d), wasIn, was)
      requires forall n <- io.Values :: n.id in io && (n != d ==> v[n.id] == FdView(n))
      ensures IosView(queues) == v[d.id := WithEpoll(before, d.isInEpoll, d.epoll)]
    {
      hide *;
      FdWritten(v, d);
      FdIs(d);
      Absorb(Base(d), wasIn, was, d.isInEpoll, d.epoll);
    }

    /** `is_in_epoll`, and the kernel's side. */
    method SetFd(d: Io, isInEpoll: bool, epoll: Epoll)
      requires Valid() && d in io.Values
      modifies d`isInEpoll, d`epoll
      ensures Valid() && d.isInEpoll == isInEpoll && d.epoll == epoll
      ensures
        View() == old(View()).SetD(d.id, WithEpoll(old(View()).D(d.id), isInEpoll, epoll))
    {
      hide *;
      Parts();
      UnpolledView();
      FdsOf();
      FdAt(d);
      FdIs(d);
      ghost var v := View();
      WriteFd(d, isInEpoll, epoll);
      FdChange(v.fds, d, v.D(d.id), old(d.isInEpoll), old(d.epoll));
      FdSet(v, d.id, WithEpoll(v.D(d.id), isInEpoll, epoll));
      UnpolledView();
    }

    /** The queues of a descriptor. */
    ghost function Base(d: Io): Descriptor
      reads this`queues
    {
      Descriptor(Ids(Of(queues, FdQueue(d.id, Read))), Ids(Of(queues, FdQueue(d.id, Write))), false, false, false,
                 false, false, None)
    }

    lemma FdIs(d: Io)
      ensures FdView(d) == WithEpoll(Base(d), d.isInEpoll, d.epoll)
    {
    }

    lemma Absorb(base: Descriptor, b: bool, e: Epoll, b': bool, e': Epoll)
      ensures WithEpoll(WithEpoll(base, b, e), b', e') == WithEpoll(base, b', e')
    {
    }

    lemma FdsOf()
      requires Named()
      ensures IosView(queues).Keys == io.Keys
      ensures forall n <- io.Values :: n.id in io && IosView(queues)[n.id] == FdView(n)
    {
      hide Ids;
    }

    // ---- Reading the heap through its value -------------------------------------------------

    lemma OwnerRead(mutex: Mutex)
      requires Valid() && mutex in mutexes.Values
      ensures View().M(mutex.id).owner == OwnerView(mutex.owner)
      ensures View().M(mutex.id).lockCount == mutex.lockCount && View().M(mutex.id).isRecursive == mutex.isRecursive
      ensures mutex.owner != null ==> mutex.owner in fibers.Values
    {
      hide Linked, Timed;
      MutexAt(mutex);
    }

    lemma FiberRead(f: Fiber)
      requires Valid() && f in fibers.Values
      ensures View().F(f.id).timer == f.timer && View().F(f.id).lockCount == f.lockCount
      ensures View().F(f.id).timeout == f.timeout
      ensures View().F(f.id).waitedEvent == f.waitedEvent
      ensures View().F(f.id).timerCallback == CallbackView(f.timerCallback)
      ensures View().F(f.id).condMutex == MutexName(f.condMutex)
      ensures f.condMutex != null ==> f.condMutex in mutexes.Values
      ensures KnownCallback(f.timerCallback)
    {
      hide Linked, Timed;
      FiberAt(f);
    }

    lemma CondRead(cond: Cond)
      requires Valid() && cond in conds.Values
      ensures cond.id in View().conds
      ensures forall n <- fibers.Values :: n in Of(queues, WaitQueue(cond.id)) ==> n.id in View().C(cond.id)
    {
      hide Linked, Timed, Pointed;
      QueueAt(WaitQueue(cond.id));
      forall n | n in Of(queues, WaitQueue(cond.id)) ensures n.id in View().C(cond.id) {
        var s := Of(queues, WaitQueue(cond.id));
        var i :| 0 <= i < |s| && s[i] == n;
        assert Ids(s)[i] == n.id;
      }
    }

    lemma FdRead(d: Io)
      requires Valid() && d in io.Values
      ensures View().D(d.id) == WithEpoll(View().D(d.id), d.isInEpoll, d.epoll)
      ensures View().D(d.id).pending == d.epoll.pending && View().D(d.id).registered == d.epoll.registered
      ensures d.readQueue == null <==> View().D(d.id).readQueue == []
      ensures d.writeQueue == null <==> View().D(d.id).writeQueue == []
    {
      hide Linked, Timed, Pointed;
      FdAt(d);
      HeadIsNull(FdHead(d, Read));
      HeadIsNull(FdHead(d, Write));
    }

    /** The head of the timer queue. */
    lemma TimerHeadRead()
      requires Valid()
      ensures timerQueue == null <==> View().timerQueue == []
      ensures timerQueue != null ==> timerQueue in fibers.Values && timerQueue.id == View().timerQueue[0]
      ensures timerQueue != null ==> Without(View().timerQueue, timerQueue.id) == View().timerQueue[1..]
    {
      hide Linked, Pointed, Distinct;
      TimersAt();
      TimedParts();
    }

    lemma KnownFd(fd: Fd)
      requires Valid() && fd in io
      ensures io[fd] in io.Values && io[fd].id == fd
    {
    }

    /** A descriptor is what its flags and its queues say. */
    lemma KnownIo(fd: Fd)
      requires Valid() && fd in io
      ensures fd in View().fds && View().SetD(fd, WithEpoll(View().D(fd), io[fd].isInEpoll, io[fd].epoll)) == View()
    {
      KnownFd(fd);
      FdRead(io[fd]);
      hide Valid;
      assert View().fds[fd := View().fds[fd]] == View().fds;
    }

    lemma StrayParts()
      requires Valid()
      ensures strays <= fibers.Values
    {
    }

    lemma SameName(f: Fiber, h: Fiber)
      requires Valid() && f in fibers.Values && h in fibers.Values
      ensures f.id == h.id ==> f == h
    {
    }

    lemma HeadRead(l: ListHead)
      requires Valid() && HasHead(l)
      ensures Load(l) == null <==> View().Queue(l.Id()) == []
      ensures Load(l) != null ==> Load(l) in fibers.Values && Load(l).id == View().Queue(l.Id())[0]
    {
      hide Timed, Pointed, Without, Distinct;
      Parts();
      HeadParts(l);
      QueueAt(l.Id());
      MembersHere(l.Id());
      DistinctQueue(l.Id());
    }

    lemma HeadIsNull(l: ListHead)
      requires Valid() && HasHead(l)
      ensures match l
              case LockHead(mutex) => mutex.lockQueue == null <==> View().M(mutex.id).lockQueue == []
              case WaitHead(cond) => cond.waitQueue == null <==> View().C(cond.id) == []
              case FdHead(d, Read) => d.readQueue == null <==> View().D(d.id).readQueue == []
              case FdHead(d, Write) => d.writeQueue == null <==> View().D(d.id).writeQueue == []
    {
      hide Linked, Timed, Pointed;
      HeadRead(l);
    }

    /** The test that every waker makes: a fiber with a positive timer leaves the timer queue. */
    method CancelTimer(f: Fiber)
      requires Valid() && f in fibers.Values && Regions.CancelTimer(View(), f.id).Ok?
      modifies this`timers, this`timerQueue, fibers.Values`timerNext, fibers.Values`timerPrev
      ensures Valid() && Regions.CancelTimer(old(View()), f.id) == Ok(View())
    {
      hide Valid, View;
      FiberRead(f);
      if f.timer > 0 {
        TimerRemove(f);
      }
    }

    /** melon_dlist_pop on a queue. */
    method Pop(l: ListHead) returns (f: Fiber?)
      requires Valid() && HasHead(l)
      modifies this`queues, this`places, fibers.Values`next, fibers.Values`prev
      modifies mutexes.Values`lockQueue, conds.Values`waitQueue, io.Values`readQueue, io.Values`writeQueue
      ensures Valid() && (f == null <==> old(View()).Queue(l.Id()) == [])
      ensures f == null ==> View() == old(View())
      ensures f != null ==> f in fibers.Values && Free(f) && f.id == old(View()).Queue(l.Id())[0]
      ensures f != null ==> View() == old(View()).SetQueue(l.Id(), old(View()).Queue(l.Id())[1..])
      ensures f != null ==> places == old(places) - {f}
      ensures f == null ==> places == old(places)
      ensures StraysKept(null)
    {
      hide Valid, View, Named, Linked;
      Parts();
      f := Load(l);
      HeadRead(l);
      if f != null {
        Dequeue(l, f);
      }
    }

    // ---- The local list of a signaller ------------------------------------------------------

    method TakeRing(cond: Cond) returns (list: Fiber?)
      requires Named() && Ringed() && cond in conds.Values && WaitQueue(cond.id) in queues
      modifies this`queues, cond`waitQueue
      ensures Ringed() && queues == old(queues)[WaitQueue(cond.id) := []]
      ensures Ring(list, old(queues)[WaitQueue(cond.id)], Plain)
    {
      hide Ring, TailRing;
      NoRing();
      assert RingFor(WaitQueue(cond.id), queues[WaitQueue(cond.id)]);
      list := cond.waitQueue;
      cond.waitQueue := null;
      queues := queues[WaitQueue(cond.id) := []];
    }

    method TakeMarks(cond: Cond) returns (list: Fiber?)
      requires Named() && Linked() && cond in conds.Values && WaitQueue(cond.id) in queues
      modifies this`queues, this`places, this`strays, cond`waitQueue
      ensures Linked() && queues == old(queues)[WaitQueue(cond.id) := []]
      ensures
        var rest := old(queues)[WaitQueue(cond.id)];
        && Ring(list, rest, Plain)
        && strays == old(strays) + Members(rest) && Members(rest) !! old(strays)
        && places.Keys == old(places).Keys - Members(rest)
    {
      hide Ring, Ringed, Marking;
      ghost var rest := queues[WaitQueue(cond.id)];
      MarkTake(queues, places, strays, WaitQueue(cond.id));
      list := TakeRing(cond);
      places := places - Members(rest);
      strays := strays + Members(rest);
    }

    /** melon_cond_signalnb takes the whole queue of a condition. */
    method TakeAll(cond: Cond) returns (list: Fiber?, ghost rest: seq<Fiber>)
      requires Valid() && cond in conds.Values
      modifies this`queues, this`places, this`strays, cond`waitQueue
      ensures Valid() && View() == old(View()).SetC(cond.id, []) && Ids(rest) == old(View()).C(cond.id)
      ensures rest == Of(old(queues), WaitQueue(cond.id)) && Ring(list, rest, Plain) && Members(rest) <= fibers.Values
      ensures strays == old(strays) + Members(rest) && Members(rest) !! old(strays)
      ensures places.Keys == old(places).Keys - Members(rest)
    {
      hide Valid, View, Named, Linked, Timed, Pointed, Ring, ViewWith;
      Parts();
      ViewIs();
      ghost var v, q, qs := View(), WaitQueue(cond.id), queues;
      HeadParts(WaitHead(cond));
      QueueAt(q);
      MembersHere(q);
      rest := queues[q];
      list := TakeMarks(cond);
      assert ViewWith(qs) == v;
      QueueView(qs, q, []);
      assert Ids([]) == [];
      AllParts();
      ViewIs();
    }

    lemma MarkUnstray(f: Fiber, s: set<Fiber>)
      requires Marking(queues, places, s)
      ensures Marking(queues, places, s - {f})
    {
    }

    method PopLoose(list: Fiber?, ghost rest: seq<Fiber>) returns (list': Fiber?, f: Fiber?)
      requires Linked() && Ring(list, rest, Plain) && Members(rest) <= strays
      modifies this`strays, fibers.Values`next, fibers.Values`prev
      ensures Linked() && f == Head(rest)
      ensures Ring(list', if rest == [] then [] else rest[1..], Plain)
      ensures f != null ==> Free(f) && strays == old(strays) - {f}
      ensures f == null ==> strays == old(strays)
    {
      hide Ring, TailRing, Marking, RingFor, HeadOf, HasQueue;
      StraysApart(queues, places, strays);
      list', f := Rings.Pop(list, Plain, rest);
      if f != null {
        assert f in Members(rest) && f !in places;
        MarkUnstray(f, strays);
        strays := strays - {f};
      }
    }

    /** The first fiber of the local list is no stray any more. */
    method PopStray(list: Fiber?, ghost rest: seq<Fiber>) returns (list': Fiber?, f: Fiber?)
      requires Valid() && Ring(list, rest, Plain) && Members(rest) <= strays
      modifies this`strays, fibers.Values`next, fibers.Values`prev
      ensures Valid() && View() == old(View()) && f == Head(rest)
      ensures Ring(list', if rest == [] then [] else rest[1..], Plain)
      ensures f != null ==> Free(f) && Members(rest[1..]) <= strays && strays == old(strays) - {f}
      ensures f == null ==> strays == old(strays)
    {
      hide Valid, View, Named, Linked, Timed, Pointed, Ring;
      Parts();
      RestApart(list, rest);
      list', f := PopLoose(list, rest);
      AllParts();
    }

    lemma RestApart(list: Fiber?, rest: seq<Fiber>)
      requires Ring(list, rest, Plain)
      ensures rest != [] ==> Members(rest[1..]) <= Members(rest) - {rest[0]}
    {
    }

    // ---- Dispatch, and the empty runtime ----------------------------------------------------

    method PopRing() returns (f: Fiber?)
      requires Named() && Ringed() && ReadyQueue in queues
      requires forall r :: r in queues && r != ReadyQueue ==> Members(queues[r]) !! Members(queues[ReadyQueue])
      modifies this`ready, this`queues, fibers.Values`next
      ensures f == Head(old(queues)[ReadyQueue]) && (f != null ==> f.next == null)
      ensures Ringed() && LinksKept(Members(old(queues)[ReadyQueue]))
      ensures queues == old(queues)[ReadyQueue := if f == null then [] else old(queues)[ReadyQueue][1..]]
    {
      hide Ring, TailRing;
      ghost var s := queues[ReadyQueue];
      assert RingFor(ReadyQueue, s) && Members(s) <= fibers.Values;
      var list;
      list, f := ListPop(ready, s);
      assert RingedBut(ReadyQueue);
      assert s != [] ==> Members(s[1..]) <= Members(s);
      StoreReady(list, if s == [] then [] else s[1..]);
    }

    method PopMark() returns (f: Fiber?)
      requires Named() && Linked() && ReadyQueue in queues
      modifies this`ready, this`queues, this`places, fibers.Values`next
      ensures f == Head(old(queues)[ReadyQueue]) && Linked() && (f != null ==> Free(f))
      ensures queues == old(queues)[ReadyQueue := if f == null then [] else old(queues)[ReadyQueue][1..]]
    {
      hide Ringed, Marking, Distinct;
      ReadyApart();
      ghost var s := queues[ReadyQueue];
      if s != [] {
        MarkLess(queues, places, strays, ReadyQueue, s[0], s[1..]);
      } else {
        assert queues[ReadyQueue := []] == queues;
      }
      f := PopRing();
      if f != null {
        assert f == s[0] && f in Members(s);
        places := places - {f};
      }
    }

    lemma ReadyApart()
      requires Linked() && ReadyQueue in queues
      ensures forall r :: r in queues && r != ReadyQueue ==> Members(queues[r]) !! Members(queues[ReadyQueue])
      ensures strays !! Members(queues[ReadyQueue]) && Members(queues[ReadyQueue]) <= places.Keys
      ensures queues[ReadyQueue] != [] ==> queues[ReadyQueue][0] in fibers.Values
      ensures queues[ReadyQueue] != [] ==>
                forall n :: n in queues[ReadyQueue][1..] <==> n in queues[ReadyQueue] && n != queues[ReadyQueue][0]
    {
      hide Ring;
      StraysApart(queues, places, strays);
      DistinctQueue(ReadyQueue);
      forall r, n | r in queues && r != ReadyQueue && n in queues[r] ensures n !in queues[ReadyQueue] {
        OnePlace(queues, places, strays, ReadyQueue, r, n);
      }
    }

    /** sched_next takes the first fiber of the ready queue. */
    method NextReady() returns (f: Fiber?)
      requires Valid()
      modifies this`ready, this`queues, this`places, fibers.Values`next
      ensures Valid() && (f == null <==> old(View()).ready == [])
      ensures f == null ==> View() == old(View())
      ensures f != null ==>
                && Free(f) && f.id == old(View()).ready[0]
                && View() == old(View()).(ready := old(View()).ready[1..])
    {
      hide Valid, View, Named, Linked, Timed, Pointed, ViewWith;
      Parts();
      ViewIs();
      HasReady();
      QueueAt(ReadyQueue);
      ghost var v, qs, s := View(), queues, queues[ReadyQueue];
      f := PopMark();
      assert ViewWith(qs) == v;
      QueueView(qs, ReadyQueue, if f == null then [] else s[1..]);
      assert s != [] ==> Ids(s)[1..] == Ids(s[1..]);
      AllParts();
      ViewIs();
    }

    /** The runtime before any call, on objects as their init functions leave them. */
    constructor (ghost fs: map<FiberId, Fiber>, ghost ms: map<MutexId, Mutex>, ghost cs: map<CondId, Cond>,
                 ios: map<Fd, Io>)
      requires forall i :: i in fs ==>
          fs[i].id == i && fs[i].next == null && fs[i].condMutex == null && fs[i].timerCallback == NoCb
      requires forall i :: i in ms ==> ms[i].id == i && ms[i].owner == null && ms[i].lockQueue == null
      requires forall i :: i in cs ==> cs[i].id == i && cs[i].waitQueue == null
      requires forall i :: i in ios ==> ios[i].id == i && ios[i].readQueue == null && ios[i].writeQueue == null
      ensures Valid() && fibers == fs && mutexes == ms && conds == cs && io == ios && strays == {}
      ensures View().ready == [] && View().timerQueue == [] && View().timerThread == Awake
      ensures forall q :: View().Queue(q) == []
    {
      fibers, mutexes, conds, io := fs, ms, cs, ios;
      ready, timerQueue, timerThread := null, null, Awake;
      queues := map q | q in QueuesOf(ms.Keys, cs.Keys, ios.Keys) :: [];
      places, timers, strays := map[], [], {};
      new;
      hide Valid, View, QueuesOf;
      InQueuesOf(ms.Keys, cs.Keys, ios.Keys);
      assert Named() && Untouched();
      hide Named, Untouched, HasQueue, HeadOf;
      Empty();
    }

    /** Objects that are linked nowhere. */
    ghost predicate Untouched()
      reads this, fibers.Values, mutexes.Values, conds.Values, io.Values
    {
      && ready == null && timerQueue == null && places == map[] && timers == [] && strays == {}
      && (forall q :: q in queues <==> HasQueue(q))
      && (forall q :: q in queues ==> queues[q] == [] && HeadOf(q) == null)
      && (forall n <- fibers.Values :: n.next == null && n.condMutex == null && n.timerCallback == NoCb)
      && (forall m <- mutexes.Values :: m.owner == null)
    }

    lemma EmptyLinked()
      requires Named() && Untouched()
      ensures Linked() && Pointed()
    {
      NoRing();
      NoTimers();
      hide Ring, TailRing, Named;
    }

    lemma EmptyTimed()
      requires Untouched()
      ensures Timed() && Ids([]) == []
    {
      NoTimers();
      hide Ring;
    }

    lemma EmptyQueue(q: QueueId)
      requires Untouched()
      ensures Of(queues, q) == []
    {
    }

    lemma Empty()
      requires Named() && Untouched()
      ensures Valid() && View().timerQueue == [] && View().timerThread == timerThread
      ensures View().ready == [] && forall q :: View().Queue(q) == []
    {
      EmptyLinked();
      EmptyTimed();
      assert timers == [];
      hide Linked, Pointed, Timed, Ids, Untouched;
      forall q: QueueId ensures View().Queue(q) == [] {
        EmptyQueue(q);
        hide Of;
      }
      EmptyQueue(ReadyQueue);
    }
  }

  lemma NoTimers()
    ensures Ring(null, [], TimerLinks) && TailRing(null, [])
  {
  }

  lemma NoRing()
    ensures Ring(null, [], Plain)
  {
  }

  lemma SingleListed(f: Fiber)
    requires f.next == null
    ensures Listed(f, [f])
  {
  }
}
