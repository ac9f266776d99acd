/** The shared state of the runtime (src/private.h): fibers, mutexes, conditions, file
    descriptors and the global `g_melon`, as values.  A queue is the sequence of fibers that
    its intrusive ring links, in order from the head; module Rings proves that the ring
    operations of src/dlist.h act on that sequence as the functions used here say. */
module Memory {

  datatype Option<+T> = None | Some(value: T)

  /** What stops the program: a failed `assert`, or unlinking a fiber from a ring that does
      not contain it (a null dereference or a corrupted ring in C). */
  datatype Fault = AssertFailed | BadUnlink

  datatype Result<+T> = Ok(value: T) | Failed(fault: Fault) {
    predicate IsFailure() { Failed? }

    function PropagateFailure<U>(): Result<U>
      requires Failed?
    {
      Failed(fault)
    }

    function Extract(): T
      requires Ok?
    {
      value
    }
  }

  type FiberId = nat
  type MutexId = nat
  type CondId = nat
  type Fd = nat

  datatype Direction = Read | Write

  /** `waited_event`: a set of MelonEvent bits, as far as the blocking code reads them. */
  datatype Events = Events(read: bool, write: bool)

  const NO_EVENT := Events(false, false)

  /** `timer_cb` together with the fields of `timer_ctx` that do not change. */
  datatype TimerCallback =
    | NoCallback
    | UsleepCallback
    | TimedlockCallback(mutex: MutexId)
    | TimedwaitCallback(cond: CondId)
    | WaitforCallback(fd: Fd)

  /** The fields of melon_fiber; `timeout` is the flag of the fiber's callback context. */
  datatype FiberState = FiberState(
    timer: int,
    timerCallback: TimerCallback,
    timeout: bool,
    waitedEvent: Events,
    ioCanceled: bool,
    condMutex: Option<MutexId>,
    lockCount: int)

  datatype MutexState = MutexState(owner: Option<FiberId>, lockQueue: seq<FiberId>, lockCount: int, isRecursive: bool)

  /** An epoll event: `hup` stands for EPOLLRDHUP, EPOLLERR or EPOLLHUP. */
  datatype EpollEvent = EpollEvent(hup: bool, readable: bool, writable: bool)

  /** melon_fd, followed by the kernel's side: the one-shot interest of the descriptor and the
      event that epoll_wait has returned and the reactor has not handled yet. */
  datatype Descriptor = Descriptor(
    readQueue: seq<FiberId>,
    writeQueue: seq<FiberId>,
    isInEpoll: bool,
    registered: bool,
    armed: bool,
    armedRead: bool,
    armedWrite: bool,
    pending: Option<EpollEvent>)
  {
    function Queue(dir: Direction): seq<FiberId> {
      if dir.Read? then readQueue else writeQueue
    }

    function WithQueue(dir: Direction, q: seq<FiberId>): Descriptor {
      if dir.Read? then this.(readQueue := q) else this.(writeQueue := q)
    }

    predicate Armed(dir: Direction) {
      if dir.Read? then armedRead else armedWrite
    }
  }

  datatype Timespec = Timespec(sec: int, nsec: int)

  /** The timer thread: running (or signalled), or blocked in pthread_cond_(timed)wait. */
  datatype TimerThread = Awake | Asleep(deadline: Option<Timespec>)

  /** The four kinds of queue that link fibers through `next` and `prev`. */
  datatype QueueId = ReadyQueue | LockQueue(mutex: MutexId) | WaitQueue(cond: CondId) | FdQueue(fd: Fd, dir: Direction)

  const FRESH_FIBER := FiberState(0, NoCallback, false, NO_EVENT, false, None, 0)
  const FRESH_MUTEX := MutexState(None, [], 0, false)
  const FRESH_DESCRIPTOR := Descriptor([], [], false, false, false, false, false, None)

  /** An object that was never touched has the value its init function gives it. */
  datatype Mem = Mem(
    ready: seq<FiberId>,
    timerQueue: seq<FiberId>,
    timerThread: TimerThread,
    fibers: map<FiberId, FiberState>,
    mutexes: map<MutexId, MutexState>,
    conds: map<CondId, seq<FiberId>>,
    fds: map<Fd, Descriptor>)
  {
    function F(f: FiberId): FiberState {
      if f in fibers then fibers[f] else FRESH_FIBER
    }

    function M(m: MutexId): MutexState {
      if m in mutexes then mutexes[m] else FRESH_MUTEX
    }

    function C(c: CondId): seq<FiberId> {
      if c in conds then conds[c] else []
    }

    function D(fd: Fd): Descriptor {
      if fd in fds then fds[fd] else FRESH_DESCRIPTOR
    }

    function Queue(q: QueueId): seq<FiberId> {
      match q
      case ReadyQueue => ready
      case LockQueue(m) => M(m).lockQueue
      case WaitQueue(c) => C(c)
      case FdQueue(fd, dir) => D(fd).Queue(dir)
    }

    function SetF(f: FiberId, fiber: FiberState): Mem {
      this.(fibers := fibers[f := fiber])
    }

    function SetM(m: MutexId, mutex: MutexState): Mem {
      this.(mutexes := mutexes[m := mutex])
    }

    function SetC(c: CondId, q: seq<FiberId>): Mem {
      this.(conds := conds[c := q])
    }

    function SetD(fd: Fd, d: Descriptor): Mem {
      this.(fds := fds[fd := d])
    }

    function SetQueue(q: QueueId, s: seq<FiberId>): Mem {
      match q
      case ReadyQueue => this.(ready := s)
      case LockQueue(m) => SetM(m, M(m).(lockQueue := s))
      case WaitQueue(c) => SetC(c, s)
      case FdQueue(fd, dir) => SetD(fd, D(fd).WithQueue(dir, s))
    }

    /** The timers of the timer queue, head first. */
    function TimerKeys(): (keys: seq<int>)
      ensures |keys| == |timerQueue|
    {
      Keys(fibers, timerQueue)
    }
  }

  /** Of two writes to the same object the second counts. */
  lemma SetTwice(mem: Mem)
    ensures forall f: FiberId, a, b :: mem.SetF(f, a).SetF(f, b) == mem.SetF(f, b)
    ensures forall m: MutexId, a, b :: mem.SetM(m, a).SetM(m, b) == mem.SetM(m, b)
    ensures forall fd: Fd, a, b :: mem.SetD(fd, a).SetD(fd, b) == mem.SetD(fd, b)
  {
    forall f: FiberId, a, b ensures mem.SetF(f, a).SetF(f, b) == mem.SetF(f, b) {
      assert mem.fibers[f := a][f := b] == mem.fibers[f := b];
    }
    forall m: MutexId, a, b ensures mem.SetM(m, a).SetM(m, b) == mem.SetM(m, b) {
      assert mem.mutexes[m := a][m := b] == mem.mutexes[m := b];
    }
    forall fd: Fd, a, b ensures mem.SetD(fd, a).SetD(fd, b) == mem.SetD(fd, b) {
      assert mem.fds[fd := a][fd := b] == mem.fds[fd := b];
    }
  }

  function Keys(fibers: map<FiberId, FiberState>, q: seq<FiberId>): (keys: seq<int>)
    ensures |keys| == |q|
    ensures forall i :: 0 <= i < |q| ==> keys[i] == (if q[i] in fibers then fibers[q[i]].timer else 0)
  {
    seq(|q|, i requires 0 <= i < |q| => if q[i] in fibers then fibers[q[i]].timer else 0)
  }

  // ---- Sequences without repetition -------------------------------------------------------

  ghost predicate Distinct<T>(s: seq<T>) {
    forall i, j :: 0 <= i < j < |s| ==> s[i] != s[j]
  }

  /** The sequence without the first occurrence of `x`. */
  function Without<T(==)>(s: seq<T>, x: T): seq<T> {
    if s == [] then []
    else if s[0] == x then s[1..]
    else [s[0]] + Without(s[1..], x)
  }

  lemma {:induction false} WithoutFacts<T>(s: seq<T>, x: T)
    requires Distinct(s)
    ensures Distinct(Without(s, x))
    ensures forall y :: y in Without(s, x) <==> y in s && y != x
  {
    if s == [] {
    } else {
      assert s == [s[0]] + s[1..];
      assert s[0] !in s[1..];
      if s[0] != x {
        WithoutFacts(s[1..], x);
        assert s[0] !in Without(s[1..], x);
      }
    }
  }

  lemma {:induction false} WithoutAt<T>(s: seq<T>, i: nat)
    requires Distinct(s) && i < |s|
    ensures Without(s, s[i]) == s[..i] + s[i + 1..]
  {
    if i > 0 {
      WithoutAt(s[1..], i - 1);
      assert s[1..][i - 1] == s[i];
      assert [s[0]] + (s[1..][..i - 1] + s[1..][i..]) == s[..i] + s[i + 1..];
    }
  }

  // ---- Sorted insertion -------------------------------------------------------------------

  ghost predicate Sorted(keys: seq<int>) {
    forall i, j :: 0 <= i < j < |keys| ==> keys[i] <= keys[j]
  }

  /** The first position whose key is at least `k`. */
  function InsertPos(keys: seq<int>, k: int): (p: nat)
    ensures p <= |keys|
    ensures forall i :: 0 <= i < p ==> keys[i] < k
    ensures p < |keys| ==> k <= keys[p]
  {
    if keys == [] || k <= keys[0] then 0 else 1 + InsertPos(keys[1..], k)
  }

  function InsertAt<T>(s: seq<T>, p: nat, x: T): (r: seq<T>)
    requires p <= |s|
    ensures |r| == |s| + 1
    ensures forall i :: 0 <= i < |r| ==> r[i] == (if i < p then s[i] else if i == p then x else s[i - 1])
  {
    s[..p] + [x] + s[p..]
  }

  lemma InsertAtFacts<T>(s: seq<T>, p: nat, x: T)
    requires p <= |s| && Distinct(s) && x !in s
    ensures Distinct(InsertAt(s, p, x))
    ensures forall y :: y in InsertAt(s, p, x) <==> y == x || y in s
  {
    assert s == s[..p] + s[p..];
  }

  // ---- Events -------------------------------------------------------------------------------

  function First(q: seq<FiberId>): seq<FiberId> {
    if q == [] then [] else [q[0]]
  }

  /** Whom an event wakes in one direction: everybody on a hang-up, one fiber if it says so. */
  function Awaited(q: seq<FiberId>, hup: bool, happened: bool): seq<FiberId> {
    if hup then q else if happened then First(q) else []
  }

  // ---- Clocks and integer widths ----------------------------------------------------------

  const TWO_63: int := 0x8000_0000_0000_0000
  const TWO_64: int := 0x1_0000_0000_0000_0000
  const NSEC_PER_SEC: int := 1_000_000_000

  /** A uint64_t stored in an int64_t. */
  function ToInt64(t: nat): int {
    var u := t % TWO_64;
    if u < TWO_63 then u else u - TWO_64
  }

  /** C division and remainder truncate toward zero. */
  function CDiv(a: int, b: int): int
    requires b > 0
  {
    if a >= 0 then a / b else -((-a) / b)
  }

  function CMod(a: int, b: int): int
    requires b > 0
  {
    a - CDiv(a, b) * b
  }

  /** The deadline the timer thread builds from the head's timer. */
  function DeadlineOf(timer: int): Timespec {
    Timespec(CDiv(CDiv(CDiv(timer, 1000), 1000), 1000), CMod(timer, NSEC_PER_SEC))
  }

  function Instant(ts: Timespec): int {
    ts.sec * NSEC_PER_SEC + ts.nsec
  }

  /** The split is exact, and for the non-negative timers that pthread accepts it is normalized. */
  lemma DeadlineIsExact(timer: int)
    ensures Instant(DeadlineOf(timer)) == timer
    ensures timer >= 0 ==> 0 <= DeadlineOf(timer).nsec < NSEC_PER_SEC
  {
    if timer >= 0 {
      assert timer / 1000 / 1000 / 1000 == timer / NSEC_PER_SEC;
    } else {
      assert (-timer) / 1000 / 1000 / 1000 == (-timer) / NSEC_PER_SEC;
    }
  }
}
