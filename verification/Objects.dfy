/** The structs of src/private.h as objects, linked to each other by pointers. */
module Objects {
  import opened Memory

  /** The two pairs of links of a fiber: `next`/`prev` and `timer_next`/`timer_prev`. */
  datatype Prefix = Plain | TimerLinks

  /** `timer_cb` and the pointers in its context. */
  datatype Callback =
    | NoCb
    | UsleepCb
    | TimedlockCb(mutex: Mutex)
    | TimedwaitCb(cond: Cond)
    | WaitforCb(fd: Fd)

  class Fiber {
    ghost const id: FiberId
    var next: Fiber?
    var prev: Fiber?
    var timerNext: Fiber?
    var timerPrev: Fiber?
    var timer: int
    var timerCallback: Callback
    var timeout: bool
    var waitedEvent: Events
    var ioCanceled: bool
    var condMutex: Mutex?
    var lockCount: int

    function Next(p: Prefix): Fiber?
      reads (if p.Plain? then {this} else {})`next, (if p.Plain? then {} else {this})`timerNext
    {
      if p.Plain? then next else timerNext
    }

    function Prev(p: Prefix): Fiber?
      reads (if p.Plain? then {this} else {})`prev, (if p.Plain? then {} else {this})`timerPrev
    {
      if p.Plain? then prev else timerPrev
    }

    method SetNext(p: Prefix, f: Fiber?)
      modifies (if p.Plain? then {this} else {})`next, (if p.Plain? then {} else {this})`timerNext
      ensures Next(p) == f
    {
      if p.Plain? { next := f; } else { timerNext := f; }
    }

    method SetPrev(p: Prefix, f: Fiber?)
      modifies (if p.Plain? then {this} else {})`prev, (if p.Plain? then {} else {this})`timerPrev
      ensures Prev(p) == f
    {
      if p.Plain? { prev := f; } else { timerPrev := f; }
    }
  }

  class Mutex {
    ghost const id: MutexId
    var owner: Fiber?
    var lockQueue: Fiber?
    var lockCount: int
    const isRecursive: bool
  }

  class Cond {
    ghost const id: CondId
    var waitQueue: Fiber?
  }

  /** The kernel's side of a descriptor. */
  datatype Epoll = Epoll(registered: bool, armed: bool, armedRead: bool, armedWrite: bool, pending: Option<EpollEvent>)

  /** melon_fd, and what epoll knows about the descriptor. */
  class Io {
    ghost const id: Fd
    var readQueue: Fiber?
    var writeQueue: Fiber?
    var isInEpoll: bool
    var epoll: Epoll
  }
}
