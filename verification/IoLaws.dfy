/** What the reactor, melon_close, melon_cancelio and melon_io_manager_waitfor do to the fibers that wait
    for a descriptor: who is woken, by what, in which order, and which interest epoll is left with. */
module IoLaws {
  import opened Memory
  import opened Machine
  import opened Invariant
  import Regions
  import PreserveIo

  // ---- Waking the first fibers of one queue -------------------------------------------------

  /** The fibers of `q` have stopped waiting for a descriptor, for this reason; nobody else has moved. */
  ghost predicate Moved(w: World, q: seq<FiberId>, outcome: IoOutcome, w': World) {
    && (forall x :: x in q ==> w.Ctl(x).Polling? && w'.Ctl(x) == Runnable(FromWaitfor(w.Ctl(x).timed, outcome)))
    && (forall x: FiberId :: x !in q ==> w'.Ctl(x) == w.Ctl(x) && w'.mem.F(x) == w.mem.F(x))
  }

  /** All that is not about descriptors, fibers and their queues. */
  ghost predicate RestKept(w: World, w': World) {
    && w'.mem.mutexes == w.mem.mutexes && w'.mem.conds == w.mem.conds
    && w'.mem.timerThread == w.mem.timerThread && w'.ret == w.ret && w'.big == w.big
  }

  /** The first `k` fibers of a queue of `fd` are ready, in order, and nothing else has changed but their
      own fields and the timer queue. */
  ghost predicate Woke(w: World, fd: Fd, dir: Direction, k: nat, outcome: IoOutcome, w': World) {
    var q := w.mem.D(fd).Queue(dir);
    && k <= |q|
    && w'.mem.D(fd) == w.mem.D(fd).WithQueue(dir, q[k..])
    && (forall e: Fd :: e != fd ==> w'.mem.D(e) == w.mem.D(e))
    && w'.mem.ready == w.mem.ready + q[..k]
    && RestKept(w, w') && Moved(w, q[..k], outcome, w')
  }

  function WokenBy(cancel: bool): IoOutcome {
    if cancel then Canceled else GotEvent
  }

  lemma PopWakes(w: World, fd: Fd, dir: Direction, cancel: bool, w': World)
    requires Inv(w) && PopOne(w, fd, dir, cancel) == Ok(w')
    ensures Woke(w, fd, dir, if w.mem.D(fd).Queue(dir) == [] then 0 else 1, WokenBy(cancel), w')
  {
    var q := w.mem.D(fd).Queue(dir);
    if q != [] {
      PreserveIo.PopHead(w, fd, dir, q[0]);
      hide Inv;
      PreserveIo.PopMemory(w, fd, dir, cancel, q[0], w');
      assert q[..1] == [q[0]];
      PopRest(w, fd, dir, cancel, w');
      hide PopOne;
    }
  }

  lemma PopRest(w: World, fd: Fd, dir: Direction, cancel: bool, w': World)
    requires PopOne(w, fd, dir, cancel) == Ok(w') && w.mem.D(fd).Queue(dir) != []
    requires w.Ctl(w.mem.D(fd).Queue(dir)[0]).Polling?
    ensures
      var x := w.mem.D(fd).Queue(dir)[0];
      && w'.mem.timerThread == w.mem.timerThread && w'.ret == w.ret
      && w'.Ctl(x) == Runnable(FromWaitfor(w.Ctl(x).timed, WokenBy(cancel)))
      && forall y: FiberId :: y != x ==> w'.Ctl(y) == w.Ctl(y) && w'.mem.F(y) == w.mem.F(y)
  {
  }

  lemma MovedTwice(w: World, p: seq<FiberId>, outcome: IoOutcome, w1: World, q: seq<FiberId>, w': World)
    requires Moved(w, p, outcome, w1) && Moved(w1, q, outcome, w')
    ensures Moved(w, p + q, outcome, w')
  {
    forall x | x in p ensures x !in q { assert w1.Ctl(x).Runnable?; }
  }

  lemma PrefixTwice(q: seq<FiberId>, k: nat, l: nat)
    requires k + l <= |q|
    ensures q[k..][l..] == q[k + l..] && q[..k] + q[k..][..l] == q[..k + l]
  {
  }

  lemma WokeTwice(w: World, fd: Fd, dir: Direction, k: nat, outcome: IoOutcome, w1: World, l: nat, w': World)
    requires Woke(w, fd, dir, k, outcome, w1) && Woke(w1, fd, dir, l, outcome, w')
    ensures Woke(w, fd, dir, k + l, outcome, w')
  {
    hide Moved, Mem.D, World.Ctl, Mem.F;
    var q := w.mem.D(fd).Queue(dir);
    assert w1.mem.D(fd).Queue(dir) == q[k..];
    PrefixTwice(q, k, l);
    MovedTwice(w, q[..k], outcome, w1, q[k..][..l], w');
    assert w'.mem.ready == w.mem.ready + q[..k + l];
  }

  lemma {:induction false} FlushWakes(w: World, fd: Fd, dir: Direction, cancel: bool, w': World)
    requires Inv(w) && FlushOne(w, fd, dir, cancel) == Ok(w')
    ensures Woke(w, fd, dir, |w.mem.D(fd).Queue(dir)|, WokenBy(cancel), w')
    decreases |w.mem.D(fd).Queue(dir)|
  {
    hide Inv, Woke, PopOne;
    if w.mem.D(fd).Queue(dir) != [] {
      var w1 := PopOne(w, fd, dir, cancel).value;
      PopWakes(w, fd, dir, cancel, w1);
      PreserveIo.PopKeeps(w, fd, dir, cancel, w1);
      FlushWakes(w1, fd, dir, cancel, w');
      WokeTwice(w, fd, dir, 1, WokenBy(cancel), w1, |w1.mem.D(fd).Queue(dir)|, w');
    } else {
      NobodyWoken(w, fd, dir, WokenBy(cancel));
    }
  }

  lemma NobodyWoken(w: World, fd: Fd, dir: Direction, outcome: IoOutcome)
    ensures Woke(w, fd, dir, 0, outcome, w)
  {
  }

  // ---- Both queues --------------------------------------------------------------------------

  /** `readers` and `writers` were first in the queues of `fd`: they are ready, the readers in front, and
      have left their queues; the other descriptors and everybody else are as they were. */
  ghost predicate Released(
    w: World, fd: Fd, readers: seq<FiberId>, writers: seq<FiberId>, outcome: IoOutcome, w': World)
  {
    var d, d' := w.mem.D(fd), w'.mem.D(fd);
    && d.readQueue == readers + d'.readQueue && d.writeQueue == writers + d'.writeQueue
    && w'.mem.ready == w.mem.ready + readers + writers
    && (forall e: Fd :: e != fd ==> w'.mem.D(e) == w.mem.D(e))
    && RestKept(w, w') && Moved(w, readers + writers, outcome, w')
  }

  /** The two halves of a release. */
  lemma ReadThenWrite(w: World, fd: Fd, k: nat, outcome: IoOutcome, w1: World, l: nat, w': World)
    requires Woke(w, fd, Read, k, outcome, w1) && Woke(w1, fd, Write, l, outcome, w')
    ensures k <= |w.mem.D(fd).readQueue| && l <= |w.mem.D(fd).writeQueue|
    ensures Released(w, fd, w.mem.D(fd).readQueue[..k], w.mem.D(fd).writeQueue[..l], outcome, w')
    ensures w'.mem.D(fd) == w.mem.D(fd).(readQueue := w'.mem.D(fd).readQueue, writeQueue := w'.mem.D(fd).writeQueue)
  {
    hide Moved;
    MovedTwice(w, w.mem.D(fd).readQueue[..k], outcome, w1, w.mem.D(fd).writeQueue[..l], w');
  }

  lemma FlushBothReleases(w: World, fd: Fd, cancel: bool, w': World)
    requires Inv(w) && FlushBoth(w, fd, cancel) == Ok(w')
    ensures Released(w, fd, w.mem.D(fd).readQueue, w.mem.D(fd).writeQueue, WokenBy(cancel), w')
    ensures w'.mem.D(fd) == w.mem.D(fd).(readQueue := [], writeQueue := [])
  {
    hide Inv, FlushOne, Released, Moved;
    var w1 := FlushOne(w, fd, Read, cancel).value;
    FlushWakes(w, fd, Read, cancel, w1);
    PreserveIo.FlushKeeps(w, fd, Read, cancel, w1);
    FlushWakes(w1, fd, Write, cancel, w');
    var d := w.mem.D(fd);
    ReadThenWrite(w, fd, |d.readQueue|, WokenBy(cancel), w1, |d.writeQueue|, w');
    assert d.readQueue[..|d.readQueue|] == d.readQueue && d.writeQueue[..|d.writeQueue|] == d.writeQueue;
  }

  // ---- The reactor --------------------------------------------------------------------------

  /** epoll waits for exactly what somebody still waits for, or is left alone if nobody does. */
  ghost predicate Rearmed(d: Descriptor, d': Descriptor) {
    && d'.pending == None && d'.isInEpoll == d.isInEpoll && d'.registered == d.registered
    && (if d.registered && (d'.readQueue != [] || d'.writeQueue != []) then
          d'.armed && (d'.armedRead <==> d'.readQueue != []) && (d'.armedWrite <==> d'.writeQueue != [])
        else
          d'.armed == d.armed && d'.armedRead == d.armedRead && d'.armedWrite == d.armedWrite)
  }

  lemma PopNothing(w: World, fd: Fd, dir: Direction)
    requires w.mem.D(fd).Queue(dir) == []
    ensures PopOne(w, fd, dir, false) == Ok(w)
  {
  }

  lemma PopFirst(w: World, fd: Fd, dir: Direction, happened: bool, w': World)
    requires Inv(w) && (if happened then PopOne(w, fd, dir, false) == Ok(w') else w' == w)
    ensures Inv(w')
    ensures
      var q := w.mem.D(fd).Queue(dir);
      var k := if happened && q != [] then 1 else 0;
      Woke(w, fd, dir, k, GotEvent, w') && q[..k] == Awaited(q, false, happened)
  {
    hide Inv, Woke, PopOne;
    if happened {
      PopWakes(w, fd, dir, false, w');
      PreserveIo.PopKeeps(w, fd, dir, false, w');
    } else {
      NobodyWoken(w, fd, dir, GotEvent);
    }
  }

  /** What the reactor has done before it re-arms. */
  lemma EventReleases(w: World, fd: Fd, event: EpollEvent, w1: World, w2: World, w3: World)
    requires Inv(w) && (if event.hup then FlushBoth(w, fd, false) == Ok(w1) else w1 == w)
    requires if event.readable then PopOne(w1, fd, Read, false) == Ok(w2) else w2 == w1
    requires if event.writable then PopOne(w2, fd, Write, false) == Ok(w3) else w3 == w2
    ensures
      var d := w.mem.D(fd);
      Released(w, fd, Awaited(d.readQueue, event.hup, event.readable),
               Awaited(d.writeQueue, event.hup, event.writable), GotEvent, w3)
    ensures w3.mem.D(fd) == w.mem.D(fd).(readQueue := w3.mem.D(fd).readQueue, writeQueue := w3.mem.D(fd).writeQueue)
  {
    hide Inv, FlushBoth, PopOne, Woke, Released;
    var d := w.mem.D(fd);
    if event.hup {
      FlushBothReleases(w, fd, false, w1);
      PopNothing(w1, fd, Read);
      PopNothing(w1, fd, Write);
    } else {
      PopFirst(w1, fd, Read, event.readable, w2);
      PopFirst(w2, fd, Write, event.writable, w3);
      var k := if event.readable && d.readQueue != [] then 1 else 0;
      assert w2.mem.D(fd).writeQueue == d.writeQueue by { WokeWriters(w, fd, k, w2); }
      ReadThenWrite(w, fd, k, GotEvent, w2, if event.writable && d.writeQueue != [] then 1 else 0, w3);
    }
  }

  lemma WokeWriters(w: World, fd: Fd, k: nat, w': World)
    requires Woke(w, fd, Read, k, GotEvent, w')
    ensures w'.mem.D(fd).writeQueue == w.mem.D(fd).writeQueue
  {
  }

  /** A handled event wakes, of the fibers that wait for the descriptor, everybody on a hang-up, and
      otherwise the first reader exactly if it is readable and the first writer exactly if it is
      writable, in that order; each of them was ended by the event.  Then epoll waits for exactly what
      is still awaited. */
  lemma HandleExactly(w: World, fd: Fd, w': World)
    requires Inv(w) && Next(w, Handle(fd), w')
    ensures
      var d, event := w.mem.D(fd), w.mem.D(fd).pending.value;
      Released(w, fd, Awaited(d.readQueue, event.hup, event.readable),
               Awaited(d.writeQueue, event.hup, event.writable), GotEvent, w')
    ensures Rearmed(w.mem.D(fd), w'.mem.D(fd))
  {
    hide Inv, Next, FlushBoth, PopOne, Released, Regions.Rearm;
    var w1, w2, w3 := HandleParts(w, fd, w');
    EventReleases(w, fd, w.mem.D(fd).pending.value, w1, w2, w3);
    RearmKeepsQueues(w, fd, w3, w');
  }

  lemma HandleParts(w: World, fd: Fd, w': World) returns (w1: World, w2: World, w3: World)
    requires Next(w, Handle(fd), w')
    ensures w.mem.D(fd).pending.Some?
    ensures
      var event := w.mem.D(fd).pending.value;
      && (if event.hup then FlushBoth(w, fd, false) == Ok(w1) else w1 == w)
      && (if event.readable then PopOne(w1, fd, Read, false) == Ok(w2) else w2 == w1)
      && (if event.writable then PopOne(w2, fd, Write, false) == Ok(w3) else w3 == w2)
    ensures w' == w3.(mem := Regions.Rearm(w3.mem, fd))
  {
    hide FlushBoth, PopOne, Regions.Rearm;
    var event := w.mem.D(fd).pending.value;
    w1 := if event.hup then FlushBoth(w, fd, false).value else w;
    w2 := if event.readable then PopOne(w1, fd, Read, false).value else w1;
    w3 := if event.writable then PopOne(w2, fd, Write, false).value else w2;
  }

  lemma RearmKeepsQueues(w: World, fd: Fd, w3: World, w': World)
    requires w' == w3.(mem := Regions.Rearm(w3.mem, fd))
    ensures forall readers, writers ::
              Released(w, fd, readers, writers, GotEvent, w3) ==> Released(w, fd, readers, writers, GotEvent, w')
    ensures Rearmed(w3.mem.D(fd), w'.mem.D(fd))
  {
  }

  // ---- melon_close, melon_cancelio ----------------------------------------------------------

  /** melon_cancelio wakes everybody who waits for the descriptor, readers first, and every wait returns
      -ECANCELED; the interest is left as it is. */
  lemma CancelioExactly(w: World, f: FiberId, fd: Fd, w': World)
    requires Inv(w) && Next(w, Cancelio(f, fd), w')
    ensures Released(w, fd, w.mem.D(fd).readQueue, w.mem.D(fd).writeQueue, Canceled, w')
    ensures w'.mem.D(fd) == w.mem.D(fd).(readQueue := [], writeQueue := [])
  {
    hide Inv, FlushBoth, Released;
    FlushBothReleases(w, fd, true, w');
  }

  /** So does melon_close; the descriptor is no longer taken to be in epoll, and epoll has forgotten it
      exactly if close(2) succeeds. */
  lemma CloseExactly(w: World, f: FiberId, fd: Fd, closes: bool, w': World)
    requires Inv(w) && Next(w, Close(f, fd, closes), w')
    ensures Released(w, fd, w.mem.D(fd).readQueue, w.mem.D(fd).writeQueue, Canceled, w')
    ensures
      var d, d' := w.mem.D(fd), w'.mem.D(fd);
      && d'.readQueue == [] && d'.writeQueue == [] && !d'.isInEpoll && d'.pending == d.pending
      && (if closes then !d'.registered && !d'.armed
          else d'.registered == d.registered && d'.armed == d.armed
               && d'.armedRead == d.armedRead && d'.armedWrite == d.armedWrite)
  {
    hide Inv, FlushBoth, Released;
    var w1 := FlushBoth(w, fd, true).value;
    FlushBothReleases(w, fd, true, w1);
    ForgetKeepsQueues(w, fd, closes, w1, w');
  }

  lemma ForgetKeepsQueues(w: World, fd: Fd, closes: bool, w1: World, w': World)
    requires w' == w1.(mem := Regions.Forget(w1.mem, fd, closes))
    ensures forall readers, writers ::
              Released(w, fd, readers, writers, Canceled, w1) ==> Released(w, fd, readers, writers, Canceled, w')
  {
  }

  // ---- melon_io_manager_waitfor -------------------------------------------------------------

  /** A wait stands at the end of the queue of its direction, with its deadline in the timer queue if it
      has one, and epoll waits for exactly what is asked for or was awaited before. */
  lemma WaitforExactly(w: World, f: FiberId, fd: Fd, events: Events, t: int, w': World)
    requires Next(w, Waitfor(f, fd, events, t), w')
    ensures events.read || events.write
    ensures
      var d, d' := w.mem.D(fd), w'.mem.D(fd);
      && d'.readQueue == d.readQueue + (if events.read then [f] else [])
      && d'.writeQueue == d.writeQueue + (if events.read then [] else [f])
      && d'.registered && d'.armed && d'.isInEpoll && d'.pending == d.pending
      && (d'.armedRead <==> events.read || d.readQueue != [])
      && (d'.armedWrite <==> events.write || d.writeQueue != [])
    ensures w'.Ctl(f) == Polling(fd, if events.read then Read else Write, t > 0)
    ensures w'.mem.F(f).waitedEvent == events && w'.mem.F(f).timer == if t > 0 then t else 0
    ensures forall e: Fd :: e != fd ==> w'.mem.D(e) == w.mem.D(e)
    ensures forall x: FiberId :: x != f ==> w'.Ctl(x) == w.Ctl(x) && w'.mem.F(x) == w.mem.F(x)
  {
    hide Regions.Waitfor;
    WaitforLaw(w.mem, f, fd, events, t, w'.mem);
  }

  lemma WaitforLaw(mem: Mem, f: FiberId, fd: Fd, events: Events, t: int, mem': Mem)
    requires Regions.Waitfor(mem, f, fd, events, t) == Ok(mem')
    ensures events.read || events.write
    ensures
      var d, d' := mem.D(fd), mem'.D(fd);
      && d'.readQueue == d.readQueue + (if events.read then [f] else [])
      && d'.writeQueue == d.writeQueue + (if events.read then [] else [f])
      && d'.registered && d'.armed && d'.isInEpoll && d'.pending == d.pending
      && (d'.armedRead <==> events.read || d.readQueue != [])
      && (d'.armedWrite <==> events.write || d.writeQueue != [])
    ensures mem'.F(f).waitedEvent == events && mem'.F(f).timer == if t > 0 then t else 0
    ensures forall e: Fd :: e != fd ==> mem'.D(e) == mem.D(e)
    ensures forall x: FiberId :: x != f ==> mem'.F(x) == mem.F(x)
  {
    hide Regions.TimerPush;
    TimerPushRest();
  }

  lemma TimerPushRest()
    ensures forall mem: Mem, f: FiberId :: Regions.TimerPush(mem, f).fds == mem.fds
    ensures forall mem: Mem, f: FiberId :: Regions.TimerPush(mem, f).fibers == mem.fibers
  {
  }

  // ---- g_melon.lock -------------------------------------------------------------------------

  /** Only the begin and the end of melon_cond_signalnb take and release the signaller's place. */
  lemma BigStays(w: World, s: Step, w': World)
    requires Inv(w) && Next(w, s, w') && !s.SignalBegin? && !s.SignalEnd?
    ensures w'.big == w.big
  {
    hide Inv;
    match s
    case Handle(fd) => HandleExactly(w, fd, w'); hide Next;
    case Close(f, fd, closes) => CloseExactly(w, f, fd, closes, w'); hide Next;
    case Cancelio(f, fd) => CancelioExactly(w, f, fd, w'); hide Next;
    case _ =>
  }
}
