/** The receive interrupt and the reader thread, interleaved step by step. */
module UsbRx {
  import opened Basics
  import opened Lines

  const RINGBUF_BYTES := 2048
  const FIFO_BYTES := 64
  const CHUNK_BYTES := 128
  const REENABLE_SPACE := 256

  /** Where the reader thread stands: about to take the semaphore, to read the ring, to handle the
      next byte of its chunk, to test the throttle flag, to test the space, to clear the flag, to
      re-enable the interrupt. */
  datatype Pc = AtTake | AtGet | AtByte | AtFlag | AtSpace | AtClear | AtEnable

  /** `accepted` is every byte ever read from the UART, `consumed` every byte the thread handled. */
  datatype Usb = Usb(ring: seq<byte>, sem: nat, throttled: bool, irqOn: bool, pc: Pc, chunk: seq<byte>,
                     accepted: seq<byte>, consumed: seq<byte>, drops: nat, bytesRx: uint32)

  const BOOT := Usb([], 0, false, true, AtTake, [], [], [], 0, 0)

  function Min(a: nat, b: nat): nat { if a <= b then a else b }

  function Space(u: Usb): int { RINGBUF_BYTES - |u.ring| }

  /** One turn of the interrupt handler's loop; `ready` is the driver's answer and `fifo` what the
      UART holds. A disabled Rx interrupt is never ready. */
  function IsrStep(u: Usb, ready: bool, fifo: seq<byte>): Usb
    requires |u.ring| <= RINGBUF_BYTES
  {
    if u.throttled || !(ready && u.irqOn) then u
    else
      var want := Min(FIFO_BYTES, Space(u));
      if want == 0 then u.(irqOn := false, throttled := true)
      else
        var n := Min(|fifo|, want);
        if n == 0 then u
        else
          var put := Min(n, Space(u));
          u.(ring := u.ring + fifo[..put], accepted := u.accepted + fifo[..n],
             drops := u.drops + (n - put), bytesRx := Add32(u.bytesRx, put), sem := 1)
  }

  /** One step of the thread; blocked on the semaphore it stays where it is. */
  function ThreadStep(u: Usb): Usb {
    match u.pc
    case AtTake => if u.sem == 0 then u else u.(sem := u.sem - 1, pc := AtGet)
    case AtGet =>
      var n := Min(CHUNK_BYTES, |u.ring|);
      if n == 0 then u.(pc := AtFlag) else u.(chunk := u.ring[..n], ring := u.ring[n..], pc := AtByte)
    case AtByte =>
      if u.chunk == [] then u.(pc := AtGet) else u.(consumed := u.consumed + [u.chunk[0]], chunk := u.chunk[1..])
    case AtFlag => u.(pc := if u.throttled then AtSpace else AtTake)
    case AtSpace => u.(pc := if Space(u) > REENABLE_SPACE then AtClear else AtTake)
    case AtClear => u.(throttled := false, pc := AtEnable)
    case AtEnable => u.(irqOn := true, pc := AtTake)
  }

  // ---- what every interleaving keeps ------------------------------------------------

  predicate Draining(u: Usb) { u.pc == AtGet || u.pc == AtByte }

  ghost predicate Inv(u: Usb) {
    && |u.ring| <= RINGBUF_BYTES && u.sem <= 1
    // nothing is lost, duplicated or reordered
    && u.accepted == u.consumed + u.chunk + u.ring
    && u.drops == 0 && u.bytesRx == Add32(0, |u.accepted|)
    && (u.chunk != [] ==> u.pc == AtByte)
    // the interrupt is off exactly while throttled, and for the one step before it is re-enabled
    && (u.irqOn <==> !u.throttled && u.pc != AtEnable)
    && (u.pc == AtEnable ==> !u.throttled)
    && (u.pc == AtSpace || u.pc == AtClear ==> u.throttled)
    // bytes in the ring are never left without a wakeup
    && (u.ring != [] && !Draining(u) ==> u.sem == 1)
    && (u.throttled && u.pc == AtTake ==> u.ring != [])
  }

  datatype Sched = Isr(ready: bool, fifo: seq<byte>) | Thread

  function Next(u: Usb, s: Sched): Usb
    requires |u.ring| <= RINGBUF_BYTES
  {
    match s
    case Isr(ready, fifo) => IsrStep(u, ready, fifo)
    case Thread => ThreadStep(u)
  }

  lemma AddCount(n: nat, k: nat)
    ensures Add32(Add32(0, n), k) == Add32(0, n + k)
  {
  }

  lemma IsrKeeps(u: Usb, ready: bool, fifo: seq<byte>)
    requires Inv(u)
    ensures Inv(IsrStep(u, ready, fifo))
  {
    hide Add32;
    var u' := IsrStep(u, ready, fifo);
    var n := Min(|fifo|, Min(FIFO_BYTES, Space(u)));
    AddCount(|u.accepted|, n);
    assert u.consumed + u.chunk + (u.ring + fifo[..n]) == (u.consumed + u.chunk + u.ring) + fifo[..n];
  }

  /** What an interrupt turn takes: nothing while throttled or not ready; with no room in the 2048-byte ring
      it switches itself off; else as much as the UART holds, up to 64 bytes and the room left, all of it
      put into the ring and the thread woken if there was any. */
  lemma IsrTakes(u: Usb, ready: bool, fifo: seq<byte>)
    requires Inv(u)
    ensures var u', room := IsrStep(u, ready, fifo), 2048 - |u.ring|;
            var n := if |fifo| <= room && |fifo| <= 64 then |fifo| else if room <= 64 then room else 64;
            if u.throttled || !ready || !u.irqOn then u' == u
            else if room == 0 then u' == u.(irqOn := false, throttled := true)
            else u'.ring == u.ring + fifo[..n] && u'.accepted == u.accepted + fifo[..n] && u'.drops == 0
                 && u'.sem == (if n > 0 then 1 else u.sem) && u'.irqOn && !u'.throttled && u'.pc == u.pc
                 && u'.chunk == u.chunk && u'.consumed == u.consumed
  {
    hide Add32;
  }

  /** Throttled, the thread lets the interrupt back on exactly from a ring with more than 256 bytes free. */
  lemma ReenabledExactly(u: Usb)
    requires Inv(u) && u.pc == AtFlag && u.throttled
    ensures var u2 := ThreadStep(ThreadStep(u));
            && (u2.pc == AtClear <==> 2048 - |u.ring| > 256)
            && (u2.pc == AtClear ==> ThreadStep(ThreadStep(u2)).irqOn && !ThreadStep(ThreadStep(u2)).throttled)
            && (u2.pc != AtClear ==> u2 == u.(pc := AtTake))
  {
  }

  lemma SplitRing(a: seq<byte>, ring: seq<byte>, n: nat)
    requires n <= |ring|
    ensures a + ring[..n] + ring[n..] == a + [] + ring
  {
    assert ring[..n] + ring[n..] == ring;
  }

  lemma MoveByte(a: seq<byte>, chunk: seq<byte>, ring: seq<byte>)
    requires chunk != []
    ensures (a + [chunk[0]]) + chunk[1..] + ring == a + chunk + ring
  {
    assert chunk == [chunk[0]] + chunk[1..];
  }

  lemma ThreadKeeps(u: Usb)
    requires Inv(u)
    ensures Inv(ThreadStep(u))
  {
    if u.pc == AtGet {
      SplitRing(u.consumed, u.ring, Min(CHUNK_BYTES, |u.ring|));
    } else if u.pc == AtByte && u.chunk != [] {
      MoveByte(u.consumed, u.chunk, u.ring);
    }
    hide Add32;
  }

  lemma NextKeeps(u: Usb, s: Sched)
    requires Inv(u)
    ensures Inv(Next(u, s))
  {
    hide IsrStep, ThreadStep, Inv;
    match s {
      case Isr(ready, fifo) => IsrKeeps(u, ready, fifo);
      case Thread => ThreadKeeps(u);
    }
  }

  ghost function RunFrom(u: Usb, sched: seq<Sched>): (u': Usb)
    requires Inv(u)
    ensures Inv(u')
  {
    if sched == [] then u
    else
      var prior := RunFrom(u, sched[..|sched| - 1]);
      NextKeeps(prior, sched[|sched| - 1]);
      Next(prior, sched[|sched| - 1])
  }

  lemma BootInv()
    ensures Inv(BOOT)
  {
  }

  /** In every interleaving of interrupt and thread from boot: no byte is dropped; what was read is
      what was handled, then the chunk in hand, then the ring; and while Rx is throttled the thread
      is never asleep without a wakeup. */
  lemma EveryRun(sched: seq<Sched>)
    ensures Inv(BOOT)
    ensures var u := RunFrom(BOOT, sched);
            && u.drops == 0 && u.accepted == u.consumed + u.chunk + u.ring
            && u.bytesRx == Add32(0, |u.accepted|)
            && (u.throttled ==> u.sem == 1 || Draining(u) || (u.pc != AtTake && u.ring == []))
  {
    BootInv();
  }

  // ---- a throttled receiver always recovers -----------------------------------------

  /** Thread steps left until Rx is on again. */
  function Measure(u: Usb): nat {
    4 * |u.ring| + 2 * |u.chunk|
    + match u.pc
      case AtEnable => 1
      case AtClear => 2
      case AtSpace => if u.ring == [] then 3 else 8
      case AtFlag => if u.ring == [] then 4 else 9
      case AtGet => 5
      case AtByte => 6
      case AtTake => 7
  }

  /** While Rx is off the interrupt changes nothing, and every thread step either turns Rx back on
      or comes strictly closer to it; the thread is never blocked. */
  lemma OffProgress(u: Usb, ready: bool, fifo: seq<byte>)
    requires Inv(u) && !u.irqOn
    ensures IsrStep(u, ready, fifo) == u
    ensures ThreadStep(u).irqOn || Measure(ThreadStep(u)) < Measure(u)
  {
  }

  function ThreadSteps(sched: seq<Sched>): nat {
    if sched == [] then 0
    else ThreadSteps(sched[..|sched| - 1]) + if sched[|sched| - 1].Thread? then 1 else 0
  }

  ghost predicate OffThroughout(u: Usb, sched: seq<Sched>)
    requires Inv(u)
  {
    forall n :: 0 <= n <= |sched| ==> !RunFrom(u, sched[..n]).irqOn
  }

  lemma {:induction false} OffCountdown(u: Usb, sched: seq<Sched>)
    requires Inv(u) && OffThroughout(u, sched)
    ensures Measure(RunFrom(u, sched)) + ThreadSteps(sched) <= Measure(u)
  {
    hide Measure, ThreadStep, IsrStep, Inv;
    if sched != [] {
      var init, s := sched[..|sched| - 1], sched[|sched| - 1];
      forall n | 0 <= n <= |init|
        ensures !RunFrom(u, init[..n]).irqOn
      {
        assert init[..n] == sched[..n];
      }
      OffCountdown(u, init);
      assert sched[..|sched|] == sched && init[..|init|] == init;
      if s.Isr? {
        OffProgress(RunFrom(u, init), s.ready, s.fifo);
      } else {
        OffProgress(RunFrom(u, init), false, []);
      }
    }
  }

  /** From every state with Rx off, any schedule that gives the thread Measure(u) + 1 steps, with
      the interrupt interleaved at will, turns Rx on again along the way. */
  lemma RxComesBack(u: Usb, sched: seq<Sched>) returns (n: nat)
    requires Inv(u) && ThreadSteps(sched) > Measure(u)
    ensures n <= |sched| && RunFrom(u, sched[..n]).irqOn && !RunFrom(u, sched[..n]).throttled
  {
    hide Measure;
    if OffThroughout(u, sched) {
      OffCountdown(u, sched);
      assert false;
    }
    n :| 0 <= n <= |sched| && RunFrom(u, sched[..n]).irqOn;
  }

  /** Interrupt, ring, thread and line buffer together: in every interleaving the lines parsed so
      far are those of a prefix of the bytes read, the prefix handled so far. */
  lemma LinesFromUart(sched: seq<Sched>)
    ensures Inv(BOOT)
    ensures var u := RunFrom(BOOT, sched);
            && u.consumed <= u.accepted
            && Feed(NO_LINES, u.consumed).lines == Delivered(Completed(u.consumed))
  {
    BootInv();
    StreamLines(RunFrom(BOOT, sched).consumed);
  }

  // ---- the mutable handler ----------------------------------------------------------

  /** The shared variables of interrupt and thread, and the thread's own, with each atomic step a
      method. */
  class UsbHandler {
    var ring: seq<byte>
    var rxSem: nat
    var rxThrottled: bool
    var irqEnabled: bool
    var pc: Pc
    var chunk: seq<byte>
    var ringbufDrops: nat
    var bytesRx: uint32
    const reader: LineReader
    ghost var accepted: seq<byte>
    ghost var consumed: seq<byte>

    ghost predicate Valid()
      reads this, reader, reader.lineBuf
    {
      && Inv(State())
      && reader.Valid() && reader.State() == Feed(NO_LINES, consumed)
    }

    ghost function State(): Usb
      reads this
    {
      Usb(ring, rxSem, rxThrottled, irqEnabled, pc, chunk, accepted, consumed, ringbufDrops, bytesRx)
    }

    constructor (parse: seq<byte> -> bool)
      ensures Valid() && State() == BOOT && fresh(reader) && fresh(reader.lineBuf)
    {
      ring, rxSem, rxThrottled, irqEnabled := [], 0, false, true;
      pc, chunk, ringbufDrops, bytesRx := AtTake, [], 0, 0;
      accepted, consumed := [], [];
      reader := new LineReader(parse);
    }

    /** One turn of `interrupt_handler`'s loop; true means leave the loop. */
    method InterruptTurn(rxReady: bool, fifo: seq<byte>) returns (done: bool)
      requires Valid()
      modifies this
      ensures Valid() && State() == IsrStep(old(State()), rxReady, fifo)
    {
      IsrKeeps(State(), rxReady, fifo);
      if rxThrottled || !(rxReady && irqEnabled) {
        return false;
      }
      var space := RINGBUF_BYTES - |ring|;
      var want := Min(FIFO_BYTES, space);
      if want == 0 {
        irqEnabled := false;
        rxThrottled := true;
        return true;
      }
      var n := Min(|fifo|, want);
      if n == 0 {
        return true;
      }
      var put := Min(n, space);
      ring := ring + fifo[..put];
      accepted := accepted + fifo[..n];
      ringbufDrops := ringbufDrops + (n - put);
      bytesRx := Add32(bytesRx, put);
      rxSem := 1;
      return false;
    }

    /** One step of `rx_thread_fn`. */
    method ThreadTurn()
      requires Valid()
      modifies this, reader, reader.lineBuf
      ensures Valid() && State() == ThreadStep(old(State()))
    {
      hide Inv, Feed1;
      ThreadKeeps(State());
      match pc {
        case AtTake =>
          if rxSem > 0 {
            rxSem := rxSem - 1;
            pc := AtGet;
          }
        case AtGet =>
          var n := Min(CHUNK_BYTES, |ring|);
          if n == 0 {
            pc := AtFlag;
          } else {
            chunk, ring := ring[..n], ring[n..];
            pc := AtByte;
          }
        case AtByte =>
          if chunk == [] {
            pc := AtGet;
          } else {
            HandleByte();
          }
        case AtFlag => pc := if rxThrottled then AtSpace else AtTake;
        case AtSpace => pc := if RINGBUF_BYTES - |ring| > REENABLE_SPACE then AtClear else AtTake;
        case AtClear =>
          rxThrottled := false;
          pc := AtEnable;
        case AtEnable =>
          irqEnabled := true;
          pc := AtTake;
      }
    }

    /** The thread passes the next byte of its chunk to the line buffer. */
    method HandleByte()
      requires Valid() && chunk != []
      modifies this`chunk, this`consumed, reader, reader.lineBuf
      ensures chunk == old(chunk)[1..] && consumed == old(consumed) + [old(chunk)[0]]
      ensures reader.Valid() && reader.State() == Feed(NO_LINES, consumed)
    {
      hide Feed1, Inv;
      reader.Accept(chunk[0]);
      consumed := consumed + [chunk[0]];
      chunk := chunk[1..];
      assert consumed[..|consumed| - 1] == old(consumed);
    }
  }
}
