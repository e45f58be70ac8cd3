/** One interrupt proxy of linux_kernel/src/osal_irq.c: the interrupt handler, the reading user
    thread, and the auto-reset kernel event between them. */
module IrqProxy {
  import opened Options
  import opened Counting
  import opened KernelWait
  import opened Words

  const READ_WAIT_MS: nat := 1000

  /** Where the read call is; Idle means that no read is in progress. */
  datatype Reader =
    | Idle
    | Clearing            // saw `disabled` and `received`, clears `disabled` next
    | Enabling            // calls enable_irq next
    | Entering            // calls os_event_wait next
    | Waiting(w: Waiter)

  /** Where the handler is; Raised: event set, the line not yet disabled. */
  datatype Handler = HandlerIdle | Raised | Masked

  /** The proxy with its event and its two flags. History: `undelivered` from a set until a read
      returns 0; `owed` when the current read began with an interrupt undelivered and the handler
      idle; `crossed` when a set met it between queueing and its locked test; `misses` counts
      consecutive owed reads that failed, `failures` all reads that failed, and `lastFailed` says that
      the last read to finish did. */
  datatype Proxy = Proxy(
    registered: bool,
    signaled: bool,
    disabled: bool,
    received: bool,
    reader: Reader,
    handler: Handler,
    undelivered: bool,
    owed: bool,
    crossed: bool,
    misses: nat,
    failures: nat,
    lastFailed: bool,
    accepted: nat,
    viaEvent: nat,
    viaFlag: nat)

  /** What osal_irqproxy_write sets up. */
  function Opened(): Proxy
  {
    Proxy(true, false, false, true, Idle, HandlerIdle, false, false, false, 0, 0, false, 0, 0, 0)
  }

  /** Reads that returned 0; the client thread calls its interrupt function once for each. */
  function Delivered(p: Proxy): nat
  {
    p.viaEvent + p.viaFlag
  }

  // ----- the handler -----

  predicate OnQueue(r: Reader)
  {
    r.Waiting? && r.w.queued
  }

  /** On the queue, the flag not yet looked at. */
  predicate BeforeLockedTest(r: Reader)
  {
    r.Waiting? && r.w.phase.Prepared?
  }

  function Woken(r: Reader): Reader
  {
    if r.Waiting? then Waiting(Notify(r.w)) else r
  }

  /** os_event_set at the start of osal_irqproxy_handler. */
  function Accept(p: Proxy): Proxy
  {
    p.(signaled := !OnQueue(p.reader),
       reader := Woken(p.reader),
       handler := Raised,
       undelivered := true,
       crossed := p.crossed || BeforeLockedTest(p.reader),
       accepted := p.accepted + 1)
  }

  /** disable_irq_nosync, then `disabled = 1`. */
  function HandlerStep(p: Proxy): Option<Proxy>
  {
    match p.handler
    case HandlerIdle => None
    case Raised => Some(p.(handler := Masked))
    case Masked => Some(p.(handler := HandlerIdle, disabled := true))
  }

  // ----- the reader -----

  /** The opening test of a read. */
  function BeginRead(p: Proxy): Proxy
  {
    if p.disabled && !p.received then
      p.(received := true, undelivered := false, viaFlag := p.viaFlag + 1, misses := 0, lastFailed := false)
    else
      p.(reader := if p.disabled then Clearing else Entering,
         owed := p.undelivered && p.handler == HandlerIdle,
         crossed := false)
  }

  /** The read returns 0 on success and -EINTR otherwise. */
  function EndRead(p: Proxy, status: Status): Proxy
  {
    if status == Success then
      p.(reader := Idle, received := true, undelivered := false, viaEvent := p.viaEvent + 1, misses := 0,
         lastFailed := false)
    else
      p.(reader := Idle, received := false, misses := if p.owed then p.misses + 1 else p.misses,
         failures := p.failures + 1, lastFailed := true)
  }

  /** One step inside os_event_wait. */
  function WaitStep(p: Proxy): Option<Proxy>
    requires p.reader.Waiting?
  {
    var w := p.reader.w;
    match NextPhase(w, p.signaled, false)
    case None => None
    case Some(phase) => Some(p.(reader := Waiting(Move(w, phase)), signaled := FlagAfter(w, p.signaled, false)))
  }

  function ClearDisabled(p: Proxy): Proxy
  {
    p.(reader := Enabling, disabled := false)
  }

  function AfterEnable(p: Proxy): Proxy
  {
    p.(reader := Entering)
  }

  function EnterEvent(p: Proxy, pendingSignal: bool): Proxy
  {
    p.(reader := Waiting(Enter(READ_WAIT_MS, true, pendingSignal)))
  }

  /** The reader's next step; `pendingSignal` is looked at only where the wait is entered. */
  function ReadStep(p: Proxy, pendingSignal: bool): Option<Proxy>
  {
    match p.reader
    case Idle => if p.registered then Some(BeginRead(p)) else None
    case Clearing => Some(ClearDisabled(p))
    case Enabling => Some(AfterEnable(p))
    case Entering => Some(EnterEvent(p, pendingSignal))
    case Waiting(w) => if w.phase.Returned? then Some(EndRead(p, w.phase.status)) else WaitStep(p)
  }

  predicate TimerArmed(p: Proxy)
  {
    p.reader.Waiting? && p.reader.w.armed
  }

  function TimerStep(p: Proxy): Option<Proxy>
  {
    if TimerArmed(p) then Some(p.(reader := Waiting(Fire(p.reader.w)))) else None
  }

  function SignalStep(p: Proxy): Option<Proxy>
  {
    if p.reader.Waiting? then Some(p.(reader := Waiting(Interrupt(p.reader.w)))) else None
  }

  // ----- what every proxy keeps -----

  /** The proxy's share of the line's disable depth. */
  predicate Holding(p: Proxy)
  {
    p.disabled || p.handler == Masked || p.reader == Enabling
  }

  /** The current read has cleared `disabled` and not yet made its locked test. */
  predicate BeforeTest(r: Reader)
  {
    r == Enabling || r == Entering || BeforeLockedTest(r)
  }

  /** The current read has taken the flag. */
  predicate TookFlag(r: Reader)
  {
    r.Waiting? && (r.w.phase == Found || r.w.phase == Returned(Success))
  }

  /** The current read has the flag, or is awake inside its wait: nothing more need happen for it to end. */
  predicate Committed(r: Reader)
  {
    TookFlag(r) || (r.Waiting? && !r.w.asleep)
  }

  predicate Exclusive(p: Proxy)
  {
    && (p.handler != HandlerIdle ==> !p.disabled && p.reader != Clearing && p.reader != Enabling)
    && (p.reader == Enabling ==> !p.disabled)
    && (p.reader == Clearing ==> p.disabled && p.received)
  }

  predicate WaiterSound(p: Proxy)
  {
    p.reader.Waiting? ==>
      var w := p.reader.w;
      && Sound(w) && w.ms == READ_WAIT_MS && w.interruptible && !w.stray
      && w.phase != Polled
  }

  predicate NothingLost(p: Proxy)
  {
    && (p.undelivered ==> p.signaled || !p.received || Committed(p.reader))
    && (p.undelivered ==>
          p.disabled || p.handler != HandlerIdle || (p.signaled && BeforeTest(p.reader)) || TookFlag(p.reader))
    && (p.signaled ==> p.disabled || p.handler != HandlerIdle || BeforeTest(p.reader))
  }

  /** An owed, uncrossed read is on the straight way to returning 0. */
  predicate OwedIsServed(p: Proxy)
  {
    && (p.owed && !p.crossed && p.reader != Idle ==>
          ((p.reader == Clearing || BeforeTest(p.reader)) && p.signaled) || TookFlag(p.reader))
    && (p.owed && p.reader != Idle ==> p.misses == 0)
    && p.misses <= 1 && (p.misses == 1 ==> !p.received)
    && (p.received <==> !p.lastFailed)
  }

  /** The read holds the wake-up or the flag of one set. */
  predicate EventToken(r: Reader)
  {
    r.Waiting? &&
    (TookFlag(r) || r.w.phase == Judged(Success) || ((r.w.phase.Prepared? || PastTest(r.w)) && r.w.notified))
  }

  /** `disabled` may still make a read return 0. */
  predicate FlagToken(p: Proxy)
  {
    p.disabled && !(p.received && (p.reader == Idle || p.reader == Clearing))
  }

  ghost predicate Accounted(p: Proxy)
  {
    && p.viaEvent + One(p.signaled) + One(EventToken(p.reader)) <= p.accepted
    && p.viaFlag + One(p.handler != HandlerIdle) + One(FlagToken(p)) <= p.accepted
    && p.viaFlag + One(!p.received) <= p.failures
  }

  ghost predicate ProxyInv(p: Proxy)
  {
    Exclusive(p) && WaiterSound(p) && NothingLost(p) && OwedIsServed(p) && Accounted(p)
  }

  lemma AcceptKeeps(p: Proxy)
    requires ProxyInv(p) && p.handler == HandlerIdle && !Holding(p)
    ensures ProxyInv(Accept(p)) && !Holding(Accept(p))
  {
  }

  lemma HandlerKeeps(p: Proxy)
    requires ProxyInv(p) && HandlerStep(p).Some?
    ensures ProxyInv(HandlerStep(p).value)
    ensures Holding(HandlerStep(p).value)
  {
    match p.handler
    case Raised =>
    case Masked =>
  }

  /** Only the handler changes its own place, and nothing here changes the registration. */
  predicate SameFrame(p: Proxy, q: Proxy)
  {
    q.registered == p.registered && q.handler == p.handler
  }

  lemma WaitKeeps(p: Proxy)
    requires ProxyInv(p) && p.reader.Waiting? && WaitStep(p).Some?
    ensures ProxyInv(WaitStep(p).value) && (Holding(WaitStep(p).value) <==> Holding(p))
    ensures SameFrame(p, WaitStep(p).value)
  {
  }

  lemma BeginKeeps(p: Proxy)
    requires ProxyInv(p) && p.reader == Idle
    ensures ProxyInv(BeginRead(p)) && (Holding(BeginRead(p)) <==> Holding(p)) && SameFrame(p, BeginRead(p))
  {
  }

  lemma ClearKeeps(p: Proxy)
    requires ProxyInv(p) && p.reader == Clearing
    ensures ProxyInv(ClearDisabled(p)) && Holding(p) && Holding(ClearDisabled(p)) && SameFrame(p, ClearDisabled(p))
  {
  }

  lemma EnableKeeps(p: Proxy)
    requires ProxyInv(p) && p.reader == Enabling
    ensures ProxyInv(AfterEnable(p)) && Holding(p) && !Holding(AfterEnable(p)) && SameFrame(p, AfterEnable(p))
  {
  }

  lemma EnterKeeps(p: Proxy, pendingSignal: bool)
    requires ProxyInv(p) && p.reader == Entering
    ensures ProxyInv(EnterEvent(p, pendingSignal)) && SameFrame(p, EnterEvent(p, pendingSignal))
    ensures Holding(EnterEvent(p, pendingSignal)) <==> Holding(p)
  {
  }

  lemma SuccessKeeps(p: Proxy)
    requires ProxyInv(p) && p.reader.Waiting? && p.reader.w.phase == Returned(Success)
    ensures ProxyInv(EndRead(p, Success)) && (Holding(EndRead(p, Success)) <==> Holding(p))
    ensures SameFrame(p, EndRead(p, Success))
  {
    assert TookFlag(p.reader);
  }

  lemma FailureKeeps(p: Proxy, status: Status)
    requires ProxyInv(p) && p.reader.Waiting? && p.reader.w.phase == Returned(status) && status != Success
    ensures ProxyInv(EndRead(p, status)) && (Holding(EndRead(p, status)) <==> Holding(p))
    ensures SameFrame(p, EndRead(p, status))
  {
  }

  lemma ReadKeeps(p: Proxy, pendingSignal: bool)
    requires ProxyInv(p) && ReadStep(p, pendingSignal).Some?
    ensures ProxyInv(ReadStep(p, pendingSignal).value)
    ensures Holding(ReadStep(p, pendingSignal).value) <==> Holding(p) && p.reader != Enabling
    ensures SameFrame(p, ReadStep(p, pendingSignal).value)
  {
    match p.reader
    case Idle => BeginKeeps(p);
    case Clearing => ClearKeeps(p);
    case Enabling => EnableKeeps(p);
    case Entering => EnterKeeps(p, pendingSignal);
    case Waiting(w) =>
      if w.phase == Returned(Success) {
        SuccessKeeps(p);
      } else if w.phase.Returned? {
        FailureKeeps(p, w.phase.status);
      } else {
        WaitKeeps(p);
      }
  }

  lemma TimerKeeps(p: Proxy)
    requires ProxyInv(p) && TimerStep(p).Some?
    ensures ProxyInv(TimerStep(p).value) && (Holding(TimerStep(p).value) <==> Holding(p))
  {
  }

  lemma SignalKeeps(p: Proxy)
    requires ProxyInv(p) && SignalStep(p).Some?
    ensures ProxyInv(SignalStep(p).value) && (Holding(SignalStep(p).value) <==> Holding(p))
  {
  }

  /** The kernel's descriptor of the line; its lock makes each call atomic. */
  class LineDescriptor {
    var depth: int

    constructor ()
      ensures depth == 0
    {
      depth := 0;
    }

    method DisableNosync()
      modifies this
      ensures depth == old(depth) + 1
    {
      depth := depth + 1;
    }

    method Enable()
      modifies this
      ensures depth == old(depth) - 1
    {
      depth := depth - 1;
    }
  }

  const EINTR: int := 4

  /** The proxy object of one open file, its event included. */
  class Device {
    var registered: bool
    var signaled: bool
    var disabled: bool
    var received: bool
    var reader: Reader
    var handler: Handler
    ghost var undelivered: bool
    ghost var owed: bool
    ghost var crossed: bool
    ghost var misses: nat
    ghost var failures: nat
    ghost var lastFailed: bool
    ghost var accepted: nat
    ghost var viaEvent: nat
    ghost var viaFlag: nat

    ghost function View(): Proxy
      reads this
    {
      Proxy(registered, signaled, disabled, received, reader, handler,
            undelivered, owed, crossed, misses, failures, lastFailed, accepted, viaEvent, viaFlag)
    }

    /** The successful path of osal_irqproxy_write. */
    constructor Write()
      ensures View() == Opened()
      ensures registered && !signaled && !disabled && received && reader == Idle && handler == HandlerIdle
    {
      registered, signaled, disabled, received := true, false, false, true;
      reader, handler := Idle, HandlerIdle;
      undelivered, owed, crossed, misses, failures, lastFailed := false, false, false, 0, 0, false;
      accepted, viaEvent, viaFlag := 0, 0, 0;
    }

    /** os_event_set: an occupied queue takes the flag down again, and a reader asleep there is woken. */
    method SetEvent()
      modifies this`signaled, this`reader
      ensures signaled <==> !(old(reader).Waiting? && old(reader).w.queued)
      ensures reader == Woken(old(reader))
      ensures reader ==
        if old(reader).Waiting? && old(reader).w.queued && old(reader).w.asleep
        then Waiting(old(reader).w.(queued := false, asleep := false, notified := true)) else old(reader)
    {
      signaled := true;
      if reader.Waiting? && reader.w.queued {
        signaled := false;
        if reader.w.asleep {
          reader := Waiting(reader.w.(queued := false, asleep := false, notified := true));
        }
      }
    }

    method HandlerSetsEvent()
      modifies this`signaled, this`reader, this`handler, this`undelivered, this`crossed, this`accepted
      ensures View() == Accept(old(View()))
      ensures handler == Raised && undelivered && accepted == old(accepted) + 1
      ensures crossed <==> old(crossed) || (old(reader).Waiting? && old(reader).w.phase.Prepared?)
    {
      ghost var p := View();
      ghost var meets := BeforeLockedTest(reader);
      SetEvent();
      undelivered, accepted, handler := true, accepted + 1, Raised;
      crossed := crossed || meets;
      assert Accept(p).reader == reader && Accept(p).signaled == signaled;
    }

    method HandlerDisablesLine(line: LineDescriptor)
      requires handler == Raised
      modifies this`handler, line
      ensures Some(View()) == HandlerStep(old(View()))
      ensures handler == Masked
      ensures line.depth == old(line.depth) + 1
    {
      line.DisableNosync();
      handler := Masked;
    }

    method HandlerMarksDisabled()
      requires handler == Masked
      modifies this`disabled, this`handler
      ensures Some(View()) == HandlerStep(old(View()))
      ensures disabled && handler == HandlerIdle
    {
      disabled := true;
      handler := HandlerIdle;
    }

    /** The opening tests of osal_irqproxy_read; Some(0) when the call returns at once. */
    method ReadBegins() returns (result: Option<int>)
      requires registered && reader == Idle
      modifies this`received, this`reader, this`undelivered, this`owed, this`crossed, this`misses,
        this`lastFailed, this`viaFlag
      ensures Some(View()) == ReadStep(old(View()), false)
      ensures result == if old(disabled) && !old(received) then Some(0) else None
      ensures result == Some(0) ==> reader == Idle && received && !undelivered && viaFlag == old(viaFlag) + 1
      ensures result == None ==>
        && reader == (if disabled then Clearing else Entering) && received == old(received)
        && (owed <==> old(undelivered) && handler == HandlerIdle) && !crossed && undelivered == old(undelivered)
    {
      if disabled {
        if received {
          reader := Clearing;
        } else {
          received := true;
          undelivered, viaFlag, misses, lastFailed := false, viaFlag + 1, 0, false;
          return Some(0);
        }
      } else {
        reader := Entering;
      }
      owed, crossed := undelivered && handler == HandlerIdle, false;
      return None;
    }

    method ReadClearsDisabled()
      requires reader == Clearing
      modifies this`disabled, this`reader
      ensures Some(View()) == ReadStep(old(View()), false)
      ensures !disabled && reader == Enabling
    {
      disabled := false;
      reader := Enabling;
    }

    method ReadEnablesLine(line: LineDescriptor)
      requires reader == Enabling
      modifies this`reader, line
      ensures Some(View()) == ReadStep(old(View()), false)
      ensures reader == Entering
      ensures line.depth == old(line.depth) - 1
    {
      line.Enable();
      reader := Entering;
    }

    method ReadEntersWait(pendingSignal: bool)
      requires reader == Entering
      modifies this`reader
      ensures Some(View()) == ReadStep(old(View()), pendingSignal)
      ensures reader ==
        Waiting(Waiter(Prepared, 1000, true, true, true, false, false, pendingSignal, false, false))
    {
      reader := Waiting(Enter(READ_WAIT_MS, true, pendingSignal));
    }

    /** The locked test of the wait: a raised flag is taken. */
    method WaitTestsFlag()
      requires reader.Waiting? && reader.w.phase.Prepared?
      modifies this`signaled, this`reader
      ensures Some(View()) == ReadStep(old(View()), false)
      ensures !signaled
      ensures var w := old(reader).w;
        reader == Waiting(w.(phase := if old(signaled) then Found else if w.ms == 0 then Polled else Passed))
    {
      var w := reader.w;
      var phase := Passed;
      if signaled {
        signaled := false;
        phase := Found;
      } else if w.ms == 0 {
        phase := Polled;
      }
      reader := Waiting(w.(phase := phase));
    }

    /** From the timer to the verdict, one piece a call; `blocked` when schedule() keeps the reader.
        The flag is not looked at any more. */
    method WaitGoesOn() returns (blocked: bool)
      requires reader.Waiting? && PastTest(reader.w)
      modifies this`reader
      ensures blocked <==> ReadStep(old(View()), false).None?
      ensures if blocked then View() == old(View()) else Some(View()) == ReadStep(old(View()), false)
      ensures blocked <==> old(reader).w.phase.Blocked? && old(reader).w.asleep && !Interrupted(old(reader).w)
      ensures var w := old(reader).w;
        && (w.phase.Passed? ==> reader == Waiting(w.(phase := Blocked, armed := w.ms != NO_TIMEOUT)))
        && (w.phase.Blocked? && !blocked ==> reader == Waiting(w.(phase := Awake, asleep := false)))
        && (w.phase.Awake? ==> reader == Waiting(w.(phase := Finished, queued := false, asleep := false)))
        && (w.phase.Finished? ==> reader.Waiting? && reader.w.phase == Judged(Verdict(w)) && !reader.w.armed)
    {
      var w := reader.w;
      blocked := false;
      match w.phase
      case Passed =>
        reader := Waiting(w.(phase := Blocked, armed := w.ms != NO_TIMEOUT));
      case Blocked =>
        if w.asleep && !(w.interruptible && w.pendingSignal) {
          blocked := true;
        } else {
          reader := Waiting(w.(phase := Awake, asleep := false));
        }
      case Awake =>
        reader := Waiting(w.(phase := Finished, queued := false, asleep := false));
      case Finished =>
        var status := Success;
        if w.interruptible && w.pendingSignal {
          status := NotDone;
        } else if w.ms != NO_TIMEOUT && w.timedout {
          status := Timeout;
        }
        reader := Waiting(w.(phase := Judged(status), queued := false, asleep := false, armed := false));
    }

    /** The three ways out; after a wait that slept the final reset takes the flag down. */
    method WaitReturns() returns (status: Status)
      requires reader.Waiting?
      requires reader.w.phase.Found? || reader.w.phase.Polled? || reader.w.phase.Judged?
      modifies this`signaled, this`reader
      ensures Some(View()) == ReadStep(old(View()), false)
      ensures status == match old(reader).w.phase case Found => Success case Polled => Timeout case Judged(v) => v
      ensures reader == Waiting(old(reader).w.(phase := Returned(status), queued := false, asleep := false))
      ensures signaled == (old(signaled) && !old(reader.w).phase.Judged?)
    {
      var w := reader.w;
      match w.phase {
        case Found => status := Success;
        case Polled => status := Timeout;
        case Judged(verdict) =>
          signaled := false;
          status := verdict;
      }
      reader := Waiting(w.(phase := Returned(status), queued := false, asleep := false));
    }

    method ReadEnds() returns (result: int)
      requires reader.Waiting? && reader.w.phase.Returned?
      modifies this`received, this`reader, this`undelivered, this`misses, this`failures, this`lastFailed,
        this`viaEvent
      ensures Some(View()) == ReadStep(old(View()), false)
      ensures result == if old(reader.w).phase.status == Success then 0 else -4
      ensures reader == Idle && (received <==> result == 0)
      ensures result == 0 ==> !undelivered && viaEvent == old(viaEvent) + 1 && failures == old(failures)
      ensures result != 0 ==>
        undelivered == old(undelivered) && viaEvent == old(viaEvent) && failures == old(failures) + 1
    {
      if reader.w.phase.status != Success {
        received := false;
        misses, failures, lastFailed := if owed then misses + 1 else misses, failures + 1, true;
        result := -EINTR;
      } else {
        received := true;
        undelivered, viaEvent, misses, lastFailed := false, viaEvent + 1, 0, false;
        result := 0;
      }
      reader := Idle;
    }

    /** The end of osal_irqproxy_release, the handler being unregistered. */
    method ReleasesLine(line: LineDescriptor)
      requires !registered
      modifies this`signaled, line
      ensures signaled <==> old(signaled) && disabled
      ensures line.depth == old(line.depth) - if old(disabled || signaled) then 1 else 0
    {
      var pending := disabled;
      if !pending {
        pending := signaled;
        signaled := false;
      }
      if pending {
        line.Enable();
      }
    }
  }
}
