/** The per-component event-flag word of the H.264 pipeline (openmax/h264.h and
    the callback half of openmax/h264.cpp): the component_event bits, `wake`,
    `wait`, and the two driver callbacks that translate OpenMAX IL events into
    exactly one bit each. */
module Events {

  datatype Option<T> = None | Some(value: T)

  /** The component_event flags. */
  datatype Event =
    | Error | PortEnable | PortDisable | StateSet | Flush | MarkBuffer | Mark
    | PortSettingsChanged | ParamOrConfigChanged | BufferFlag | ResourcesAcquired
    | DynamicResourcesAvailable | FillBufferDone | EmptyBufferDone

  predicate SingleBit(b: bv32) {
    b != 0 && b & (b - 1) == 0
  }

  /** The bit each flag occupies in the 32-bit VCOS flag word. */
  function Bit(e: Event): (b: bv32)
    ensures SingleBit(b)
    ensures b < 0x4000
    ensures b == 0x1 <==> e == Error
  {
    match e
    case Error => 0x1
    case PortEnable => 0x2
    case PortDisable => 0x4
    case StateSet => 0x8
    case Flush => 0x10
    case MarkBuffer => 0x20
    case Mark => 0x40
    case PortSettingsChanged => 0x80
    case ParamOrConfigChanged => 0x100
    case BufferFlag => 0x200
    case ResourcesAcquired => 0x400
    case DynamicResourcesAvailable => 0x800
    case FillBufferDone => 0x1000
    case EmptyBufferDone => 0x2000
  }

  /** Distinct flags occupy disjoint bits, so waking or consuming one never
      touches another. */
  lemma BitsDisjoint(e1: Event, e2: Event)
    ensures e1 != e2 <==> Bit(e1) & Bit(e2) == 0
  {
  }

  /** A component's pending flags. The model keeps the word as the set of
      flags whose bits are set: `BitsDisjoint` makes the two views agree, and
      no code path sets a bit outside the component_event flags. */
  type Flags = set<Event>

  /** `wake`: OR one flag into the word. */
  function Wake(flags: Flags, e: Event): (r: Flags)
    ensures e in r
    ensures forall e' :: e' != e ==> (e' in r <==> e' in flags)
  {
    flags + {e}
  }

  /** Waking a flag that is already pending changes nothing, and wakes commute. */
  lemma WakeIdempotentAndCommutative(flags: Flags, e1: Event, e2: Event)
    ensures Wake(Wake(flags, e1), e1) == Wake(flags, e1)
    ensures Wake(Wake(flags, e1), e2) == Wake(Wake(flags, e2), e1)
  {
  }

  /** What one `wait` call does with the word. */
  datatype WaitOutcome =
    | Blocked                                      // nothing requested is pending: the caller sleeps
    | Fatal                                        // the error flag alone was pending: exit(1)
    | Returned(retrieved: Flags, remaining: Flags) // the caller continues

  /** The flags `wait` always asks for: the caller's plus the error flag. */
  function Requested(events: Flags): (m: Flags)
    ensures Error in m && events <= m
    ensures forall e :: e in m ==> e in events || e == Error
  {
    events + {Error}
  }

  /** `wait`: request `events | EVENT_ERROR` with OR-consume semantics. The
      retrieved word is the whole pending word at the moment the wait is
      satisfied (the VCOS flags behaviour); the call is fatal only when that
      word is exactly the error flag. */
  function Wait(flags: Flags, events: Flags): (r: WaitOutcome)
    ensures r.Blocked? <==> forall e :: e in flags ==> e !in events && e != Error
    ensures r.Fatal? <==> flags == {Error}
    ensures r.Returned? ==> r.retrieved == flags
    ensures r.Returned? ==> forall e :: e in r.remaining <==> e in flags && e !in events && e != Error
  {
    var requested := Requested(events);
    if flags * requested == {} then
      assert forall e :: e in flags ==> e !in flags * requested;
      Blocked
    else if flags == {Error} then Fatal
    else Returned(flags, flags - requested)
  }

  /** The error flag arriving together with an awaited flag is not fatal: the
      wait returns normally. */
  lemma ErrorWithAwaitedReturns(flags: Flags, events: Flags, e: Event)
    requires e != Error && e in events && e in flags && Error in flags
    ensures Wait(flags, events).Returned?
  {
  }

  /** The error flag together with any other pending flag -- even one nobody
      waits for -- also lets the wait return normally. */
  lemma ErrorMaskedByOtherPending(flags: Flags, events: Flags, e: Event)
    requires e != Error && e !in events && e in flags && Error in flags
    ensures Wait(flags, events).Returned?
    ensures e in Wait(flags, events).remaining
  {
  }

  /** Consume semantics: repeating the same wait right after it returned, with
      nothing woken in between, blocks. */
  lemma WaitConsumes(flags: Flags, events: Flags)
    requires Wait(flags, events).Returned?
    ensures Wait(Wait(flags, events).remaining, events).Blocked?
  {
  }

  /** The nominal handshake: waking the awaited flag lets the wait return and
      removes exactly that flag (and a stale error flag) from the word. */
  lemma WakeThenWait(flags: Flags, e: Event)
    requires e != Error
    ensures Wait(Wake(flags, e), {e}) == Returned(flags + {e}, flags - {e, Error})
  {
    assert Wake(flags, e) != {Error} by {
      assert e in Wake(flags, e);
    }
  }

  /** OpenMAX IL commands reported by OMX_EventCmdComplete. */
  datatype OmxCommand =
    | CommandStateSet | CommandFlush | CommandPortDisable | CommandPortEnable
    | CommandMarkBuffer | CommandOther(code: nat)

  /** OpenMAX IL events delivered to the EventHandler callback. */
  datatype OmxEvent =
    | EventCmdComplete(command: OmxCommand)
    | EventError | EventMark | EventPortSettingsChanged | EventParamOrConfigChanged
    | EventBufferFlag | EventResourcesAcquired | EventDynamicResourcesAvailable
    | EventOther(code: nat)

  /** The two callbacks a component registers: the event handler and
      fill_buffer_done. */
  datatype Callback = Handler(event: OmxEvent) | BufferFilled

  /** OMX_ERRORTYPE: success or some failure code. */
  datatype OmxError = ErrorNone | Failure(code: nat)

  /** The flag a callback wakes, if any. */
  function Signal(cb: Callback): (r: Option<Event>)
    ensures r.None? <==> cb.Handler? && (cb.event.EventOther? ||
                                        (cb.event.EventCmdComplete? && cb.event.command.CommandOther?))
    ensures r != Some(EmptyBufferDone)
    ensures r == Some(FillBufferDone) <==> cb.BufferFilled?
  {
    match cb
    case BufferFilled => Some(FillBufferDone)
    case Handler(ev) =>
      match ev
      case EventCmdComplete(cmd) =>
        (match cmd
         case CommandStateSet => Some(StateSet)
         case CommandPortDisable => Some(PortDisable)
         case CommandPortEnable => Some(PortEnable)
         case CommandFlush => Some(Flush)
         case CommandMarkBuffer => Some(MarkBuffer)
         case CommandOther(_) => None)
      case EventError => Some(Error)
      case EventMark => Some(Mark)
      case EventPortSettingsChanged => Some(PortSettingsChanged)
      case EventParamOrConfigChanged => Some(ParamOrConfigChanged)
      case EventBufferFlag => Some(BufferFlag)
      case EventResourcesAcquired => Some(ResourcesAcquired)
      case EventDynamicResourcesAvailable => Some(DynamicResourcesAvailable)
      case EventOther(_) => None
  }

  /** Distinct recognised callbacks wake distinct flags. */
  lemma SignalInjective(a: Callback, b: Callback)
    requires Signal(a).Some? && Signal(a) == Signal(b)
    ensures a == b
  {
  }

  /** The callback that announces each flag; EVENT_EMPTY_BUFFER_DONE has none. */
  function Notifier(e: Event): (r: Option<Callback>)
    ensures r.None? <==> e == EmptyBufferDone
  {
    match e
    case Error => Some(Handler(EventError))
    case PortEnable => Some(Handler(EventCmdComplete(CommandPortEnable)))
    case PortDisable => Some(Handler(EventCmdComplete(CommandPortDisable)))
    case StateSet => Some(Handler(EventCmdComplete(CommandStateSet)))
    case Flush => Some(Handler(EventCmdComplete(CommandFlush)))
    case MarkBuffer => Some(Handler(EventCmdComplete(CommandMarkBuffer)))
    case Mark => Some(Handler(EventMark))
    case PortSettingsChanged => Some(Handler(EventPortSettingsChanged))
    case ParamOrConfigChanged => Some(Handler(EventParamOrConfigChanged))
    case BufferFlag => Some(Handler(EventBufferFlag))
    case ResourcesAcquired => Some(Handler(EventResourcesAcquired))
    case DynamicResourcesAvailable => Some(Handler(EventDynamicResourcesAvailable))
    case FillBufferDone => Some(BufferFilled)
    case EmptyBufferDone => None
  }

  /** `Notifier` and `Signal` are inverse: a flag is woken by exactly the
      callback that announces it. */
  lemma NotifierInvertsSignal(e: Event, cb: Callback)
    ensures Notifier(e) == Some(cb) <==> Signal(cb) == Some(e)
  {
  }

  /** What a callback leaves behind: the updated word and its return value. */
  datatype Handled = Handled(flags: Flags, status: OmxError)

  /** event_handler: wake the flag the OpenMAX IL event stands for (nothing for
      an unknown event or command) and return OMX_ErrorNone. */
  function EventHandler(flags: Flags, ev: OmxEvent): (h: Handled)
    ensures h.status == ErrorNone
    ensures forall e :: e in h.flags <==> e in flags || Signal(Handler(ev)) == Some(e)
    ensures |h.flags - flags| <= 1
  {
    match Signal(Handler(ev))
    case Some(e) => Handled(Wake(flags, e), ErrorNone)
    case None => Handled(flags, ErrorNone)
  }

  /** fill_buffer_done: wake EVENT_FILL_BUFFER_DONE and return OMX_ErrorNone. */
  function FillBufferDoneHandler(flags: Flags): (h: Handled)
    ensures h.status == ErrorNone
    ensures forall e :: e in h.flags <==> e in flags || e == FillBufferDone
  {
    Handled(Wake(flags, FillBufferDone), ErrorNone)
  }

  /** Run whichever callback the driver invoked. */
  function Handle(flags: Flags, cb: Callback): Flags {
    match cb
    case Handler(ev) => EventHandler(flags, ev).flags
    case BufferFilled => FillBufferDoneHandler(flags).flags
  }

  /** The word after a series of callbacks. */
  function Deliver(flags: Flags, cbs: seq<Callback>): Flags
    decreases |cbs|
  {
    if |cbs| == 0 then flags else Deliver(Handle(flags, cbs[0]), cbs[1..])
  }

  /** No callback ever wakes EVENT_EMPTY_BUFFER_DONE. */
  lemma {:induction false} EmptyBufferDoneNeverWoken(flags: Flags, cbs: seq<Callback>)
    requires EmptyBufferDone !in flags
    ensures EmptyBufferDone !in Deliver(flags, cbs)
    decreases |cbs|
  {
    if |cbs| > 0 {
      EmptyBufferDoneNeverWoken(Handle(flags, cbs[0]), cbs[1..]);
    }
  }

  /** So a wait on EVENT_EMPTY_BUFFER_DONE alone, starting from a quiet word,
      can only end because the error flag is pending. */
  lemma WaitOnEmptyBufferDoneEndsOnlyByError(cbs: seq<Callback>)
    ensures !Wait(Deliver({}, cbs), {EmptyBufferDone}).Blocked? ==>
              Error in Deliver({}, cbs) && EmptyBufferDone !in Deliver({}, cbs)
  {
    EmptyBufferDoneNeverWoken({}, cbs);
  }
}
