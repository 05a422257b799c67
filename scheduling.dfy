/**
 * The rules core zero follows to share itself between the context it runs, the context a miss
 * handler works for (the waiting slot) and a context taken from the queue (the next slot), and
 * the single data-cache reservation that keeps two of its contexts from racing on one line.
 * The slots hold references of any type `C`; the core instantiates it with its `Context` class.
 */
module Scheduling {
  import opened Wrappers

  /** The request `changeContext` acts on at the next clock cycle. */
  datatype ContextChange = SwapContexts | BringWaiting | NextContext | NoChange

  /** How a clock cycle ends: normally, or with the context switched (the thrown ContextChangeException). */
  datatype Signal = Proceed | Interrupted

  datatype Slots<C> = Slots(
    current: C,
    waiting: Option<C>,
    next: Option<C>,
    change: ContextChange,
    executionFinished: bool,
    instructionFinished: bool,
    contextFinished: bool,
    waitingForReservation: bool)

  /** A request is only posted when the slot it reads is filled. */
  predicate Ready<C>(s: Slots<C>) {
    (s.change == SwapContexts || s.change == BringWaiting ==> s.waiting.Some?)
    && (s.change == NextContext ==> s.next.Some?)
  }

  /** A swap that takes the context out in the middle of an instruction makes it repeat that instruction. */
  predicate Rewinds<C>(s: Slots<C>) {
    s.change == SwapContexts && !s.executionFinished && !s.instructionFinished
  }

  /** Whether a request is carried out (a swap is dropped once the core has finished). */
  predicate Applies<C>(s: Slots<C>) {
    s.change != NoChange && !(s.executionFinished && s.change == SwapContexts)
  }

  /** `changeContext` (CoreZero.java:91-139) on the slots and flags. */
  function ApplyChange<C>(s: Slots<C>): (r: (Slots<C>, Signal))
    requires Ready(s)
    ensures r.0.change == NoChange && Ready(r.0)
    ensures r.1 == Interrupted <==> Applies(s)
    ensures !Applies(s) ==> r.0 == s.(change := NoChange)
    ensures Applies(s) ==> r.0.instructionFinished && !r.0.contextFinished && !r.0.waitingForReservation
    ensures r.0.executionFinished == s.executionFinished
    ensures Applies(s) && s.change == SwapContexts ==>
              r.0.current == s.waiting.value && r.0.waiting == Some(s.current) && r.0.next == s.next
    ensures s.change == BringWaiting ==> r.0.current == s.waiting.value && r.0.waiting == None && r.0.next == s.next
    ensures s.change == NextContext ==> r.0.current == s.next.value && r.0.next == None && r.0.waiting == s.waiting
  {
    if !Applies(s) then (s.(change := NoChange), Proceed)
    else
      var moved :=
        match s.change
        case SwapContexts => s.(current := s.waiting.value, waiting := Some(s.current))
        case BringWaiting => s.(current := s.waiting.value, waiting := None)
        case NextContext => s.(current := s.next.value, next := None);
      (moved.(change := NoChange, contextFinished := false, waitingForReservation := false,
              instructionFinished := true), Interrupted)
  }

  /** A second swap puts both contexts back where they were. */
  lemma SwapTwiceRestores<C>(s: Slots<C>)
    requires s.change == SwapContexts && s.waiting.Some? && !s.executionFinished
    ensures var once := ApplyChange(s).0;
      var twice := ApplyChange(once.(change := SwapContexts)).0;
      twice.current == s.current && twice.waiting == s.waiting && twice.next == s.next
  {
  }

  /**
   * A carried-out change never loses a context: a swap keeps both, and the other changes drop
   * only the outgoing context (which the core has pushed to the queue or finished).
   */
  lemma SlotsConserved<C>(s: Slots<C>)
    requires Ready(s) && Applies(s)
    ensures var r := ApplyChange(s).0;
      s.change == SwapContexts ==>
        (multiset{r.current} + OptionSet(r.waiting) + OptionSet(r.next)
         == multiset{s.current} + OptionSet(s.waiting) + OptionSet(s.next))
    ensures var r := ApplyChange(s).0;
      s.change != SwapContexts ==>
        (multiset{r.current} + OptionSet(r.waiting) + OptionSet(r.next) + multiset{s.current}
         == multiset{s.current} + OptionSet(s.waiting) + OptionSet(s.next))
  {
  }

  function OptionSet<C>(o: Option<C>): (m: multiset<C>)
    ensures |m| == if o.Some? then 1 else 0
  {
    if o.Some? then multiset{o.value} else multiset{}
  }

  /**
   * `solvedMiss` (CoreZero.java:671-680): when a miss handler finishes, its context swaps back in
   * only if it is the older one, the running context neither finished nor waits for the
   * reservation, and nobody asked to bring the waiting context.
   */
  function SolvedMissRule(waitingIsOld: bool, contextFinished: bool, waitingForReservation: bool,
                          change: ContextChange): (r: ContextChange)
    ensures r == SwapContexts <==>
              change == SwapContexts
              || (waitingIsOld && !contextFinished && !waitingForReservation && change != BringWaiting)
    ensures r != SwapContexts ==> r == change
  {
    if waitingIsOld && !contextFinished && !waitingForReservation && change != BringWaiting then SwapContexts
    else change
  }

  /** The swap-back request is always carried out by the next clock cycle unless the core finished. */
  lemma SwapBackIsApplied<C>(s: Slots<C>, waitingIsOld: bool)
    requires s.waiting.Some? && Ready(s)
    requires SolvedMissRule(waitingIsOld, s.contextFinished, s.waitingForReservation, s.change) == SwapContexts
    requires !s.executionFinished
    ensures var t := s.(change := SwapContexts);
      ApplyChange(t).1 == Interrupted && ApplyChange(t).0.current == s.waiting.value
  {
  }

  /**
   * The slots `enterCacheMiss` leaves for its closing clock cycle (CoreZero.java:288-342): with
   * a waiting context a helper starts and BRING_WAITING is posted; with a helper already running
   * the context waits for the reservation; otherwise the queue's head becomes the next context
   * (a helper starts and NEXT_CONTEXT is posted) or, with an empty queue, the slot is cleared.
   */
  function Dispatched<C>(s: Slots<C>, helperRunning: bool, head: Option<C>): (d: Slots<C>)
    ensures d.current == s.current && d.waiting == s.waiting
    ensures d.executionFinished == s.executionFinished && d.instructionFinished == s.instructionFinished
    ensures d.contextFinished == s.contextFinished
  {
    if s.waiting.Some? then s.(change := BringWaiting)
    else if helperRunning then s.(waitingForReservation := true)
    else if head.Some? then s.(next := head, change := NextContext)
    else s.(next := None)
  }

  /**
   * Starting a helper always switches the context in the closing cycle, to the waiting context
   * or to the queue's head, and the switched-out context is not lost; without a helper started
   * the pending change is carried out as it was.
   */
  lemma DispatchSwitches<C>(s: Slots<C>, helperRunning: bool, head: Option<C>)
    requires Ready(s) && s.change != NextContext
    ensures Ready(Dispatched(s, helperRunning, head))
    ensures var (after, signal) := ApplyChange(Dispatched(s, helperRunning, head));
      (s.waiting.Some? ==> signal == Interrupted && after.current == s.waiting.value && after.waiting == None)
      && (s.waiting.None? && !helperRunning && head.Some? ==>
            signal == Interrupted && after.current == head.value && after.next == None)
      && (s.waiting.None? && (helperRunning || head.None?) ==>
            (signal == Interrupted <==> Applies(s)) && after.change == NoChange)
  {
  }

  // ---------------------------------------------------------------- the data-cache reservation

  /** `reservedDataCachePosition`: the reserved line and the context that reserved it (-1, -1 when free). */
  datatype Reservation = Reservation(position: int, contextNumber: int)

  const NO_RESERVATION: Reservation := Reservation(-1, -1)

  predicate ReservedByOther(r: Reservation, contextNumber: int) {
    r.contextNumber != -1 && r.contextNumber != contextNumber
  }

  /** `canMakeReservation` (CoreZero.java:470-481): fails only when another context holds the reservation. */
  function Reserve(r: Reservation, position: int, contextNumber: int): (res: Option<Reservation>)
    ensures res.None? <==> ReservedByOther(r, contextNumber)
    ensures res.Some? ==> res.value == Reservation(position, contextNumber)
  {
    if ReservedByOther(r, contextNumber) then None else Some(Reservation(position, contextNumber))
  }

  /**
   * The reservation after a data miss by context `contextNumber` on line `position`: untouched
   * when the miss needed no bus (`bypassed`), released when it was solved, and otherwise kept by
   * another holder or taken by the caller.
   */
  function ReservationAfter(r: Reservation, position: int, contextNumber: int, solved: bool, bypassed: bool)
    : (after: Reservation)
    ensures bypassed ==> after == r
    ensures !bypassed && solved ==> after == NO_RESERVATION
    ensures !bypassed && !solved ==>
              after == if Reserve(r, position, contextNumber).None? then r else Reserve(r, position, contextNumber).value
  {
    if bypassed then r
    else if solved then NO_RESERVATION
    else if ReservedByOther(r, contextNumber) then r
    else Reservation(position, contextNumber)
  }

  /** Once a context reserves, every other context is refused and the holder may reserve again. */
  lemma ReservationIsExclusive(r: Reservation, position: int, holder: nat, other: nat, position2: int)
    requires Reserve(r, position, holder).Some?
    ensures var held := Reserve(r, position, holder).value;
      (Reserve(held, position2, other).None? <==> other != holder)
      && Reserve(held, position2, holder) == Some(Reservation(position2, holder))
  {
  }

  /** Releasing the reservation lets any context reserve. */
  lemma ReleaseAdmitsAll(position: int, contextNumber: int)
    ensures Reserve(NO_RESERVATION, position, contextNumber) == Some(Reservation(position, contextNumber))
  {
  }
}
