// The external-interrupt handler `_ext_handler`, in its two versions: the
// example one of the common device sources, which claims the interrupt,
// signals on the output GPIO, acknowledges the interrupting device and
// completes; and the placeholder of the runtime library, which only claims
// and completes. The PLIC accesses go through the PLIC driver; the other
// device routines it calls are recorded as calls, in order.
module Dispatch {
  import opened Mmio
  import opened Plic

  /** The LEDs the handler toggles. */
  datatype Pin = Pin0 | Pin1

  /** What the handler does, in the order it does it. */
  datatype Event =
    | Claimed(id: bv32)          // `plic_claim` returned `id`
    | GpioOutInit                // `xlnx_gpio_out_init()`
    | GpioOutToggle(pin: Pin)    // `xlnx_gpio_out_toggle(pin)`
    | GpioInClearInt             // `xlnx_gpio_in_clear_int()`
    | TimClearInt                // `xlnx_tim_clear_int()`
    | Completed(id: bv32)        // `plic_complete(id)`

  /** PLIC sources of the platform's devices, as the handler's cases use them. */
  const GPIO_IN_SOURCE: bv32 := 1
  const TIMER_SOURCE: bv32 := 2

  /** The device calls of the `switch` for a claimed id; `embedded` is the `IS_EMBEDDED` build flag. */
  function Actions(id: bv32, embedded: bool): seq<Event>
  {
    if id == GPIO_IN_SOURCE && embedded then [GpioOutToggle(Pin0), GpioInClearInt]
    else if id == TIMER_SOURCE then [GpioOutToggle(Pin1), TimClearInt]
    else []
  }

  /** The whole run of the example handler for a claimed id. */
  function Handling(id: bv32, embedded: bool): seq<Event>
  {
    [Claimed(id), GpioOutInit] + Actions(id, embedded) + [Completed(id)]
  }

  /** The whole run of the placeholder handler: its `switch` does nothing for any id. */
  function PlaceholderHandling(id: bv32): seq<Event>
  {
    [Claimed(id), Completed(id)]
  }

  /**
   * The claim/complete protocol of one PLIC context (RISC-V PLIC
   * Specification 1.0.0, interrupt claim and completion), refined by the
   * platform's wiring: a hart is idle or serving the id it claimed; while
   * serving, it may drive the LEDs and acknowledge the device behind the
   * claimed source only; completing returns it to idle and must name the
   * claimed id. Anything else breaks the protocol for good.
   */
  datatype Phase = Idle | Serving(id: bv32) | Broken

  function Next(p: Phase, e: Event): Phase
  {
    match (p, e)
    case (Idle, Claimed(id)) => Serving(id)
    case (Serving(id), GpioOutInit) => p
    case (Serving(id), GpioOutToggle(_)) => p
    case (Serving(id), GpioInClearInt) => if id == GPIO_IN_SOURCE then p else Broken
    case (Serving(id), TimClearInt) => if id == TIMER_SOURCE then p else Broken
    case (Serving(id), Completed(c)) => if c == id then Idle else Broken
    case _ => Broken
  }

  /** The phase after a sequence of events. */
  function Run(p: Phase, t: seq<Event>): Phase
    decreases |t|
  {
    if t == [] then p else Run(Next(p, t[0]), t[1..])
  }

  /** Handler runs back to back, one per claimed id. */
  function Runs(ids: seq<bv32>, embedded: bool): seq<Event>
    decreases |ids|
  {
    if ids == [] then [] else Runs(ids[..|ids| - 1], embedded) + Handling(ids[|ids| - 1], embedded)
  }

  /** Running two pieces of a trace is running them one after the other. */
  lemma {:induction false} RunAppend(p: Phase, a: seq<Event>, b: seq<Event>)
    ensures Run(p, a + b) == Run(Run(p, a), b)
    decreases |a|
  {
    if a != [] {
      assert (a + b)[0] == a[0] && (a + b)[1..] == a[1..] + b;
      RunAppend(Next(p, a[0]), a[1..], b);
    } else {
      assert a + b == b;
    }
  }

  /**
   * One run of the example handler claims exactly once, first; completes
   * exactly once, last, with the claimed id; initialises the output GPIO
   * right after the claim; and drives devices only for ids 1 and 2.
   */
  lemma HandlingShape(id: bv32, embedded: bool)
    ensures var t := Handling(id, embedded);
      t[0] == Claimed(id) && t[1] == GpioOutInit && t[|t| - 1] == Completed(id) &&
      (forall k :: 0 < k < |t| ==> !t[k].Claimed?) &&
      (forall k :: 0 <= k < |t| - 1 ==> !t[k].Completed?)
    ensures |Handling(id, embedded)| == 3 <==> !(id == GPIO_IN_SOURCE && embedded) && id != TIMER_SOURCE
  {
  }

  /** Running a single event is one step. */
  lemma RunOne(p: Phase, e: Event)
    ensures Run(p, [e]) == Next(p, e)
  {
    assert [e][1..] == [];
  }

  /** Running two events is two steps. */
  lemma RunTwo(p: Phase, e: Event, f: Event)
    ensures Run(p, [e, f]) == Next(Next(p, e), f)
  {
    RunAppend(p, [e], [f]);
    assert [e] + [f] == [e, f];
    RunOne(p, e);
    RunOne(Next(p, e), f);
  }

  /** While serving `id`, the device calls of its `switch` case keep the protocol. */
  lemma ActionsKeepServing(id: bv32, embedded: bool)
    ensures Run(Serving(id), Actions(id, embedded)) == Serving(id)
  {
    var a := Actions(id, embedded);
    if a != [] {
      RunTwo(Serving(id), a[0], a[1]);
      assert a == [a[0], a[1]];
    }
  }

  /** From idle, a run of the example handler follows the protocol and ends idle, whatever the id. */
  lemma HandlingFollowsProtocol(id: bv32, embedded: bool)
    ensures Run(Idle, Handling(id, embedded)) == Idle
  {
    var head: seq<Event> := [Claimed(id), GpioOutInit];
    RunTwo(Idle, Claimed(id), GpioOutInit);
    RunAppend(Idle, head, Actions(id, embedded));
    ActionsKeepServing(id, embedded);
    RunAppend(Idle, head + Actions(id, embedded), [Completed(id)]);
    RunOne(Serving(id), Completed(id));
  }

  /** Any number of handler runs back to back keep the protocol: every claim is completed before the next. */
  lemma {:induction false} RunsFollowProtocol(ids: seq<bv32>, embedded: bool)
    ensures Run(Idle, Runs(ids, embedded)) == Idle
    decreases |ids|
  {
    if ids != [] {
      RunsFollowProtocol(ids[..|ids| - 1], embedded);
      RunAppend(Idle, Runs(ids[..|ids| - 1], embedded), Handling(ids[|ids| - 1], embedded));
      HandlingFollowsProtocol(ids[|ids| - 1], embedded);
    }
  }

  /** The placeholder handler follows the protocol too, and touches no device. */
  lemma PlaceholderFollowsProtocol(id: bv32)
    ensures Run(Idle, PlaceholderHandling(id)) == Idle
    ensures forall e :: e in PlaceholderHandling(id) ==> e.Claimed? || e.Completed?
  {
    RunTwo(Idle, Claimed(id), Completed(id));
  }

  /**
   * The hart's view of the platform: the PLIC driver and the bus it uses,
   * and the calls made so far.
   */
  class Board {
    const plic: Controller
    const bus: Bus
    var trace: seq<Event>

    constructor (plic: Controller, bus: Bus)
      ensures this.plic == plic && this.bus == bus && trace == []
    {
      this.plic := plic;
      this.bus := bus;
      trace := [];
    }

    method Claim() returns (id: bv32)
      modifies this, bus
      ensures id == PeekIn(old(bus.mem), ClaimReg(plic.base))
      ensures bus.log == old(bus.log) + [Read32(ClaimReg(plic.base), id)] && bus.mem == old(bus.mem)
      ensures trace == old(trace) + [Claimed(id)]
    {
      id := plic.Claim(bus);
      trace := trace + [Claimed(id)];
    }

    method Complete(id: bv32)
      modifies this, bus
      ensures bus.log == old(bus.log) + [Write32(ClaimReg(plic.base), id)]
      ensures bus.mem == old(bus.mem)[ClaimReg(plic.base) := id]
      ensures trace == old(trace) + [Completed(id)]
    {
      plic.Complete(bus, id);
      trace := trace + [Completed(id)];
    }

    /** A device routine outside this model: only the call is recorded. */
    method Call(e: Event)
      requires !e.Claimed? && !e.Completed?
      modifies this
      ensures trace == old(trace) + [e]
    {
      trace := trace + [e];
    }

    /** `_ext_handler` of the common device sources. */
    method ExtHandler(embedded: bool)
      modifies this, bus
      ensures var id := PeekIn(old(bus.mem), ClaimReg(plic.base));
        trace == old(trace) + Handling(id, embedded) &&
        bus.log == old(bus.log) + [Read32(ClaimReg(plic.base), id), Write32(ClaimReg(plic.base), id)] &&
        bus.mem == old(bus.mem)[ClaimReg(plic.base) := id]
    {
      var id := Claim();
      Call(GpioOutInit);
      if id == GPIO_IN_SOURCE {
        if embedded {
          Call(GpioOutToggle(Pin0));
          Call(GpioInClearInt);
        }
      } else if id == TIMER_SOURCE {
        Call(GpioOutToggle(Pin1));
        Call(TimClearInt);
      }
      assert trace == old(trace) + [Claimed(id), GpioOutInit] + Actions(id, embedded);
      Complete(id);
    }

    /** `_ext_handler` of the runtime library: claim, an empty `switch`, complete. */
    method PlaceholderExtHandler()
      modifies this, bus
      ensures var id := PeekIn(old(bus.mem), ClaimReg(plic.base));
        trace == old(trace) + PlaceholderHandling(id) &&
        bus.log == old(bus.log) + [Read32(ClaimReg(plic.base), id), Write32(ClaimReg(plic.base), id)] &&
        bus.mem == old(bus.mem)[ClaimReg(plic.base) := id]
    {
      var id := Claim();
      Complete(id);
    }
  }
}
