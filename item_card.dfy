/** Swipe gesture of one item card (src/components/item_card.rs).

    A card tracks a horizontal drag with four pieces of state. Moving the
    pointer re-classifies the drag against the threshold as it goes; releasing
    commits whatever is armed by calling `on_consume` or `on_waste` with the
    card's item id. Pointer coordinates are exact reals. */
module Components {

  import opened Wrappers
  import opened Models

  /** Horizontal displacement, in pixels, that arms an action. */
  const SWIPE_THRESHOLD: real := 80.0

  datatype SwipeAction = Consume | Waste

  /** One call of the card's outbound handlers, with the id it passes. */
  datatype Notification = OnConsume(id: Uuid) | OnWaste(id: Uuid)

  /** What a card reacts to: the five pointer events of the draggable layer
      and the two hidden accessibility buttons. */
  datatype CardEvent =
    | PointerDown(x: real)
    | PointerMove(x: real)
    | PointerUp
    | PointerCancel
    | PointerLeave
    | ConsumeButton
    | WasteButton

  /** The four signals of a card. */
  datatype Gesture = Gesture(dragX: real, startX: real, isDragging: bool, pendingAction: Option<SwipeAction>)

  /** The signals' initial values when a card mounts. */
  const INITIAL: Gesture := Gesture(0.0, 0.0, false, None)

  /** Threshold classification of a drag offset (right swipe consumes, left
      swipe wastes). */
  function Classify(delta: real): (a: Option<SwipeAction>)
    ensures a == Some(Consume) <==> delta >= SWIPE_THRESHOLD
    ensures a == Some(Waste) <==> delta <= -SWIPE_THRESHOLD
    ensures a == None <==> -SWIPE_THRESHOLD < delta < SWIPE_THRESHOLD
  {
    if delta >= SWIPE_THRESHOLD then Some(Consume)
    else if delta <= -SWIPE_THRESHOLD then Some(Waste)
    else None
  }

  /** The card invariant: the armed action always matches the offset, and an
      idle card sits at rest with nothing armed. */
  predicate Consistent(g: Gesture)
  {
    && g.pendingAction == Classify(g.dragX)
    && (!g.isDragging ==> g.dragX == 0.0 && g.pendingAction == None)
  }

  /** The handler call made on release for what is armed. */
  function Commit(pending: Option<SwipeAction>, id: Uuid): seq<Notification>
  {
    match pending
    case Some(Consume) => [OnConsume(id)]
    case Some(Waste) => [OnWaste(id)]
    case None => []
  }

  /** The state after release or leave: at rest, not dragging, nothing armed.
      The start coordinate is not reset. */
  function Released(g: Gesture): Gesture
  {
    g.(dragX := 0.0, isDragging := false, pendingAction := None)
  }

  /** The effect of one event: the new signals and the handler calls made. */
  datatype Reaction = Reaction(next: Gesture, calls: seq<Notification>)

  /** True for the events that may call an outbound handler. */
  predicate MayNotify(e: CardEvent)
  {
    e.PointerUp? || e.PointerCancel? || e.ConsumeButton? || e.WasteButton?
  }

  /** One transition of the card, as the handlers and their wiring perform it. */
  function Step(g: Gesture, e: CardEvent, id: Uuid): (r: Reaction)
    ensures Consistent(g) ==> Consistent(r.next)
    ensures |r.calls| <= (if MayNotify(e) then 1 else 0)
    ensures forall n :: n in r.calls ==> n.id == id
  {
    match e
    case PointerDown(x) => Reaction(Gesture(0.0, x, true, None), [])
    case PointerMove(x) =>
      if !g.isDragging then Reaction(g, [])
      else
        var delta := x - g.startX;
        Reaction(g.(dragX := delta, pendingAction := Classify(delta)), [])
    case PointerUp => Reaction(Released(g), Commit(g.pendingAction, id))
    case PointerCancel => Reaction(Released(g), Commit(g.pendingAction, id))
    case PointerLeave => if !g.isDragging then Reaction(g, []) else Reaction(Released(g), [])
    case ConsumeButton => Reaction(g, [OnConsume(id)])
    case WasteButton => Reaction(g, [OnWaste(id)])
  }

  /** Number of events in `es` that may call a handler. */
  function NotifyingEvents(es: seq<CardEvent>): nat
  {
    if es == [] then 0
    else NotifyingEvents(es[..|es| - 1]) + (if MayNotify(es[|es| - 1]) then 1 else 0)
  }

  /** A sequence of events, processed in order: the reaction to the last
      event follows the run of all the events before it. */
  function Run(g: Gesture, es: seq<CardEvent>, id: Uuid): (r: Reaction)
    ensures Consistent(g) ==> Consistent(r.next)
    ensures |r.calls| <= NotifyingEvents(es)
    ensures forall n :: n in r.calls ==> n.id == id
    decreases |es|
  {
    if es == [] then Reaction(g, [])
    else
      var before := Run(g, es[..|es| - 1], id);
      var last := Step(before.next, es[|es| - 1], id);
      Reaction(last.next, before.calls + last.calls)
  }

  /** The pointer-move events for the coordinates `xs`, in order. */
  function Moves(xs: seq<real>): (es: seq<CardEvent>)
    ensures |es| == |xs|
  {
    if xs == [] then [] else Moves(xs[..|xs| - 1]) + [PointerMove(xs[|xs| - 1])]
  }

  /** A press at `x0` followed by moves through `xs`: the card is dragging from
      `x0`, its offset is the last coordinate minus `x0`, armed by the
      threshold, and no handler has been called. */
  lemma {:induction false} PressAndMove(g: Gesture, x0: real, xs: seq<real>, id: Uuid)
    ensures Run(g, [PointerDown(x0)] + Moves(xs), id).calls == []
    ensures xs == [] ==> Run(g, [PointerDown(x0)] + Moves(xs), id).next == Gesture(0.0, x0, true, None)
    ensures xs != [] ==>
      var delta := xs[|xs| - 1] - x0;
      Run(g, [PointerDown(x0)] + Moves(xs), id).next == Gesture(delta, x0, true, Classify(delta))
    decreases |xs|
  {
    var es := [PointerDown(x0)] + Moves(xs);
    if xs == [] {
      assert es == [PointerDown(x0)] && es[..0] == [];
    } else {
      var init := xs[..|xs| - 1];
      PressAndMove(g, x0, init, id);
      assert es[..|es| - 1] == [PointerDown(x0)] + Moves(init);
      assert es[|es| - 1] == PointerMove(xs[|xs| - 1]);
    }
  }

  /** The offset at the end of a drag from `x0` through `xs`. */
  function FinalOffset(x0: real, xs: seq<real>): real
  {
    if xs == [] then 0.0 else xs[|xs| - 1] - x0
  }

  /** A complete drag: press at `x0`, move through `xs`, release (up or
      cancel). Exactly one consume call when the final offset reaches the
      threshold, exactly one waste call when it reaches minus the threshold,
      none otherwise; the card ends at rest. */
  lemma DragAndRelease(g: Gesture, x0: real, xs: seq<real>, release: CardEvent, id: Uuid)
    requires release == PointerUp || release == PointerCancel
    ensures var r := Run(g, [PointerDown(x0)] + Moves(xs) + [release], id);
      && r.next == Gesture(0.0, x0, false, None)
      && (FinalOffset(x0, xs) >= SWIPE_THRESHOLD ==> r.calls == [OnConsume(id)])
      && (FinalOffset(x0, xs) <= -SWIPE_THRESHOLD ==> r.calls == [OnWaste(id)])
      && (-SWIPE_THRESHOLD < FinalOffset(x0, xs) < SWIPE_THRESHOLD ==> r.calls == [])
  {
    var es := [PointerDown(x0)] + Moves(xs) + [release];
    PressAndMove(g, x0, xs, id);
    assert es[..|es| - 1] == [PointerDown(x0)] + Moves(xs) && es[|es| - 1] == release;
  }

  /** A drag that leaves the card calls no handler, whatever was armed, and
      ends at rest. */
  lemma DragAndLeave(g: Gesture, x0: real, xs: seq<real>, id: Uuid)
    ensures var r := Run(g, [PointerDown(x0)] + Moves(xs) + [PointerLeave], id);
      r.calls == [] && r.next == Gesture(0.0, x0, false, None)
  {
    var es := [PointerDown(x0)] + Moves(xs) + [PointerLeave];
    PressAndMove(g, x0, xs, id);
    assert es[..|es| - 1] == [PointerDown(x0)] + Moves(xs) && es[|es| - 1] == PointerLeave;
  }

  /** Drag from 100 to 175 (offset 75, unarmed) then to 185 (offset 85, armed
      to consume) and release: one consume call. */
  lemma SwipeScenario(id: Uuid)
    ensures Run(INITIAL, [PointerDown(100.0), PointerMove(175.0)], id).next.pendingAction == None
    ensures Run(INITIAL, [PointerDown(100.0), PointerMove(175.0), PointerMove(185.0), PointerUp], id).calls
            == [OnConsume(id)]
  {
    DragAndRelease(INITIAL, 100.0, [175.0, 185.0], PointerUp, id);
    assert [PointerDown(100.0)] + Moves([175.0, 185.0]) + [PointerUp]
        == [PointerDown(100.0), PointerMove(175.0), PointerMove(185.0), PointerUp];
    PressAndMove(INITIAL, 100.0, [175.0], id);
    assert [PointerDown(100.0)] + Moves([175.0]) == [PointerDown(100.0), PointerMove(175.0)];
  }

  // ---------------------------------------------------------------------------
  // Rendering projections of the signals
  // ---------------------------------------------------------------------------

  function Abs(r: real): real
  {
    if r < 0.0 then -r else r
  }

  /** Opacity of the hint layer: the offset as a fraction of the threshold,
      clamped to 1. */
  function Reveal(dragX: real): (opacity: real)
    ensures 0.0 <= opacity <= 1.0
    ensures Abs(dragX) >= SWIPE_THRESHOLD ==> opacity == 1.0
    ensures Abs(dragX) < SWIPE_THRESHOLD ==> opacity * SWIPE_THRESHOLD == Abs(dragX)
  {
    var ratio := Abs(dragX) / SWIPE_THRESHOLD;
    if ratio < 1.0 then ratio else 1.0
  }

  /** A larger offset never shows a fainter hint. */
  lemma RevealMonotone(d1: real, d2: real)
    requires Abs(d1) <= Abs(d2)
    ensures Reveal(d1) <= Reveal(d2)
  {
  }

  /** CSS transition of the draggable layer: none while dragging, a snap-back
      otherwise. */
  function Transition(isDragging: bool): (t: string)
    ensures t == "none" <==> isDragging
  {
    if isDragging then "none" else "transform 200ms ease-out"
  }

  // ---------------------------------------------------------------------------
  // The card component
  // ---------------------------------------------------------------------------

  class ItemCard {
    const itemId: Uuid
    var dragX: real
    var startX: real
    var isDragging: bool
    var pendingAction: Option<SwipeAction>
    /** Every call this card has made to `on_consume` or `on_waste`, oldest first. */
    var calls: seq<Notification>

    function State(): Gesture
      reads this
    {
      Gesture(dragX, startX, isDragging, pendingAction)
    }

    predicate Valid()
      reads this
    {
      Consistent(State())
    }

    constructor (item: Item)
      ensures itemId == item.id && State() == INITIAL && calls == [] && Valid()
    {
      itemId := item.id;
      dragX, startX, isDragging, pendingAction := 0.0, 0.0, false, None;
      calls := [];
    }

    /** Starts tracking at `x`; a second press while dragging restarts it. */
    method OnPointerDown(x: real)
      requires Valid()
      modifies this
      ensures Valid()
      ensures isDragging && startX == x && dragX == 0.0 && pendingAction == None
      ensures calls == old(calls)
    {
      isDragging := true;
      startX := x;
      dragX := 0.0;
      pendingAction := None;
    }

    /** Follows the pointer while dragging and re-arms against the threshold. */
    method OnPointerMove(x: real)
      requires Valid()
      modifies this
      ensures Valid()
      ensures !old(isDragging) ==> State() == old(State())
      ensures old(isDragging) ==>
        && dragX == x - startX && startX == old(startX) && isDragging
        && (pendingAction == Some(Consume) <==> dragX >= SWIPE_THRESHOLD)
        && (pendingAction == Some(Waste) <==> dragX <= -SWIPE_THRESHOLD)
        && (pendingAction == None <==> -SWIPE_THRESHOLD < dragX < SWIPE_THRESHOLD)
      ensures calls == old(calls)
    {
      if !isDragging {
        return;
      }
      var delta := x - startX;
      dragX := delta;
      if delta >= SWIPE_THRESHOLD {
        pendingAction := Some(Consume);
      } else if delta <= -SWIPE_THRESHOLD {
        pendingAction := Some(Waste);
      } else {
        pendingAction := None;
      }
    }

    /** Commits what is armed, then resets to rest. */
    method OnPointerUp()
      requires Valid()
      modifies this
      ensures Valid()
      ensures old(pendingAction) == Some(Consume) ==> calls == old(calls) + [OnConsume(itemId)]
      ensures old(pendingAction) == Some(Waste) ==> calls == old(calls) + [OnWaste(itemId)]
      ensures old(pendingAction) == None ==> calls == old(calls)
      ensures dragX == 0.0 && !isDragging && pendingAction == None && startX == old(startX)
    {
      if pendingAction.Some? {
        match pendingAction.value
        case Consume => calls := calls + [OnConsume(itemId)];
        case Waste => calls := calls + [OnWaste(itemId)];
      }
      dragX := 0.0;
      isDragging := false;
      pendingAction := None;
    }

    /** Abandons a drag that leaves the card: resets, calls nothing. */
    method OnPointerLeave()
      requires Valid()
      modifies this
      ensures Valid()
      ensures !old(isDragging) ==> State() == old(State())
      ensures old(isDragging) ==> dragX == 0.0 && !isDragging && pendingAction == None && startX == old(startX)
      ensures calls == old(calls)
    {
      if !isDragging {
        return;
      }
      dragX := 0.0;
      isDragging := false;
      pendingAction := None;
    }

    /** The hidden "consumed" button: calls the handler, gesture untouched. */
    method OnConsumeButton()
      requires Valid()
      modifies this`calls
      ensures Valid()
      ensures calls == old(calls) + [OnConsume(itemId)]
    {
      calls := calls + [OnConsume(itemId)];
    }

    /** The hidden "wasted" button: calls the handler, gesture untouched. */
    method OnWasteButton()
      requires Valid()
      modifies this`calls
      ensures Valid()
      ensures calls == old(calls) + [OnWaste(itemId)]
    {
      calls := calls + [OnWaste(itemId)];
    }

    /** The event wiring of the card: pointer-cancel shares the pointer-up
        handler. Agrees with `Step`. */
    method Handle(e: CardEvent)
      requires Valid()
      modifies this
      ensures Valid()
      ensures State() == Step(old(State()), e, itemId).next
      ensures calls == old(calls) + Step(old(State()), e, itemId).calls
    {
      match e
      case PointerDown(x) => OnPointerDown(x);
      case PointerMove(x) => OnPointerMove(x);
      case PointerUp => OnPointerUp();
      case PointerCancel => OnPointerUp();
      case PointerLeave => OnPointerLeave();
      case ConsumeButton => OnConsumeButton();
      case WasteButton => OnWasteButton();
    }
  }
}
