# uKeep core in Dafny

uKeep is a client-side tracker of perishable food: each item has a name, an
emoji and an expiry date, the home page lists the items most urgent first, and
the user removes an item by swiping its card right ("consumed") or left
("wasted"). This project models the three parts of uKeep that carry logic and
proves what they promise:

- `item.dfy`, module `Models` (src/models/item.rs): the `Item` record, the
  signed number of days left, the three urgency tiers and their CSS classes,
  and the deadline text. Dates are integer day numbers and `today` is a
  parameter.
- `item_card.dfy`, module `Components` (src/components/item_card.rs): the swipe
  gesture of one card. The class `ItemCard` holds the four signals of the
  source (`dragX`, `startX`, `isDragging`, `pendingAction`) and a record
  `calls` of every call the card makes to its `on_consume` / `on_waste`
  handlers. Each pointer handler is a method. The function `Step` states the
  same transitions on values, and `Run` folds it over an event sequence for the
  lemmas about whole drags; `Run` folds from the end, so the state after a
  sequence is one `Step` on the state after all but its last event. Coordinates are exact reals.
- `home.dfy`, module `Pages` (src/pages/home.rs): the sorted list, the urgent
  count, removal by id, and the import callback. The class `Home` holds the
  inventory and the error banner. The library's stable `sort_by_key` is
  modelled by an in-place insertion sort on an array, which is proved equal to
  the functional stable sort `SortByDaysRemaining`.
- `wrappers.dfy`, module `Wrappers`: `Option` and `Result`.

Releasing or leaving a card resets the offset, the dragging flag and the armed
action, but not the start coordinate (src/components/item_card.rs:65-67 and
76-78 leave `start_x` alone). A second pointer-down while dragging restarts
tracking, because the handler has no guard.

## Model

| member | source | states |
|---|---|---|
| `Models.NewItem` | src/models/item.rs:16-43 | a new item stores the given id, name, emoji and expiry date unchanged, and the accessors return exactly those |
| `Models.DaysRemaining` | src/models/item.rs:45-49 | today plus the result is the expiry day; the result is negative exactly when the expiry date has passed and zero exactly on the expiry day |
| `Models.Tier` | src/models/item.rs:53-60 | error tier iff at most 1 day left (every expired item included), warning iff 2 to 3 days, safe iff at least 4 days |
| `Models.StatusClass` | src/models/item.rs:52-61 | "status-error" iff at most 1 day left, "status-warning" iff 2 to 3, "status-safe" iff at least 4 |
| `Models.TierMonotone` | src/models/item.rs:53-60 | fewer days left never gives a less urgent tier |
| `Models.DecimalRoundTrip` | src/models/item.rs:67-71 | the decimal rendering of a count reads back as that count |
| `Models.DeadlineRoundTrip` | src/models/item.rs:64-73 | parsing the deadline text gives back the signed day count, so expired texts carry the absolute count and remaining texts the count |
| `Models.DeadlineTextInjective` | src/models/item.rs:66-72 | two different day counts never render to the same deadline text |
| `Models.DeadlineBranches` | src/models/item.rs:66-72 | negative counts take the expired wording, zero exactly the due-today text, positive counts the remaining wording |
| `Models.DisplayDeadline` | src/models/item.rs:63-73 | the item's text is the due-today text exactly on its expiry day |
| `Models.SampleDataTiers` | src/utils.rs:8-18 | the sample items agree with the thresholds: -2 and +1 are red, +2 and +3 yellow, +5, +10 and +60 green; two days expired reads "已过期 2 天" |
| `Components.Classify` | src/components/item_card.rs:46-54 | consume iff offset at least 80, waste iff offset at most -80, nothing armed otherwise |
| `Components.Step` | src/components/item_card.rs:30-79 | every transition keeps the card invariant (armed action matches the offset; an idle card is at rest with nothing armed), makes at most one handler call, only on release, cancel or a button, and only with the card's id |
| `Components.Run` | src/components/item_card.rs:30-79 | any event sequence keeps the invariant, makes no more handler calls than it has releases, cancels and button presses, and passes only the card's id |
| `Components.PressAndMove` | src/components/item_card.rs:30-55 | a press at x0 then moves: the card is dragging from x0, the offset is the last coordinate minus x0, armed by the threshold, and no handler was called |
| `Components.DragAndRelease` | src/components/item_card.rs:30-68 | press, moves, then up or cancel: exactly one consume call when the final offset is at least 80, exactly one waste call when at most -80, none otherwise; the card ends at rest |
| `Components.DragAndLeave` | src/components/item_card.rs:71-79 | a drag that leaves the card calls nothing, whatever was armed, and ends at rest |
| `Components.SwipeScenario` | src/components/item_card.rs:30-68 | from 100 to 175 nothing is armed; on to 185 and release makes one consume call |
| `Components.Reveal` | src/components/item_card.rs:81-82 | the hint opacity lies in [0, 1], is the offset's share of 80 below the threshold and exactly 1 from the threshold on |
| `Components.RevealMonotone` | src/components/item_card.rs:82 | a larger absolute offset never gives a fainter hint |
| `Components.Transition` | src/components/item_card.rs:83-87 | the transition is "none" iff the card is being dragged |
| `Components.ItemCard.constructor` | src/components/item_card.rs:21-27 | a mounted card is bound to its item's id, at rest, with nothing armed and no calls made |
| `Components.ItemCard.OnPointerDown` | src/components/item_card.rs:30-35 | dragging, start at x, offset 0, nothing armed, even if already dragging; no call |
| `Components.ItemCard.OnPointerMove` | src/components/item_card.rs:38-55 | not dragging: nothing changes; dragging: offset is x minus start and the armed action follows the threshold both ways; no call |
| `Components.ItemCard.OnPointerUp` | src/components/item_card.rs:58-68 | exactly one consume call if consume was armed, one waste call if waste was armed, none otherwise; then offset 0, not dragging, nothing armed |
| `Components.ItemCard.OnPointerLeave` | src/components/item_card.rs:71-79 | not dragging: nothing changes; dragging: back at rest with nothing armed; never a call |
| `Components.ItemCard.OnConsumeButton` | src/components/item_card.rs:144-149 | one consume call with the card's id; gesture untouched |
| `Components.ItemCard.OnWasteButton` | src/components/item_card.rs:150-155 | one waste call with the card's id; gesture untouched |
| `Components.ItemCard.Handle` | src/components/item_card.rs:122-126 | the event wiring, with cancel sharing the up handler, performs exactly the transition and calls of `Step` |
| `Pages.SortPermutes` | src/pages/home.rs:26-27 | the sorted list is a permutation of the inventory |
| `Pages.SortSorts` | src/pages/home.rs:27 | the sorted list is non-decreasing in days remaining |
| `Pages.SortIsStable` | src/pages/home.rs:27 | items with equal days remaining keep their original relative order |
| `Pages.SortedGroupsUnique` | src/pages/home.rs:27 | a sorted list with the same equal-days groups as another sorted list is that list, so sortedness and stability fix the result |
| `Pages.SortByKey` | src/pages/home.rs:27 | the in-place sort leaves the vector sorted by days remaining and every equal-days group in its original order |
| `Pages.SortExample` | src/pages/home.rs:26-27 | items due in 5, -2, 0 and 3 days are listed as -2, 0, 3, 5 |
| `Pages.UrgentCount` | src/pages/home.rs:30-33 | the count is at most the list length, zero iff no item has at most 3 days left, the length iff every item does |
| `Pages.UrgentCountOfSorted` | src/pages/home.rs:26-33 | counting over the sorted list gives the count over the inventory |
| `Pages.UrgentIffNotSafe` | src/pages/home.rs:32 | an item counts as urgent exactly when its tier is not safe |
| `Pages.RemoveId` | src/pages/home.rs:37 | the remaining items are exactly those of the inventory whose id differs |
| `Pages.RemoveIdAppend` | src/pages/home.rs:37 | removal keeps the relative order of what remains |
| `Pages.RemoveIdKeepsOthers` | src/pages/home.rs:37 | every item with another id is kept as many times as it occurred |
| `Pages.RemoveAbsentId` | src/pages/home.rs:37 | removing an id that is not present leaves the inventory unchanged |
| `Pages.RemoveIdIdempotent` | src/pages/home.rs:37 | removing the same id twice is removing it once |
| `Pages.Home.SortedView` | src/pages/home.rs:26-33 | the rendered list is the stable sort of the inventory, sorted and a permutation, and the urgent count equals the inventory's |
| `Pages.Home.ConsumeItem` | src/pages/home.rs:36-38 | the inventory loses every item with the id and keeps the rest in order; the error banner is unchanged |
| `Pages.Home.WasteItem` | src/pages/home.rs:41-43 | exactly the same effect as consuming |
| `Pages.Home.Receive` | src/pages/home.rs:197-202 | a card's consume or waste call removes that id from the inventory |
| `Pages.SwipeRemovesItem` | src/pages/home.rs:197-202 | a drag on an item's card that ends armed in either direction removes the item; one that ends unarmed keeps the inventory |
| `Pages.Home.OnImportRead` | src/pages/home.rs:86-100 | decoded items replace the inventory wholesale and clear the error; a decode error or a read failure keeps the inventory and sets the matching message |

## Left out

- src/storage.rs (load, save, clear, export, JSON decode) is not part of this model: it wraps browser local storage, DOM downloads and serde, whose behaviour is not in this code. The decoder's result enters `Pages.Home.OnImportRead` as a parameter.
- src/pages/add_item.rs, src/main.rs, assets/sw.js, src/router.rs and src/state.rs are not part of this model: form glue, app start-up, auto-save, the service worker, a route enum and a context wrapper.
- The export handler (src/pages/home.rs:46-56), the settings and error-banner toggles, the hidden file input and FileReader plumbing, and all rendering markup and CSS strings are UI plumbing and are left out.
- The wall clock: `today` is a parameter. The source reads the clock at every `days_remaining` call, even inside the sort's key function; the model uses one `today` per render.
- Random UUID generation: ids are given to `Models.NewItem`.
- IEEE `f64` behaviour of pointer coordinates (NaN, rounding) is not modelled; coordinates and the reveal ratio are exact reals.
- The bounded range of calendar dates and of `i64` (including `i64::MIN.abs()`) is not modelled; day numbers are unbounded integers, which the date range keeps far from any overflow.
- The hint layers shown for a positive or negative offset are rendering only and are left out.
