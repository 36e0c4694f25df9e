# EasySheet: a Dafny model of the bottom sheet's position logic

EasySheet is a SwiftUI "bottom sheet": a surface that slides up from the
bottom of the screen, rests at one of several detents (fractions of the
container height), follows a vertical drag, snaps to the nearest detent when
the drag ends or closes when dragged low enough, and shrinks the content
behind it while its top edge is above the medium detent and below the screen
top (which includes resting at the large detent).

This project models the arithmetic and the event handling of
`EasySheet/EasySheetScreenCover.swift` over exact `real` numbers:

- `optional.dfy` — `Optional.Option`, Swift's `Optional` with `??` as `GetOr`.
- `detents.dfy` — `Detents`: the `SheetDetends` enum and its `value`, the
  resolution of a detent list into offsets `-(value * height)`, and the
  "lowest" threshold (`max()` of the offsets, or `height * 0.2`).
- `closest.dfy` — `Closest`: `closestMatch` as a fold over prefixes
  (`ClosestMatch`) and as a loop (`FindClosest`), proved to return the value
  at the earliest index of minimal distance, and nothing only for an empty list.
- `scale.dfy` — `Scale`: the background scale factor computed from the
  surface's live top edge `minY`, its bounds and monotonicity, and the
  container's display effects (dim overlay, dark scheme, corner radius).
- `sheet.dfy` — `Sheet`: the state a presented sheet keeps (`offset`,
  `lastOffset`, the container's `scaleFactor`, the caller's `isPresented`, and
  the number of scheduled close continuations) and a pure `Step` per event:
  present, appear, drag update, drag end, dismiss, the deferred reset, the
  delayed unmount, and a geometry measurement. `Run` applies a trace.

Deferred work (`DispatchQueue.main.async`, `asyncAfter(0.3)`) is modelled as
explicit later events: `close()` only increments `pendingReset` and
`pendingUnmount`; the `ResetFires` event sets offset 0 and scale 1, the
`UnmountFires` event sets `isPresented` to false. A firing with nothing
scheduled changes nothing. The container height and the surface's `minY` are
inputs (`Config.height`, `Measure(minY)`). Events that need a mounted surface
(appear, drags, dismiss, measure) change nothing while `isPresented` is false.

Quirks of the code that the model keeps:

- The dismiss test on drag end is `offset > max(offsets) / 2`. As offsets are
  negative, `max` is the detent of SMALLEST magnitude, not the largest
  (`Sheet.ThresholdIsShallowestDetent`).
- With an empty detent list the threshold is the positive `height * 0.2`, the
  initial offset is the raw fraction `0.93` (not scaled by the height), and a
  drag end snaps to 0.
- On drag end the snapped offset is assigned even when a close is requested;
  the reset to 0 arrives later as its own event (`Sheet.DragEndDismisses`).
- The background scale is not monotone across `minY = 0`: at or above the
  screen top it is 1 again. Monotonicity is stated for `minY > 0`.
- The dark colour scheme is forced when `!(scale > 0.99)` but the dim overlay
  only when `scale < 0.99`; at exactly 0.99 the scheme is dark without overlay
  (`Scale.DarkWithoutOverlayAtThreshold`).
- The large detent (0.93) lies beyond the drag limit (0.9 of the height). In a
  container taller than 4000/3 points, the first drag update from the large
  detent, even a zero-length one, moves the sheet down to the limit
  (`Sheet.LargeBeyondDragLimit`).
- In a container shorter than 8/0.07 points the formula enlarges the
  background (scale > 1), and the scale falls as the sheet is lowered; the
  scale bounds and monotonicity are stated for taller containers only.
- A re-presented sheet gets a fresh offset of 0 but keeps any close
  continuations still scheduled, so a stale delayed unmount still unmounts it.

## Model

| member | source | states |
|---|---|---|
| Detents.Value | EasySheet/EasySheetScreenCover.swift:12-25 | small is 0.2, medium 0.55, large 0.93; a custom fraction is returned unchanged |
| Detents.NamedDetentsOrdered | EasySheet/EasySheetScreenCover.swift:18-25 | the named fractions lie in (0, 1) and increase strictly from small to large |
| Detents.Resolve | EasySheet/EasySheetScreenCover.swift:88 | one offset per detent, same order, element i equal to -(value of detent i * height) |
| Detents.ResolveAppend | EasySheet/EasySheetScreenCover.swift:88 | resolving a concatenation is the concatenation of the resolutions, so each offset depends only on its own detent |
| Detents.ResolveBounds | EasySheet/EasySheetScreenCover.swift:88 | with fractions in [0, 1] and a non-negative height every offset lies in [-height, 0] |
| Detents.Max | EasySheet/EasySheetScreenCover.swift:89 | the result is an element of the list and no element exceeds it |
| Detents.LowestThreshold | EasySheet/EasySheetScreenCover.swift:89 | the threshold is the largest offset when there are detents, and height * 0.2 when there are none |
| Detents.ResolveNamedExample | EasySheet/EasySheetScreenCover.swift:88 | small, medium, large at height 1000 resolve to -200, -550, -930 |
| Closest.ClosestMatch | EasySheet/EasySheetScreenCover.swift:166-180 | the scan returns nothing exactly for an empty list, otherwise one of the list's values |
| Closest.EarliestClosestUnique | EasySheet/EasySheetScreenCover.swift:173 | at most one index is the earliest one at minimal distance |
| Closest.ExtendKeepsEarliest | EasySheet/EasySheetScreenCover.swift:172-175 | a later value that is not strictly nearer does not displace the current answer |
| Closest.ExtendReplacesEarliest | EasySheet/EasySheetScreenCover.swift:172-175 | a later value that is strictly nearer becomes the answer |
| Closest.ClosestMatchIsEarliestClosest | EasySheet/EasySheetScreenCover.swift:166-180 | on a non-empty list the scan returns the value at the earliest index of minimal distance: no value is nearer and every earlier value is strictly farther |
| Closest.ClosestMatchIsNearest | EasySheet/EasySheetScreenCover.swift:166-180 | the value returned is at least as near to the input as every value in the list |
| Closest.ClosestMatchSpec | EasySheet/EasySheetScreenCover.swift:166-180 | nothing iff the list is empty; Some(v) iff v is the value at the earliest closest index (both directions) |
| Closest.FindClosest | EasySheet/EasySheetScreenCover.swift:166-180 | the forEach loop computes the same answer as the fold: nothing iff empty, else the earliest nearest value |
| Closest.ClosestMatchExample | EasySheet/EasySheetScreenCover.swift:166-180 | among -200, -550, -930 the value nearest to -600 is -550 |
| Scale.ScaleFactor | EasySheet/EasySheetScreenCover.swift:113-124 | the scale is exactly 1 whenever the top edge is outside (0, height * 0.45) |
| Scale.TallEnoughPositive | EasySheet/EasySheetScreenCover.swift:117-121 | a container whose large-detent gap is at least 8 points has positive height and a smallest scale in (0, 1] |
| Scale.PaddingBounds | EasySheet/EasySheetScreenCover.swift:118-120 | for height >= 8 / 0.07, inside the range the padding lies in [0, height * 0.07 - 8] |
| Scale.ScaleFactorBounds | EasySheet/EasySheetScreenCover.swift:117-124 | for height >= 8 / 0.07 the scale lies in [1 - (0.07 * height - 8) / height, 1] |
| Scale.ShrinksIffInRange | EasySheet/EasySheetScreenCover.swift:119-124 | for height > 8 / 0.07 the background is shrunk (scale < 1) if and only if the top edge is inside (0, height * 0.45) |
| Scale.ScaleFactorMonotone | EasySheet/EasySheetScreenCover.swift:119-121 | for height >= 8 / 0.07 and top edges below the screen top, a lower sheet never gives a smaller scale |
| Scale.ScaleFactorExample | EasySheet/EasySheetScreenCover.swift:117-121 | height 1000 and top edge 200 give starting height 450, maximal padding 70 and scale 1 - 15500/450000 |
| Scale.DarkScheme | EasySheet/EasySheetScreenCover.swift:210-218 | above 0.99 the scheme is not forced dark; a dimmed background forces the dark scheme, and a dark background is masked with corner radius 12 |
| Scale.DarkWithoutOverlayAtThreshold | EasySheet/EasySheetScreenCover.swift:210-216 | at exactly 0.99 the scheme is dark while no overlay is drawn |
| Scale.DisplayAtRest | EasySheet/EasySheetScreenCover.swift:210-218 | with the top edge outside the range there is no overlay, no forced dark scheme and corner radius 0 |
| Sheet.CallDismiss | EasySheet/EasySheetScreenCover.swift:30-43 | the default dismiss action changes nothing; the sheet's own action schedules one reset and one unmount and changes nothing else |
| Sheet.RequestClose | EasySheet/EasySheetScreenCover.swift:182-192 | closing schedules exactly one reset and one delayed unmount and changes nothing else yet |
| Sheet.OnPresent | EasySheet/EasySheetScreenCover.swift:221-225 | presenting an already presented sheet changes nothing; otherwise the flag turns true, the fresh surface starts with offset and lastOffset 0, and scale and scheduled continuations carry over |
| Sheet.OnAppear | EasySheet/EasySheetScreenCover.swift:132-136 | offset and lastOffset both become the first detent's offset, or the raw 0.93 without detents; nothing else changes |
| Sheet.OnDragUpdate | EasySheet/EasySheetScreenCover.swift:153-164 | the offset is translation + lastOffset unless that is below -(0.9 * height) - 40, then -(0.9 * height); so it is never below -(0.9 * height) - 40 nor below the finger; only the offset changes |
| Sheet.LargeBeyondDragLimit | EasySheet/EasySheetScreenCover.swift:140-161 | for height > 4000/3 a zero-length drag update from the large detent moves the sheet down to -(0.9 * height) |
| Sheet.OnDragEnd | EasySheet/EasySheetScreenCover.swift:141-147 | the offset snaps to the detent at the earliest index of minimal distance (0 without detents) and lastOffset equals it; a close is scheduled iff dismissible and offset > lowest / 2 |
| Sheet.OnResetFires | EasySheet/EasySheetScreenCover.swift:183-188 | a scheduled reset sets offset 0 and scale 1, consumes one scheduled reset and changes nothing else (the scheduled unmount survives); with none scheduled nothing changes |
| Sheet.OnUnmountFires | EasySheet/EasySheetScreenCover.swift:189-191 | a scheduled unmount sets the presented flag false, consumes one scheduled unmount and changes nothing else; with none scheduled nothing changes |
| Sheet.Step | EasySheet/EasySheetScreenCover.swift:112-125 | an unmounted surface ignores appear, drags, dismiss and measure; only presenting and the scheduled continuations act on it, and presenting leaves the flag true; a measurement on a mounted surface sets only the scale, to the scale factor of the measured top edge |
| Sheet.ThresholdIsShallowestDetent | EasySheet/EasySheetScreenCover.swift:88-89 | with well-formed detents the dismiss threshold has the smallest magnitude of all detent offsets |
| Sheet.DragUpdateLatestWins | EasySheet/EasySheetScreenCover.swift:138-140 | a later drag update overrides an earlier one, since both start from lastOffset |
| Sheet.StepKeepsScale | EasySheet/EasySheetScreenCover.swift:113-124 | for height >= 8 / 0.07, every event keeps the scale factor within [MinScale, 1] |
| Sheet.RunKeepsScale | EasySheet/EasySheetScreenCover.swift:113-124 | for height >= 8 / 0.07, every trace keeps the scale factor within [MinScale, 1], hence in (0, 1] |
| Sheet.StepKeepsResting | EasySheet/EasySheetScreenCover.swift:132-146 | every event keeps lastOffset at a resting position: a detent offset, 0, or 0.93 without detents |
| Sheet.RunKeepsResting | EasySheet/EasySheetScreenCover.swift:132-146 | every drag starts from a resting position, along any trace |
| Sheet.NotDismissibleStaysPresented | EasySheet/EasySheetScreenCover.swift:143 | on a sheet that is not dismissible, no trace without the dismiss action ever schedules an unmount or clears the presented flag |
| Sheet.DismissThenUnmount | EasySheet/EasySheetScreenCover.swift:182-192 | dismissing changes nothing visible at first; the reset brings offset 0 and scale 1 with the sheet still presented; the delayed unmount then clears the flag |
| Sheet.DragEndDismisses | EasySheet/EasySheetScreenCover.swift:141-147 | a low drag end on a dismissible sheet first rests at the snapped detent, then the deferred events reset and unmount it |
| Sheet.OpenLargeExample | EasySheet/EasySheetScreenCover.swift:132-136 | with the default detent list [large], presenting and appearing puts the sheet at -0.93 * height with the background unscaled |
| Sheet.SnapExample | EasySheet/EasySheetScreenCover.swift:138-147 | resting at small (-200) in a 1000-point container, dragging up 400 gives -600 and releasing snaps to -550 without closing |

## Left out

- View bodies and layout (`ZStack`, `VStack`, the grabber `Capsule`, colours, `RoundedCorner` paths): rendering with no checkable behaviour beyond the display predicates modelled in `Scale`.
- `GeometryReader` measurement: the container height and the surface's top edge are inputs; the model does not derive `minY` from the offset.
- Timing and concurrency: `DispatchQueue.main.async`, `asyncAfter` and the 300 ms delay are explicit events in a trace; their real ordering in time is not modelled, and the live drag update (itself dispatched asynchronously) is applied at once.
- `withAnimation`: animated assignments are instantaneous state changes.
- The `@GestureState` translation is folded into the `DragUpdate` event; its reset at gesture end has no effect on the modelled state.
- Environment propagation of `easyDismiss`: only the effect of invoking the action is modelled (`CallDismiss`).
- `CGFloat`/`Double` floating point: all arithmetic is exact `real`; rounding is not modelled.
- Stacking several `easySheet` attachments: each attachment owns its own state value here, so independence holds by construction and is not stated as a lemma.
- Event order: a trace may order events in ways the run loop excludes (a reset scheduled with `main.async` firing after the 0.3 s unmount, or after a re-present, where it would zero the new surface's offset); the model does not restrict traces to the run loop's orderings.
- The demo screens in `EasySheet/ContentView.swift` contain no logic of their own.
