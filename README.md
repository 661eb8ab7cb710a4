# use-ripple, modelled in Dafny

use-ripple is a React hook that draws a Material-style ripple. A circle
spreads from the pointer over a host element, fades, and then removes itself.
This project models the logic in `ripple.ts`:

- the option merge of `useRipple` and `customRipple`;
- the trigger closure, which prepares the host, creates and centres the
  ripple, appends it, and arms its cancellation;
- the `cancelRipple` closure and the document's `mouseup`/`touchend`
  listeners;
- `applyStyles`, `createRipple`, `centerElementToPointer` and
  `cancelRippleAnimation`.

It also proves what the code promises about these parts.

Modules, one file each:

- `Wrappers` holds `Option`.
- `Lists` holds `Without`, which takes every occurrence of a value out of a sequence, and `Distinct`, which says no value occurs twice.
- `Styles` holds the inline-style map and the `Written` fold that specifies `applyStyles`. Its lemmas cover last-write-wins, unlisted properties and the key set.
- `Geometry` covers the pointer offset, the two legs of the radius, and the coverage of the host's corners.
- `Dom` holds `Element` (inline style, parent, children, transition-end listeners), `RefObject`, `getComputedStyle(...).position` and `applyStyles`.
- `Options` covers the default options, the object spread, `useRipple`'s resolution and `customRipple`'s layering.
- `Ripple` covers host preparation, the ripple's styles, the cancel delay, the browser's frame and timer queues (`Scheduler`), the document's release listeners (`Document`), the cancel closure (`Canceller`), `createRipple`, `centerElementToPointer`, `cancelRippleAnimation`, and the hook with its trigger (`RippleHook`).
- `Scenarios` holds three client methods. They drive a press, a release, the fade and the removal using only the contracts above.

The model makes these choices about the browser:

- Browser services are explicit state or parameters:
  - `Date.now()` is the `now` parameter;
  - `getBoundingClientRect()` is a `Box` parameter;
  - `requestAnimationFrame` and `setTimeout` append to the two queues of a `Scheduler`, and client code drains those queues in order;
  - `document.addEventListener` edits a `Document`'s registration list.
- A style value is a `CssValue`. The numbers that the source formats into `px` strings and `transition` strings are kept as numbers. The diameter `Math.hypot(a, b) * 2` stays symbolic as `TwiceHypotPx(a, b)`, and its geometry is stated on squares.
- `getComputedStyle(host).position` is the inline `position` keyword when there is one. Otherwise it is the position the style sheets give, which is a constant of each element.

The type declarations in `ripple.d.ts` describe things that `ripple.ts` does not implement: a container element, `className`/`containerClassName`, `ignoreNonLeftClick`, and a `container` field in the `onSpawn` context. The model follows `ripple.ts`.

## Model

| member | source | states |
|---|---|---|
| Options.Defaults | ripple.ts:43-48 | The definition of the built-in option object. `Resolve` and `CustomRipplePrecedence` characterise it. |
| Options.Spread | ripple.ts:42-50 | The definition of the object spread, where a key present in the upper object wins. `Resolve`, `CustomRipple` and `CustomRipplePrecedence` characterise it. |
| Options.Resolve | ripple.ts:42-50 | A key the caller supplies wins and every absent key takes its default: duration 450, the rgba colour, the cubic-bezier timing function, `disabled` false, `cancelAutomatically` false, no `onSpawn`. Without a caller ref the hook's internal ref is used. |
| Options.CustomRipple | ripple.ts:104-108 | With no overrides the generated hook passes exactly the presets. With no presets it passes exactly the overrides. |
| Options.CustomRipplePrecedence | ripple.ts:104-108 | For every key, an override beats a preset and a preset beats the built-in default. The ref is the override's ref, or else a preset's ref, or else the internal ref. |
| Dom.RefObject.constructor | ripple.ts:41 | `useRef(null)`: a new ref starts unbound. |
| Dom.Element.constructor | ripple.ts:123 | `createElement`: a new element is detached, with an empty style, no children and no listeners. |
| Styles.Written | ripple.ts:153-155 | The definition of writing the declarations one row at a time, in list order. The four lemmas below characterise it. |
| Dom.ApplyStyles | ripple.ts:150-157 | The same element comes back. An absent target is left alone. Otherwise the style becomes the in-order fold of the declarations, and parent, children and listeners are unchanged. |
| Styles.WrittenLastWins | ripple.ts:153-155 | A listed property ends up with the value of its last occurrence in the list. |
| Styles.WrittenUnlisted | ripple.ts:153-155 | A property the list does not mention keeps its value, or stays absent. |
| Styles.WrittenKeys | ripple.ts:153-155 | After writing, the style's properties are exactly the old ones plus the listed ones. |
| Styles.WrittenAppend | ripple.ts:153-155 | Two successive `applyStyles` calls write the same as one call with the concatenated list. |
| Dom.Element.AppendChild | ripple.ts:84 | A detached child becomes the last child of the host, and its parent is the host. |
| Dom.Element.Remove | ripple.ts:167 | An element leaves its parent's child list and ends detached. The parent keeps its own place in the tree, its style and its listeners. A detached element changes nothing. |
| Dom.Element.AddTransitionEndListener | ripple.ts:166 | The listener is appended to the element's transition-end listeners. |
| Dom.Element.DispatchTransitionEnd | ripple.ts:166-168 | The element is detached exactly when the finished property is `opacity` and the removal listener is installed. Any other property, such as `transform`, leaves parent and siblings unchanged. Either way the parent keeps its own place in the tree, its style and its listeners. |
| Geometry.PointerOffset | ripple.ts:111-116 | The ripple's `top`/`left`, added back to the host's position, land exactly on the pointer. |
| Geometry.RippleReach | ripple.ts:126-127 | `maxHeight`/`maxWidth` are each at least half the host's height/width. |
| Geometry.CoversCorners | ripple.ts:126-128 | For a host of non-negative size, every corner lies within half the diameter of the pointer. The squared radius is maxHeight² + maxWidth². |
| Geometry.FarthestCorner | ripple.ts:126-128 | Some corner is at exactly the radius, so no smaller circle centred on the pointer covers the host. |
| Dom.ComputedPosition | ripple.ts:59 | The definition of `getComputedStyle(target).position`: the inline keyword, or else the style-sheet position. `PrepareHostEffect` and `PrepareHostIdempotent` use it. |
| Ripple.PrepareHost | ripple.ts:55-62 | The definition of host preparation. `PrepareHostEffect` and `PrepareHostIdempotent` characterise it. |
| Ripple.PrepareHostEffect | ripple.ts:55-62 | The host gets `overflow: hidden`. It gets `position: relative` exactly when its computed position was `static`. Any other position, and every other property, is left as it was. |
| Ripple.PrepareHostIdempotent | ripple.ts:55-62 | Preparing a host twice leaves the same style as preparing it once. |
| Ripple.RippleStyles | ripple.ts:126-139 | The definition of the nine `createRipple` declarations. `CreatedStyle` and `SpawnStyleShape` characterise it. |
| Ripple.PointerStyles | ripple.ts:113-114 | The definition of the `top`/`left` declarations. `PointerOffset` and `SpawnStyleShape` characterise it. |
| Ripple.SpawnStyle | ripple.ts:111-147 | The definition of the ripple's style when it is appended: the ripple declarations, then the pointer ones. `SpawnStyleShape` characterises it. |
| Ripple.GrowStyles | ripple.ts:142-144 | The definition of the grow frame's declaration. `FadedStyleShape` characterises it. |
| Ripple.FadeStyles | ripple.ts:161-164 | The definition of the fade declarations. `FadedStyleShape` characterises it. |
| Ripple.CreatedStyle | ripple.ts:129-139 | Writing the nine ripple declarations into an empty style gives one entry per declaration, in list order. |
| Ripple.SpawnStyleShape | ripple.ts:113-139 | A new ripple is absolutely positioned, at scale(0), opacity .6 and the option colour, with `pointer-events: none` and `border-radius: 50%`. Its height and width are twice the hypotenuse of the radius legs, and it is centred on the pointer. Its transition scales over 0.6 × duration, and its opacity transition lasts 0.05 × duration but never less than 140 ms. |
| Ripple.FadedStyleShape | ripple.ts:141-164 | After the grow frame and the fade, the ripple is at scale(1) and fading to opacity 0, still centred where it was spawned. The fade lasts 0.65 × duration after a delay of 0.13 × duration, with the same 0.6 × duration transform timing. |
| Ripple.CancelDelay | ripple.ts:69-74 | The delay is never negative for a release after spawn. The fade is never due before 0.4 × duration after spawn. The delay is 0 exactly when 0.4 × duration has already elapsed, and otherwise elapsed + delay = 0.4 × duration. |
| Ripple.FadeTimer | ripple.ts:72-74 | The fade timer set at release is due no earlier than 0.4 × duration after spawn, and it runs `cancelRippleAnimation` on that canceller's ripple. |
| Ripple.FadeTimers | ripple.ts:72-74 | The listeners fired by one event set one fade timer each, in firing order. |
| Ripple.Scheduler.RequestAnimationFrame | ripple.ts:141 | The frame callback is queued last. Pending timers are untouched. |
| Ripple.Scheduler.SetTimeout | ripple.ts:72 | The timer is queued last, with its request time and delay. Pending frames are untouched. |
| Ripple.Scheduler.Run | ripple.ts:141-169 | The grow callback writes scale(1). The fade callback writes the fade styles and queues the removal frame. The removal frame installs the self-removing listener. None of them moves the ripple in the tree. |
| Ripple.Scheduler.RunNextFrame | ripple.ts:141-169 | The oldest pending frame callback runs and leaves the queue, and only when one exists. |
| Ripple.Scheduler.RunNextTimer | ripple.ts:72-73 | The oldest pending timer runs and leaves the queue, and only when one exists. |
| Ripple.CancelRippleAnimation | ripple.ts:159-170 | The ripple gets opacity 0 and the fade transition, and the frame that installs its removal listener is queued. Nothing else changes. |
| Ripple.Registrations | ripple.ts:79-80 | The definition of what `cancelRipple` adds: one registration per release event, `mouseup` then `touchend`. `RegistrationsReach` characterises it. |
| Ripple.RegistrationsReach | ripple.ts:67-80 | Each release event reaches the registered `cancelRipple` exactly once. Unregistering it leaves none of its registrations behind. |
| Ripple.Unregistered | ripple.ts:75-76 | Every registration of the canceller is gone, and every other registration stays. |
| Ripple.UnregisteredAll | ripple.ts:75-76 | None of the given cancellers keeps a registration, and no registration is invented. |
| Ripple.UnregisteredAllKeeps | ripple.ts:75-80 | Every registration of a canceller that did not fire stays, so a release leaves other ripples' cancellers registered. |
| Ripple.UnregisteredAppend | ripple.ts:75-76 | Unregistering keeps registration order: unregistering from `a + b` is unregistering from `a`, then from `b`. |
| Ripple.ListenersFor | ripple.ts:75-80 | The listeners one event reaches are exactly those registered for it. |
| Ripple.RemoveBoth | ripple.ts:75-76 | Removing the canceller from `mouseup` and then from `touchend` removes all its registrations. |
| Ripple.ListenersForDistinct | ripple.ts:75-80 | When no (event, listener) pair is registered twice, one release event reaches each listener at most once, so no canceller fires twice in one dispatch. |
| Ripple.SingleFire | ripple.ts:75-80 | Once the listeners of one release event have fired, none of them is reached by any later release event. |
| Ripple.Canceller.constructor | ripple.ts:65-68 | The closure captures the spawn time, the ripple, the duration and the timing function. |
| Ripple.Canceller.Fire | ripple.ts:68-77 | Calling `cancelRipple` sets one fade timer with the cancel delay and unregisters itself from both release events. |
| Ripple.Document.AddEventListener | ripple.ts:79-80 | A listener is appended for the event, unless that listener is already registered for it. No (event, listener) pair is ever registered twice (`Valid`). |
| Ripple.Document.RemoveEventListener | ripple.ts:75-76 | The listener's registration for that event is taken out, and no pair becomes registered twice. |
| Lists.WithoutDistinct | ripple.ts:75-76 | Taking a registration out of a list without duplicates leaves a list without duplicates. |
| Ripple.Document.DispatchRelease | ripple.ts:75-80 | Every listener registered for the event when dispatch starts fires in order. Each sets its fade timer and leaves every release event. No pair becomes registered twice. |
| Ripple.CreateRipple | ripple.ts:122-148 | A new detached div carries the nine ripple styles, and its grow frame is queued. |
| Ripple.CenterElementToPointer | ripple.ts:111-116 | The same element comes back with `top` and `left` written from the pointer offset. |
| Ripple.RippleHook.constructor | ripple.ts:39-50 | A new hook has a fresh, unbound internal ref and the resolved options. |
| Ripple.PrepareTarget | ripple.ts:55-62 | The host's style becomes `PrepareHost` of its old style, the same element comes back, and its place in the tree and its listeners are unchanged. |
| Ripple.ListenForRelease | ripple.ts:78-80 | A new `cancelRipple` closure is registered for `mouseup` and then `touchend`, after every existing registration, and no pair becomes registered twice. |
| Ripple.RippleHook.Trigger | ripple.ts:53-91 | With no host or `disabled` set, nothing changes and `onSpawn` is not called. Otherwise the host is prepared and the new ripple, styled at scale(0), is appended last. The grow frame is queued. Either one fade timer at duration × 0.4 is set with no listener, or `cancelRipple` is registered for both release events with no timer. `onSpawn`, when given, is called once with the ripple, `cancelRipple`, the event and the ref. |

## Left out

- React machinery is not modelled: re-rendering, `useCallback` memoisation and dependency arrays. A `RippleHook` is one render's hook, with a fixed options value.
- The DOM and browser services are abstract:
  - the style map has no CSSOM parsing, no validity checks and no `!important` priority;
  - `getComputedStyle` knows only the inline `position` keyword and a fixed style-sheet position;
  - there is no layout.
- Event-loop timing is not modelled. Frames and timers drain in queue order, and a timer's due time is recorded but does not order the queue. Browser timer clamping is not modelled.
- IEEE floating point, `Math.hypot` and the `px`/`transition` string formatting are not modelled. Numbers are `real`, and the diameter is stated through its square.
- `onSpawn` side effects are left out. Only its invocation and the context it receives are recorded, so a user's extra calls to `cancelRipple` made there are not modelled.
- An options key present with the value `undefined` is not distinguished from an absent key. In JavaScript the spread would copy the `undefined`.
- Ripple.ListenForRelease: requires a canceller with no registration yet. In the source it is always a closure created by that trigger call.
- Dom.Element.AppendChild: models appending only a detached element that is not the host itself. The ripple is always new, so the source never moves an element that is already attached.
- The host's bounding box is read once per trigger, because `createRipple` and `centerElementToPointer` see the same box.
- `ripple.ts:64` re-checks `target` after it was already used. That guard can never fire, because `applyStyles` returns the host it was given, so it has no model.
- The `container` layer, `className`/`containerClassName` and `ignoreNonLeftClick` are declared in `ripple.d.ts` but not implemented in `ripple.ts`.
- Touch detection appears in neither source file. The only touch-related code is the `touchend` release event, which is modelled.
