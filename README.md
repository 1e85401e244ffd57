# Reasoning disclosure: a Dafny model

This project models the disclosure state machine of `src/components/ui/reasoning.tsx`. It has four parts:

- **Ownership rule (`Disclosure`).** The `Reasoning` provider is controlled when an `open` prop is supplied and uncontrolled otherwise. In controlled mode the published `isOpen` is the prop. In uncontrolled mode it is an internal state cell that starts open. `handleOpenChange(b)` writes that cell only when uncontrolled. In both modes it notifies the caller's optional `onOpenChange` with `b`.
- **Context lookup and trigger.** `useReasoningContext` fails, with its error message, whenever no provider is present. A `ReasoningTrigger` click asks the provider for the negation of the `isOpen` it rendered with.
- **Height tracking (`ContentHeight`).** `ReasoningContent` keeps the outer element's inline `maxHeight`. Three things write it:
  - every render: `0px` when closed, the outer `scrollHeight` when open, and nothing before the element exists;
  - the effect, which depends on `isOpen` alone: when open, it copies the inner `scrollHeight`;
  - the resize observer that each effect run attaches: it writes `maxHeight` only when the `isOpen` it captured is true.

  The effect's cleanup disconnects the observer that effect run attached.
- **Completion latch (`ResponseLatch`).** `ReasoningResponse` has a `showFixedText` cell. It starts false. The text-stream hook's completion callback sets it and forwards the callback to the caller's `onComplete`. The module also covers the defaults passed to the hook (`speed` 20, `mode` typewriter), the open/closed opacity and the fixed-text block.

Each stateful component is a class whose methods are its events. Each class method's postcondition ties the new state (`Model()`) to a pure step function applied to the old state. Properties over whole event sequences are lemmas about those step functions and their fold `Run`.

Browser facts enter as event parameters:
- the outer and inner `scrollHeight`;
- resize notifications, addressed to an observer by name;
- the moment React flushes passive effects.

Whether the caller supplied `onOpenChange` or `onComplete` is part of the props or of the event. Each call to those callbacks is recorded in the state as a log (`notified`) or a counter (`onCompleteCalls`).

## Model

| member | source | states |
|---|---|---|
| Disclosure.IsControlled | src/components/ui/reasoning.tsx:48 | A provider is controlled exactly when an `open` prop is supplied. |
| Disclosure.IsOpen | src/components/ui/reasoning.tsx:49 | The reported `isOpen` is the `open` prop when controlled, whatever the internal cell holds, and the internal cell otherwise. |
| Disclosure.Mount | src/components/ui/reasoning.tsx:47-49 | A fresh provider has no notifications, and its internal cell is open in both modes. It is controlled iff `open` is supplied. Controlled, it reports the prop. Uncontrolled, it reports open. |
| Disclosure.AfterOpenChange | src/components/ui/reasoning.tsx:51-56 | Uncontrolled: the reported `isOpen` becomes the requested value. Controlled: the internal cell and the reported value are unchanged. With an observer, the notification log grows by exactly the requested value; without one, it is unchanged. The props never change. |
| Disclosure.WithProps | src/components/ui/reasoning.tsx:41-49 | A prop change keeps the internal cell and the log. An instance that becomes uncontrolled reports its old internal value. |
| Disclosure.TriggerRequest | src/components/ui/reasoning.tsx:85 | A click requests the opposite of the rendered `isOpen`. |
| Disclosure.UncontrolledFollowsLastChange | src/components/ui/reasoning.tsx:47-54 | Uncontrolled: after any non-empty run of `handleOpenChange` calls, the reported `isOpen` is the last value passed. |
| Disclosure.ControlledIgnoresRequests | src/components/ui/reasoning.tsx:48-54 | Controlled: while the props stay fixed, no sequence of requests or clicks moves the reported `isOpen` off the `open` prop or writes the internal cell. |
| Disclosure.OpenChangesNotifyInOrder | src/components/ui/reasoning.tsx:51-56 | With an observer, each call notifies exactly once, with its own value and in call order. Without one, nothing is recorded. Both modes. |
| Disclosure.UncontrolledClicksAlternate | src/components/ui/reasoning.tsx:80-85 | Uncontrolled: `n` trigger clicks negate `isOpen` when `n` is odd and restore it when `n` is even, so two clicks restore the start. |
| Disclosure.ControlledClicksRepeatRequest | src/components/ui/reasoning.tsx:80-85 | Controlled: `n` clicks leave `isOpen` unchanged. Each click asks the observer for the negation of the prop, `n` times in all. |
| Disclosure.UseReasoningContext | src/components/ui/reasoning.tsx:24-32 | Fails with the provider-missing message exactly when there is no provider, and never falls back to a default. Otherwise it returns the provider's value. |
| Disclosure.Reasoning.constructor | src/components/ui/reasoning.tsx:47 | A mounted provider is in the `Mount` state: internal cell open and an empty log. |
| Disclosure.Reasoning.Context | src/components/ui/reasoning.tsx:58-63 | The published context carries the reported `isOpen` and this provider. |
| Disclosure.Reasoning.HandleOpenChange | src/components/ui/reasoning.tsx:51-56 | Updates the fields exactly as `AfterOpenChange` says. |
| Disclosure.Reasoning.SetProps | src/components/ui/reasoning.tsx:41-49 | Updates the fields exactly as `WithProps` says. |
| Disclosure.ClickTrigger | src/components/ui/reasoning.tsx:75-86 | With no provider: fails with the provider-missing message and changes nothing. With a caller `onClick` (spread over the trigger's own): requests nothing and leaves the provider unchanged. Otherwise: requests `!isOpen` from the context's provider, whose new state is `AfterOpenChange` of its old one. |
| Disclosure.ClickFreshTrigger | src/components/ui/reasoning.tsx:75-86 | With no caller `onClick`, a click on a trigger rendered from the current context is the `TriggerClick` step, requesting the negation of the current `isOpen`. With one, nothing changes. |
| ContentHeight.ObserversConsistent | src/components/ui/reasoning.tsx:118-130 | The only connected observer is the one the pending cleanup will disconnect. It captured the `isOpen` of the effect run that made it. Hence at most one observer is connected. |
| ContentHeight.Initial | src/components/ui/reasoning.tsx:111-112 | Before the first commit: no refs, no style, no observer, no effect run. |
| ContentHeight.RenderStyle | src/components/ui/reasoning.tsx:140-142 | Closed: `0px`. Open: the outer `scrollHeight`, or unset while the outer element does not exist yet. |
| ContentHeight.AfterRender | src/components/ui/reasoning.tsx:133-146 | A committed render attaches the refs and applies the `RenderStyle` rule, unless the caller passes a `style`: that object, spread after the component's own, sets `maxHeight` instead. It leaves the observers and the effect's dependency alone. |
| ContentHeight.Disconnect | src/components/ui/reasoning.tsx:130 | The effect cleanup disconnects the observer it names and leaves nothing pending; with consistent bookkeeping, no observer stays connected. Style, refs and the effect's dependency are untouched. |
| ContentHeight.AfterEffect | src/components/ui/reasoning.tsx:115-131 | Runs only on a mounted instance, and only when the rendered `isOpen` differs from the last run's. It first cleans up the previous observer. It then connects exactly one fresh observer that captures `isOpen`, and sets `maxHeight` to the inner `scrollHeight` when open. Observer consistency is kept. |
| ContentHeight.AfterResize | src/components/ui/reasoning.tsx:118-122 | A notification writes the new inner height only through a connected observer that captured an open state. Otherwise nothing changes. It never changes anything but `maxHeight`. |
| ContentHeight.AfterUnmount | src/components/ui/reasoning.tsx:130 | Teardown disconnects the observer and clears the refs. No observer remains. |
| ContentHeight.RunKeepsObserversConsistent | src/components/ui/reasoning.tsx:115-131 | Every sequence of renders, effect flushes, resizes and teardowns keeps the observer bookkeeping consistent, so at most one observer is ever connected. |
| ContentHeight.OpenObserverTracksLatest | src/components/ui/reasoning.tsx:118-122 | While the effect last ran open, any sequence of resizes leaves `maxHeight` at the most recent inner height sent to the connected observer. Notifications to disconnected observers are ignored. |
| ContentHeight.ClosedIgnoresResizes | src/components/ui/reasoning.tsx:118-122 | When no connected observer captured an open state, no sequence of resizes changes anything. |
| ContentHeight.OpeningTracksGrowth | src/components/ui/reasoning.tsx:115-141 | Opening a settled closed instance sets `maxHeight` to the inner height. Each later size change retargets it to the newest height, with no further toggle. |
| ContentHeight.ClosingStaysClipped | src/components/ui/reasoning.tsx:115-141 | A closing render immediately followed by its effect flush clips a settled open instance to `0px`. It stays at `0px` under any later resize notifications. |
| ContentHeight.ResizeBeforeClosingFlush | src/components/ui/reasoning.tsx:118-131 | Between a closing commit and its effect flush, the old observer still captures open. A resize it reports there writes the inner height, and the closed panel keeps that height after the flush. |
| ContentHeight.ReasoningContent.constructor | src/components/ui/reasoning.tsx:111-112 | A new instance is in the `Initial` state. |
| ContentHeight.ReasoningContent.Render | src/components/ui/reasoning.tsx:113-146 | With no provider: fails with the provider-missing message and changes nothing. Otherwise: the new state is `AfterRender`, with a caller `style` overriding the rule. Observer consistency is kept. |
| ContentHeight.ReasoningContent.FlushEffect | src/components/ui/reasoning.tsx:115-131 | The new state is `AfterEffect` of the old one. Observer consistency is kept. |
| ContentHeight.ReasoningContent.Resize | src/components/ui/reasoning.tsx:118-122 | The new state is `AfterResize` of the old one. |
| ContentHeight.ReasoningContent.Unmount | src/components/ui/reasoning.tsx:130 | The new state is `AfterUnmount` of the old one. |
| ResponseLatch.StreamOptionsOf | src/components/ui/reasoning.tsx:165-189 | `speed` defaults to 20 and `mode` to typewriter, only when absent. Supplied values and the fade and chunk options pass through unchanged. |
| ResponseLatch.FixedTextPanel | src/components/ui/reasoning.tsx:202-208 | The fixed-text block is absent exactly when `fixedText` is missing or empty. Otherwise it is expanded exactly when `showFixedText` holds. |
| ResponseLatch.Opacity | src/components/ui/reasoning.tsx:197-199 | The render-time opacity choice: 1 exactly when open, and 0 otherwise (the fade itself is CSS). |
| ResponseLatch.InitialLatch | src/components/ui/reasoning.tsx:174 | `showFixedText` starts false, and `onComplete` has not been called. |
| ResponseLatch.LatchStep | src/components/ui/reasoning.tsx:174-184 | The completion callback sets the latch and, in the same call, makes one call to the caller's `onComplete` if there is one. A re-render changes nothing. A set latch stays set. |
| ResponseLatch.LatchRunMeaning | src/components/ui/reasoning.tsx:174-185 | Over any event sequence, the latch is set iff it was set already or a completion fired. `onComplete` is called once per completion that carries it. |
| ResponseLatch.FalseUntilCompletion | src/components/ui/reasoning.tsx:174 | From mount, re-renders alone never set the latch or call `onComplete`. |
| ResponseLatch.ReasoningResponse.constructor | src/components/ui/reasoning.tsx:174 | A new instance is in the initial latch state. |
| ResponseLatch.ReasoningResponse.OnStreamComplete | src/components/ui/reasoning.tsx:181-185 | The latch moves by the completion step. |
| ResponseLatch.ReasoningResponse.Render | src/components/ui/reasoning.tsx:173-207 | With no provider: fails with the provider-missing message. Otherwise: passes the defaulted options to the hook, picks the opacity from `isOpen` and the fixed-text block from the latch. Changes nothing. |

## Left out

- The text-stream hook (`useTextStream` from `./response-stream`) is not part of this model. Its typewriter and fade semantics are not modelled. Its completion callback is an event, and the text source, `displayedText` and Markdown rendering are not modelled.
- Which render's `onComplete` closure the hook calls is not visible. The completion event therefore carries whether the caller's `onComplete` was supplied.
- ResizeObserver and DOM `scrollHeight` are browser APIs. They appear only as event parameters: a resize addressed to a named observer, and heights as natural numbers.
- `ContentHeight.AfterRender`: React writes a style property only when the style prop differs from the previous render's. The model treats every committed render as writing it.
- A caller's `style` is modelled only through its `maxHeight`; a caller's other attributes spread onto the trigger and the content element are presentation.
- Effects on an instance that is not mounted are no-ops: React runs none before the first commit or after teardown. While mounted, both refs hold their elements, so the effect's early return when a ref is empty is never taken.
- The order of React's work is supplied by the caller of the model. A render commits atomically, and an effect flush is a separate event. React itself decides when flushes and updates happen. A `setState` counts as applied before the next event.
- Class composition (`cn`), the chevron rotation, CSS transitions and the fixed text's wording are presentation, not logic.
- `speed`, `fadeDuration`, `segmentDelay` and `characterChunkSize` are modelled as integers. JavaScript numbers may be fractional. Only the defaulting rule matters here.
- The other files of the repository are page layout, static content and build configuration. They are not part of this model.
