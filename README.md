# svelte5-inertia core, modelled in Dafny

This package binds the Inertia.js client router to Svelte 5. This project models six of its parts and proves properties of them:

- **`useForm`** (`src/form.svelte.ts`). A form holds live `data` against its defaults, an ordered record of validation `errors`, and the flags `processing`, `wasSuccessful` and `wasFailed`. It also holds `progress` and a cancel token. Submission starts with a guard, and then the router drives the form through its callbacks `onCancelToken`, `onBefore`, `onStart`, `onProgress`, `onSuccess`, `onError`, `onCancel` and `onFinish`. With a remember key the form stores itself into the router's remember slot and restores itself from it. In the model the form is the class `Form.Form`. Each router callback is a method the environment calls. The promise of every `submit` call is an entry of `promises`, which settles once.
- **The HTML escaper `e`** (`src/escape.ts`). Module `Escape`.
- **`hierarchyLayout`** (`src/layout.ts`). It follows each module's `layout` reference and builds the layout list outermost first. Module `Layout` models the module objects as a graph of ids. The walk takes fuel because the source's loop does not always end; see Findings.
- **The link action of `createLink`** (`src/context.ts`). This covers `shouldIntercept`, `is_anchor`, `get_href`, `params`, `prefetch` with its `cacheFor` default and same-origin gate, the click handler, `update` and `destroy` with the prefetch-listener bookkeeping, and the hover timer. In module `Link`, these are the class `LinkAction` plus pure functions for each decision.
- **The server branch of `createInertiaApp`** (`src/index.ts`). This covers the option defaults, the `<div>` body, and the head list with the optional `<script type="application/json">` element and its script-safe content. Module `App`.
- **`usePrefetch`** (`src/prefetch.svelte.ts`). This covers the two status flags and the timestamp seeded at creation, the two path-filtered event handlers, teardown and `flush`. Module `Prefetch`, class `PrefetchStatus`.

These parts share two modules:

- `Base` holds `Option`, `Result`, the JSON-like `Value`, and the error record. The record is a sequence of entries with unique keys, so `Object.entries` order is kept.
- `Router` stands in for the external Inertia router. It is a class with the calls the core makes on it, recorded as logs: submissions, visits, prefetches, cancellations and flushes. Its remember slots are a map.

Quantities the model takes as inputs:

- **Outside the model's control.** These are opaque inputs.
  - `BROWSER` is a constructor flag.
  - URL origin comparison is a predicate `sameOrigin` over hrefs.
  - The current `location.pathname` is a parameter of each prefetch event handler and of `flush`.
  - `JSON.stringify(page)` is a given string, and Svelte's `render` result is the result of a `setup` parameter.
  - The router's `getCached`/`getPrefetching` answers are constructor parameters.
- **Timers.** A timer is an id in a set of pending timers, and "it fires" is a method call.
- **Listeners.** An event listener is an id in a map from ids to event kinds.

The model encodes these behaviours of the code as they are:

- The layout resolver reports a cycle only when the chain returns to the starting component. A cycle elsewhere makes it loop for ever (see Findings).
- `shouldIntercept` checks the modifier keys and the mouse button only when the element is an `<a>`. On any other element only `isContentEditable` and `defaultPrevented` matter.
- The `cacheFor` default tests the truthiness of `prefetch`, so `prefetch: false` gives 30000 and `prefetch: 'click'` gives 0.
- The link action attaches no prefetch listener at creation. Only `update` installs them, and `opts` stays `{}` until the first `update`.
- `update` compares the new `prefetch` with the options the action was created with, not with the previous `opts`. Updating back to the creation mode therefore keeps the previous mode's listeners.
- `destroy` removes the listeners but does not clear `hoverTimeout`, so a pending hover timer still fires `prefetch`.

## Model

| member | source | states |
|---|---|---|
| Escape.EscapeChar | src/escape.ts:1-8 | each of `& < > " '` becomes an entity that starts with `&` and ends with `;`; any other character is copied; no `<`, `>`, `"` or `'` is produced |
| Escape.Escape | src/escape.ts:10-12 | the output is at least as long as the input and contains no `<`, `>`, `"` or `'`; a string without the five characters is returned unchanged |
| Escape.EscapeAppend | src/escape.ts:11 | escaping works character by character: `e(a + b) == e(a) + e(b)` |
| Escape.UnescapeEntity | src/escape.ts:2-8 | decoding each of the five entities gives back its character |
| Escape.UnescapeEscape | src/escape.ts:2-11 | round trip: decoding the five entities of `e(s)` gives back `s` |
| Form.Matches | src/form.svelte.ts:141-146 | a string filter accepts the keys it prefixes, an object accepts the keys its `test` accepts, and no filter accepts every key |
| Form.Where | src/form.svelte.ts:147 | `Object.entries(errors).filter(...)`: no longer than the record; `Form.WhereMembers`, `Form.WhereUnique` and `Form.WhereAppend` state its contents, key uniqueness and order |
| Form.WhereMembers | src/form.svelte.ts:132-133 | the filtered entries are exactly the entries whose key the filter accepts (a prefix for a string filter, `test` for an object, all without a filter) |
| Form.WhereUnique | src/form.svelte.ts:147 | filtering an error record with unique keys gives a record with unique keys, so `Object.fromEntries` loses nothing |
| Form.WhereAppend | src/form.svelte.ts:132-133 | filtering keeps entry order |
| Form.WhereAll | src/form.svelte.ts:129-131 | with no filter, or the empty prefix, every entry is kept |
| Form.Flatten | src/form.svelte.ts:134-135 | a message is in the flattened list exactly when it is one of some entry's messages (a string or an array of strings) |
| Form.FlattenAppend | src/form.svelte.ts:134-135 | flattening keeps entry order |
| Form.Form.AllErrors | src/form.svelte.ts:125-136 | `allErrors(filter)` is the flattening of `errorsWhere(filter)`; a message is in it exactly when it belongs to an entry whose key matches |
| Form.Form.ErrorsWhere | src/form.svelte.ts:138-148 | `errorsWhere(filter)` holds exactly the matching entries, with their values unchanged |
| Form.ResetFields | src/form.svelte.ts:285-286 | `reset(f1..fn)` sets each named key from the defaults (`undefined` when the defaults lack it) and leaves every other key as it was |
| Form.Form.Reset | src/form.svelte.ts:284-291 | with no fields, data becomes the defaults and `dirty` is false; with fields, the loop's result equals `ResetFields` |
| Form.Request | src/form.svelte.ts:155-214 | the router receives the verb, the url and the payload; `delete` carries the payload as `options.data`, every other verb positionally; `preserveState` defaults to `'errors'` |
| Form.Settle | src/form.svelte.ts:154 | resolving or rejecting a pending promise gives it that outcome; a settled promise keeps its own |
| Form.SettleOnce | src/form.svelte.ts:154 | a promise settles once: after a first outcome, any later resolve or reject leaves it unchanged |
| Form.ParseMethod | src/form.svelte.ts:222 | a parsed method string names the verb it parses to |
| Form.ParseMethodName | src/form.svelte.ts:222 | every verb's lower-case name parses back to that verb |
| Form.ParseMethodNames | src/form.svelte.ts:222 | the same for all verbs at once |
| Form.ActionTarget | src/form.svelte.ts:221-222 | the submit target is the explicit url unless it is empty, else the element's `action`; the method is the explicit one, else `get` for an empty element method, else the verb the element's lower-cased method names, which is `m` exactly when that string is `m`'s name |
| Form.FormError.Message | src/form.svelte.ts:13-29 | the messages of the error classes: "The given data was invalid.", "The form was canceled.", "The form is still processing.", and the off-browser "Form can only submit in a browser environment." of line 151 |
| Form.Form.Dirty | src/form.svelte.ts:123 | `dirty`: the data differs structurally from the defaults |
| Form.Form.constructor | src/form.svelte.ts:109-121 | a new form is idle with no errors and identity `transform`/`remember`; with a remember key in a browser, a stored slot replaces data and errors, otherwise data is the defaults and `dirty` is false |
| Form.Form.Restore | src/form.svelte.ts:319-332 | a stored slot replaces data and errors; an absent slot, or running off-browser, changes nothing |
| Form.Form.Store | src/form.svelte.ts:314-318 | the slot holds `remember(data)` and `errors`; off-browser nothing is written |
| Form.Form.Submit | src/form.svelte.ts:150-158 | off-browser it throws; while processing it throws `FormProcessingError` before `store` and before any router call; otherwise it stores, sends `transform(data)` and returns a fresh pending promise without changing data |
| Form.Form.OnCancelToken | src/form.svelte.ts:159-162 | the token is captured |
| Form.Form.OnCancel | src/form.svelte.ts:163-167 | processing stops and the promise rejects with `FormCanceledError` |
| Form.Form.OnBefore | src/form.svelte.ts:168-173 | both outcome flags, the errors and the progress are cleared |
| Form.Form.OnStart | src/form.svelte.ts:174-177 | the form is processing |
| Form.Form.OnProgress | src/form.svelte.ts:178-181 | progress mirrors the event, or is null when it is absent |
| Form.Form.OnSuccess | src/form.svelte.ts:182-190 | not processing, successful, not failed, no progress, no errors; the promise resolves with the page |
| Form.Form.OnError | src/form.svelte.ts:191-199 | errors become the payload; not processing, not successful, failed, no progress; the promise rejects with a validation error carrying the payload |
| Form.Form.OnFinish | src/form.svelte.ts:200-205 | not processing, no progress, no cancel token |
| Form.Form.Cancel | src/form.svelte.ts:299-302 | with a captured token the router cancels it; without one nothing changes |
| Form.Form.SetTransform | src/form.svelte.ts:280-283 | `transform(callback)` replaces the payload transform |
| Form.Form.SetRemember | src/form.svelte.ts:310-313 | `remember(callback)` replaces the stored-data transform |
| Form.Form.SetData | src/form.svelte.ts:257-259 | the data setter replaces data; `dirty` then holds exactly when the value differs from the defaults |
| Form.Form.SetDefaults | src/form.svelte.ts:263-265 | the `default` setter replaces the defaults |
| Form.Form.SetErrors | src/form.svelte.ts:269-271 | the errors setter replaces the errors |
| Form.Form.Dispose | src/form.svelte.ts:334 | teardown writes the remember slot once more when there is a remember key |
| Form.Deliver | src/form.svelte.ts:159-205 | firing any one router callback keeps success and failure exclusive, changes no settled promise and leaves data and defaults alone |
| Form.DeliverAll | src/form.svelte.ts:159-205 | the same for any sequence of callbacks, in any order |
| Form.SuccessfulSubmission | src/form.svelte.ts:150-205 | a submission the router accepts ends idle and successful, with no errors, no progress and no token; its promise is resolved with the page and data is unchanged |
| Form.FailedSubmission | src/form.svelte.ts:150-199 | a rejected submission ends failed and not successful; `allErrors()` is exactly the flattened payload and the promise is rejected with it |
| Form.OverlappingSubmission | src/form.svelte.ts:152 | a second submit while processing throws, reaches no router method and leaves the first promise pending |
| Layout.ResolveAsWritten | src/layout.ts:32-48 | the closed form of the resolver as written: circular when a layout within the fuel has the start's component, out of fuel when the chain goes on, otherwise the start's component with its layouts outermost first |
| Layout.HierarchyLayout | src/layout.ts:32-56 | the loop over `next(current)` with `layout.unshift` returns exactly `ResolveAsWritten` |
| Layout.ResolvedKeepsDefault | src/layout.ts:36-46 | a resolved page keeps its own component as `default`, and the layout list never contains it |
| Layout.NoLayout | src/layout.ts:37 | a module without a layout resolves to an empty list |
| Layout.CircularIff | src/layout.ts:36-40 | the resolver fails, with "Circular layout detected in component: " and the name, exactly when a layout in the chain has the start's component |
| Layout.ChainOfThree | src/layout.ts:37-42 | A with layout B whose layout C has none resolves to default A with layouts `[C, B]` |
| Layout.SelfLayout | src/layout.ts:36-40 | a page that is its own layout fails as circular |
| Layout.TwoCycle | src/layout.ts:36-40 | A -> B -> A fails as circular |
| Layout.LoopNotDetected | src/layout.ts:36-41 | as written, A -> B -> C -> B is never reported: every amount of fuel runs out |
| Layout.HierarchyLayoutChecked | src/layout.ts:32-48 | the corrected loop, which adds each component it visits to the set, returns exactly `ResolveChecked` |
| Layout.CheckedDistinct | src/layout.ts:36-41 | a corrected resolution lists no component twice and never the start's |
| Layout.CheckedTerminates | src/layout.ts:37-41 | with fuel at least the number of modules, the corrected resolver always resolves or reports a cycle |
| Link.IsAnchor | src/context.ts:47-49 | `is_anchor`: an HTML element whose tag name is exactly `A` |
| Link.AnchorIsLinkTag | src/context.ts:47-49 | an element `is_anchor` accepts also counts as a link for `shouldIntercept` |
| Link.ShouldIntercept | src/context.ts:51-75 | never intercepted when the target is content-editable or the event was prevented; on an `<a>`, exactly when no modifier key is held and `button` is absent or 0; on another element those fields are ignored |
| Link.GetHref | src/context.ts:87-93 | the anchor's own href, else `opts.href`; "Missing href" exactly when that is missing or empty |
| Link.CacheFor | src/context.ts:136 | an explicit `cacheFor` (0 included) wins; otherwise 0 when `prefetch` is truthy and 30000 when not |
| Link.Params | src/context.ts:95-107 | `params()` keeps exactly the eight picked visit options present in `opts`, with their values |
| Link.PrefetchEvents | src/context.ts:145-165 | `hover`/`true` installs mouseenter then mouseleave, `click` installs mousedown, anything else nothing; never a click listener, no kind twice |
| Link.PrefetchFor | src/context.ts:109-139 | `prefetch()` throws exactly when `get_href` does; it reaches the router exactly when the href is same-origin, with the href, `params()` and `cacheFor` |
| Link.ClickFor | src/context.ts:170-201 | a click is visited exactly when it is intercepted, has an href and the href is same-origin; an intercepted click without an href throws "Missing href" |
| Link.ReplaceKeepsOk | src/context.ts:141-168 | removing every prefetch listener and attaching distinct new kinds keeps the bookkeeping; the click listener is kept, and the prefetch kinds present are exactly the new ones |
| Link.LinkAction.constructor | src/context.ts:81-85 | `opts` starts as `{}`, with no prefetch listener and no timer; in a browser only the click listener is attached |
| Link.LinkAction.Unsubscribe | src/context.ts:143 | calls every unsubscriber of the list, so those listeners go |
| Link.LinkAction.SubscribeAll | src/context.ts:148-163 | attaches one listener per kind under fresh ids and pushes their unsubscribers in order |
| Link.LinkAction.Resubscribe | src/context.ts:143-165 | empties the unsubscriber list and attaches the new kinds; the click listener is kept and the prefetch kinds present are exactly the new ones |
| Link.LinkAction.Update | src/context.ts:141-168 | when `val.prefetch` differs from the creation options' prefetch, the prefetch listeners are replaced by the new mode's; otherwise the listeners are untouched; `opts` becomes `val` in every case |
| Link.LinkAction.Destroy | src/context.ts:205-208 | every listener, click and prefetch, is removed |
| Link.LinkAction.OnClick | src/context.ts:170-201 | with the click listener attached, the click does what `ClickFor` says and a visit is sent exactly when it is `Visited` |
| Link.LinkAction.Prefetch | src/context.ts:109-139 | does what `PrefetchFor` says; the router receives the request exactly when it is `Prefetched` |
| Link.LinkAction.OnMouseEnter | src/context.ts:149-151 | with a mouseenter listener, a fresh timer becomes pending and becomes `hoverTimeout` |
| Link.LinkAction.OnMouseLeave | src/context.ts:154-159 | with a mouseleave listener and a pending `hoverTimeout`, that timer is cleared and `hoverTimeout` becomes null; otherwise nothing changes |
| Link.LinkAction.OnMouseDown | src/context.ts:163 | with a mousedown listener, prefetches at once |
| Link.LinkAction.OnTimer | src/context.ts:150 | a pending timer fires once and runs `prefetch` |
| Link.EnterThenLeave | src/context.ts:149-160 | hover mode, enter then leave: no timer is left pending, so no prefetch can follow |
| Link.EnterAndStay | src/context.ts:149-151 | hover mode, enter and stay until the timer fires: exactly one prefetch for a same-origin href |
| Link.TimerOutlivesDestroy | src/context.ts:205-208 | `destroy` leaves a pending hover timer, which still fires `prefetch` |
| Link.UpdateBackKeepsListeners | src/context.ts:142 | updating back to the creation mode keeps the previous mode's listeners, because `update` compares against the creation options |
| Link.SameModeNeverListens | src/context.ts:141-142 | a link created with `prefetch: 'hover'` or `'click'` and updated only with that same mode keeps only its click listener and never listens for `mouseenter` or `mousedown`; `opts` is the last update |
| App.ResolveOptions | src/index.ts:67-74 | `id` defaults to `'app'` and `useScriptElementForInitialPage` to false |
| App.Body | src/index.ts:117 | the body template: it opens with `<div id="` and ends with the rendered content and `</div>`; `App.BodyRoundTrip` states what a reader gets back from it |
| App.BodyRoundTrip | src/index.ts:117 | an HTML reader gets back from the body the id, the page JSON exactly when the script element is not used, and the rendered content |
| App.ReplaceChar | src/index.ts:123-125 | a replacement that brings no `c` leaves no `c`, and a text without `c` is unchanged |
| App.ScriptElement | src/index.ts:121-126 | the pushed head element opens with `<script type="application/json" data-page="` and ends with `</script>`; `App.ScriptRoundTrip` states what a reader gets back from it |
| App.ScriptSafe | src/index.ts:122-125 | the script content contains no `<`, U+2028 or U+2029 |
| App.ScriptSafeIsSafeChars | src/index.ts:122-125 | the three chained replacements act character by character |
| App.ScriptSafeIdentity | src/index.ts:122-125 | JSON text without the three characters is used unchanged |
| App.ScriptRoundTrip | src/index.ts:121-126 | an HTML reader gets back from the script element the id, and as its whole text the script-safe JSON; nothing in it ends the element early |
| App.DecodeScriptSafe | src/index.ts:122-125 | reading the script content's escapes gives the same text as reading the JSON's own, so `JSON.parse` sees the same page |
| App.CreateServerApp | src/index.ts:104-133 | without a page it throws; otherwise the body is the template, the head is `[result.head]`, and the script element is pushed exactly when `useScriptElementForInitialPage` is set |
| Prefetch.PrefetchStatus.constructor | src/prefetch.svelte.ts:6-13 | in a browser, `isPrefetched` holds exactly when the cached lookup is non-null and `isPrefetching` when the in-flight one is; `lastUpdatedAt` is the cached `staleTimestamp` or null; off-browser both flags are false and the timestamp null |
| Prefetch.PrefetchStatus.Mount | src/prefetch.svelte.ts:15-16 | both handlers are registered, in the browser only |
| Prefetch.PrefetchStatus.Unmount | src/prefetch.svelte.ts:29-32 | teardown unregisters both handlers |
| Prefetch.PrefetchStatus.OnPrefetchingEvent | src/prefetch.svelte.ts:17-21 | an event for the current path sets `isPrefetching`; any other path changes nothing |
| Prefetch.PrefetchStatus.OnPrefetchedEvent | src/prefetch.svelte.ts:22-27 | an event for the current path sets `isPrefetched` and clears `isPrefetching`; any other path changes nothing; `isPrefetched` never goes back to false |
| Prefetch.PrefetchStatus.Flush | src/prefetch.svelte.ts:46-52 | off-browser it throws "Prefetching is only available in the browser."; in a browser the router flushes the current path with the hook's options |
| Prefetch.PrefetchedStays | src/prefetch.svelte.ts:13-27 | a prefetched page stays prefetched through any sequence of events, and `lastUpdatedAt` keeps its creation value |
| Prefetch.EventsAfterUnmount | src/prefetch.svelte.ts:29-32 | after teardown no event changes a flag |

## Left out

- src/bun.ts: an HTTP server over `Bun.serve`, pure I/O. It is not part of this model.
- src/poll.ts is a delegation to `router.poll`, and src/remember.svelte.ts a pass-through to the router's remember slot. Neither is part of this model; the form's own `store`/`restore` are modelled.
- The client branch of `createInertiaApp` (src/index.ts:76-103) is left out: it is DOM queries, a dynamic import, `JSON.parse`, `Promise.all` and history decryption. The reading side of the body and the script element is modelled instead, as the parsers in `App.BodyRoundTrip`, `App.ScriptRoundTrip` and `App.DecodeScriptSafe`.
- `JSON.stringify`, `URL` parsing and origin comparison, `Date.now` and the `CustomEvent`s dispatched on the node: foreign calls, taken as opaque strings, the `sameOrigin` predicate, or left out. The user's `on...` callbacks that the link passes to the router run inside the router, which is not part of this model.
- Form: the user's `on...` callbacks, `transform` and `remember` are assumed to return normally. The model omits them or treats them as total functions, so what happens when one throws is not captured:
  - `options.onSuccess` runs before `resolve(page)` (src/form.svelte.ts:188-189), and `options.onError` before `reject` (src/form.svelte.ts:197-198). If either throws, the promise stays pending for ever, while `Form.Form.OnSuccess` and `Form.Form.OnError` always settle it.
  - `onCancel` rejects first and then calls `options.onCancel` (src/form.svelte.ts:165-166), so a throwing user callback there does not affect the promise. The model does not represent this difference in order.
  - `transform` runs inside the promise executor (src/form.svelte.ts:155). If it throws, the promise is rejected before any router call, while `Form.Form.Submit` always records the call. A throwing `remember` (src/form.svelte.ts:316) makes `submit` throw before the promise is created, which is not modelled either.
- Svelte reactivity (`$state`, `$derived`, `untrack`, `onMount`, `onDestroy`) and the `Context` lookup. Fields are plain fields. `dirty` is a function of them, and mounting and teardown are explicit methods.
- lodash `cloneDeep` and `isEqual` are Dafny value semantics and `==`.
- The router's own behaviour (transport, caching, history) is left out. It appears only as the calls it receives and the callbacks the environment fires.
- Form.Form.Submit: the router call is recorded, not executed. Its later callbacks are separate methods the environment calls in any order, so the model does not prove that the router fires them in its documented sequence.
- Form.Form.SetDefaults: `useFormDerived` (src/form.svelte.ts:94-107) is not part of this model; its `default` setter does nothing, while the modelled setter is that of `useForm`.
- Form: error values that are `undefined` are left out. Every entry holds a string or an array of strings.
- Form.ActionTarget: a form element whose method lower-cases to a string that names no router verb (such as `dialog`) gives `None`. The source would then call an undefined router method.
- Form.Form.Submit: `submit` through the form element action (src/form.svelte.ts:218-236) is modelled as `ActionTarget` followed by `Submit`. The listener registration and `update` of the action's options are not modelled.
- Base.Lower lower-cases ASCII letters only. `toLowerCase` outside ASCII is not modelled, which only matters for tag and method names.
- Layout: `next` awaiting a promised `layout` is a plain lookup in the module graph. The resolver's own `await resolver(name)` is the choice of `start`.
- Layout.HierarchyLayout: because a cycle that misses the start loops for ever, the walk stops after `fuel` layouts with `OutOfFuel`. The source has no such bound.
- Link: a timer is an abstract id, and 75 ms passing is the call `OnTimer`.
- Link.LinkAction.OnClick: `preventDefault` is the `Visited` outcome; the DOM event itself is not modelled.
- App: the page object is known only through its component and its `JSON.stringify` text. `setup` is a parameter, and its `SvelteRenderResult` cast is taken as given.
- App.DecodeScriptSafe: the JSON reader decodes only the three escapes the script content introduces and keeps every other backslash pair. Full JSON parsing is not modelled.
- Prefetch: `usePrefetch` reads `window.location.pathname` afresh in each handler, so the path is a parameter of each event.

## Findings

| source | as written | input that shows it | evidently intended | confidence | as-written member | corrected member |
|---|---|---|---|---|---|---|
| src/layout.ts:36-41 | the `resolved` set is seeded with the start's component and never extended, so only a chain that returns to the start is reported | a page A whose layout chain is B -> C -> B: the loop alternates between B and C and never ends | report "Circular layout detected" for any component seen twice, by adding each visited component to `resolved` | medium, not executed | Layout.LoopNotDetected | Layout.CheckedTerminates |
