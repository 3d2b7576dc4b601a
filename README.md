# Hash-mode history adapter (vue-router fork with layer stacks)

This project models the hash-mode history of a vue-router fork in Dafny. In
this fork, the router's current location is a stack of layers (routes), not
one route. The hash history keeps that stack in step with the browser's
address fragment (`#/...`) and with the state object of each history entry.

The model has five modules:

- `Fragment` is the fragment codec. It holds `getHash` (the decoded text
  after the first `#`; the query after the first `?`, or a second `#`, is
  left undecoded) and `getUrl` (the address before the first `#`, then `#`
  and the path). Both are pure functions on strings. `decodeURI` is a
  parameter.
- `LayerStack` holds routes and raw locations, the outcome of the
  transition engine, and the candidate lists built by `navigateLastLayer`,
  `navigateLayer`, `navigateAddLayer` and `navigateRemoveLayer`. The
  `Array.prototype.slice` index rules are modelled in full, negative and
  out-of-range indices included.
- `Browser` is the browser as an explicit environment. A class `Window`
  holds the address (`href`), the entry state (`history.state`) and a log
  of every write: `Push`, `Replace`, `LocationReplace` and `HashAssign`. It
  also logs calls of the scroll collaborator (`Scroll`).
- `HashMode` holds `pushHash`, `replaceHash`, `ensureSlash` and
  `checkFallback` as methods on the window. It also holds the
  `HashHistory` class, whose `current` field is the layer stack.
- `Options` holds a small `Option` type.

The transition engine of the base history is a caller-supplied function
`resolve`. It maps a request to an outcome: the committed stack plus the
route handed to the completion callback, or an abort error. `cleanPath`
and `getLocation` are function parameters. `decodeURI` and
`supportsPushState` are constants of the window.

Points where the code behaves unexpectedly:

- `checkFallback` returns `undefined`, not `false`, when it does not
  redirect (here `None`).
- `navigateRemoveLayer` on a one-layer stack requests the empty list. If
  the engine then commits an empty stack, reading its top throws (`Threw`).
- The `push` argument of every navigate method is unused: they always call
  `pushHash`.
- The listener checks `typeof history.state.state === 'object'`, not
  whether the value is a list.
- `ensureURL` is not idempotent. It hands `cleanPath(base + fullPath)`, not
  `getUrl(fullPath)`, to the push-state helper. When that target has no
  `#`, `getHash()` then reads `""`, so a second call writes again
  (`HashMode.HashHistory.EnsureURL`, `HashMode.EnsureUrlTargetWithoutFragment`).

The push-state helper (`pushState(url, state, replace)`) lives in a file
that is not part of this model. It is taken to move the address to `url`
and to store `{ state }` as the entry state (`replaceState(url)` is the
same with `replace` set). `location.replace` and a hash assignment are
taken to leave a `null` entry state.

## Model

| member | source | states |
|---|---|---|
| Fragment.IndexOf | src/history/hash.js:131-141 | `indexOf` gives -1 exactly when the character is absent, and otherwise the position of its first occurrence |
| Fragment.HashOf | src/history/hash.js:127-133 | `getHash()` is `""` when the address has no `#` |
| Fragment.HashOfAfterFirstHash | src/history/hash.js:130-135 | `getHash()` works only on the text after the first `#` of the address |
| Fragment.StartsWithSlash | src/history/hash.js:120 | `path.charAt(0) === '/'` holds exactly when `/` is a prefix of the path; false on `""` |
| Fragment.DecodeHash | src/history/hash.js:139-146 | with neither `?` nor a second `#`, the whole fragment is decoded |
| Fragment.DecodeHashAtQuery | src/history/hash.js:139-140 | with a `?` at first position q, the result is `decode(r[..q]) + r[q..]`: the query stays as it is |
| Fragment.DecodeHashAtSecondHash | src/history/hash.js:140-143 | without a `?`, and with a second `#` at first position h, the result is `decode(r[..h]) + r[h..]` |
| Fragment.DecodeHashFixed | src/history/hash.js:139-146 | if decoding changes no prefix of the fragment, the decoding step returns it unchanged |
| Fragment.UrlFor | src/history/hash.js:151-156 | `getUrl(path)` is the address up to its first `#`, then `#`, then exactly `path` |
| Fragment.UrlForKeepsBase | src/history/hash.js:151-156 | the address built by `getUrl` has the same part before its first `#` as the old address |
| Fragment.BeforeHash | src/history/hash.js:151-154 | the kept base is a prefix of the address, holds no `#`, and stops exactly at the first `#` (or is the whole address) |
| Fragment.HashOfUrlFor | src/history/hash.js:127-156 | `getHash` applied to `getUrl(p)` reads back `p` through the decoding step |
| Fragment.UrlForReadsBack | src/history/hash.js:127-156 | `getHash` applied to `getUrl(p)` is exactly `p` when decoding leaves every prefix of `p` unchanged |
| Fragment.UrlForReplacesFragment | src/history/hash.js:151-156 | `getUrl` keeps the address before `#`: building twice equals building once with the last path |
| Fragment.DecodeHashKeepsSlash | src/history/hash.js:139-146 | if decoding keeps a leading `/`, the decoding step keeps the leading `/` of a fragment |
| Fragment.SlashSurvivesReadBack | src/history/hash.js:118-156 | if decoding keeps a leading `/`, a path starting with `/` written by `getUrl` reads back with a leading `/` |
| LayerStack.SliceIndex | src/history/hash.js:63-87 | a `slice` index in `[0, n]` is kept, a negative one counts back from `n`, and the result is clamped to `0` below and `n` above |
| LayerStack.Slice | src/history/hash.js:61-89 | `slice(a, b)` with `0 <= a <= b <= n` is `s[a..b]`, `slice(0, -1)` drops the last element, and a start past the end gives `[]` |
| LayerStack.FullPaths | src/history/hash.js:99 | `current.map(r => r.fullPath)` keeps length and order |
| LayerStack.LastLayerCandidates | src/history/hash.js:61-66 | length `n` (or `[location]` when `n = 0`); the last entry is `location`; the first `n-1` are the layers' `fullPath`s |
| LayerStack.LayerCandidates | src/history/hash.js:69-75 | for `0 <= i < n`: length `n`, position `i` is `location`, every other position `j` is `current[j].fullPath` |
| LayerStack.AddLayerCandidates | src/history/hash.js:78-83 | length `n+1`: all `n` `fullPath`s in order, then `location` |
| LayerStack.RemoveLayerCandidates | src/history/hash.js:86-88 | the first `n-1` `fullPath`s, so `[]` when `n <= 1`; no location occurs in it |
| LayerStack.LastLayerIsTopLayer | src/history/hash.js:61-75 | on a non-empty stack, `navigateLastLayer` builds the same list as `navigateLayer` at index `n-1` |
| LayerStack.LayerPastTopAdds | src/history/hash.js:69-83 | `navigateLayer` with an index at or past the top builds the same list as `navigateAddLayer` |
| LayerStack.RemoveIsLastWithoutTop | src/history/hash.js:61-89 | the `navigateLastLayer` list is the `navigateRemoveLayer` list followed by `location` |
| Browser.PushStateEffect | src/history/hash.js:95-101 | the push-state call writes the address and adds an entry exactly when `replace` is false |
| Browser.HrefAfter | src/history/hash.js:158-172 | a scroll call leaves the address alone; a push-state write or `location.replace` moves it to the given URL; a hash assignment keeps the part before the first `#` and leaves the address at `getUrl(path)` |
| Browser.EntryAfter | src/history/hash.js:158-172 | a scroll call leaves the entry state alone; a push-state write stores `{ state }`; `location.replace` and a hash assignment leave no state object |
| Browser.Window.Perform | src/history/hash.js:158-172 | a write moves the address and the entry state as `HrefAfter` and `EntryAfter` describe, and is appended to the log |
| HashMode.PushHashEffect | src/history/hash.js:158-164 | `pushHash` always adds an entry (push-state push or hash assignment) and leaves the address at `getUrl(path)` |
| HashMode.ReplaceHashEffect | src/history/hash.js:166-172 | `replaceHash` never adds an entry (replace or `location.replace`) and leaves the address at `getUrl(path)` |
| HashMode.PushHash | src/history/hash.js:158-164 | exactly one write, the `pushHash` effect, is logged; the address becomes `getUrl(path)` |
| HashMode.ReplaceHash | src/history/hash.js:166-172 | exactly one write, the `replaceHash` effect, is logged; the address becomes `getUrl(path)` |
| HashMode.EnsureSlash | src/history/hash.js:118-125 | true with nothing written iff the fragment starts with `/`; otherwise exactly one replace to `getUrl('/' + hash)`, no push, and false; after a correction the fragment starts with `/` |
| HashMode.CheckFallback | src/history/hash.js:108-116 | a redirect `location.replace(cleanPath(base + '/#' + loc))` and `true` exactly when `loc` does not start with `/#`; otherwise nothing written and `undefined` |
| HashMode.GetHash | src/history/hash.js:127-130 | `getHash()` on the window is `""` when the address has no `#` |
| HashMode.StartsWithRootHash | src/history/hash.js:110 | the fallback test `/^\/#/` holds exactly when the location starts with `/#` |
| HashMode.EventRequest | src/history/hash.js:36-39 | the request is the saved layer list when the entry's `state` is an object, else `[getHash()]` |
| HashMode.ReplayEffects | src/history/hash.js:40-47 | a listener replay never adds an entry; with push-state it writes no address and is exactly the scroll call from popstate when scrolling is expected, else nothing; without it, it makes one replace to `getUrl(route.fullPath)` |
| HashMode.SavedEntryReplaysStack | src/history/hash.js:36-39 | an entry saved by `ensureURL` replays every layer's `fullPath` in order |
| HashMode.HashEntryReplaysFragment | src/history/hash.js:36-39 | an entry written by `pushHash` or `replaceHash` replays `[getHash()]` |
| HashMode.EnsureUrlTargetWithoutFragment | src/history/hash.js:95-101 | an address without `#` reads back `""`, which differs from any non-empty `fullPath` |
| HashMode.HashHistory.constructor | src/history/hash.js:11-18 | with fallback and a location not under `/#`: exactly one `location.replace`, the address becomes its target and no state object is left; otherwise the `ensureSlash` effect, with the address at `getUrl('/' + hash)` after a correction and the address and entry state unchanged without one |
| HashMode.HashHistory.SupportsScroll | src/history/hash.js:24-25 | scroll support implies both push-state and an expected scroll behaviour, so without push-state there is none |
| HashMode.HashHistory.ReplayScrollsIffSupported | src/history/hash.js:40-43 | a listener replay calls `handleScroll(..., true)` exactly when `supportsScroll` holds |
| HashMode.HashHistory.GetCurrentLocation | src/history/hash.js:103-105 | the decoded fragment, `""` when the address has no `#` |
| HashMode.HashHistory.NavigateAllLayers | src/history/hash.js:51-59 | on abort nothing is committed or written and `onAbort` gets the error; on success the stack is committed, then one `pushHash` of the top `fullPath` and one scroll call (not from popstate) are logged, `onComplete` gets the top route, and `getHash()` reads its path back |
| HashMode.HashHistory.NavigateLastLayer | src/history/hash.js:61-67 | the engine receives the last-layer list of the old stack, then the shared tail |
| HashMode.HashHistory.NavigateLayer | src/history/hash.js:69-76 | the engine receives the layer list of the old stack, then the shared tail |
| HashMode.HashHistory.NavigateAddLayer | src/history/hash.js:78-84 | the engine receives the add-layer list of the old stack, then the shared tail |
| HashMode.HashHistory.NavigateRemoveLayer | src/history/hash.js:86-89 | the engine receives the remove-layer list of the old stack (independent of `location`), then the shared tail |
| HashMode.HashHistory.EnsureURL | src/history/hash.js:95-101 | nothing is written when `getHash()` equals the top `fullPath`; otherwise one push-state call to `cleanPath(base + fullPath)` saving the stack's paths, with replace flag `!push`; an empty stack throws; when that target has no `#` and the path is non-empty, `getHash()` afterwards still differs from the path, so a second call writes again |
| HashMode.HashHistory.PushTopLayer | src/history/hash.js:54-56 | the success callback logs one `pushHash` of the route's path and one scroll call, leaves the address at `getUrl(path)`, and `getHash()` reads the path back through the decoding step |
| HashMode.HashHistory.OnHistoryEvent | src/history/hash.js:31-48 | a fragment without a leading `/` gets one replace to `getUrl('/' + hash)`, which sets the address and entry state, and no transition; otherwise the engine receives the event request, and on success the stack is committed and the replay effects are logged |

## Left out

- Registration of the listener (`window.addEventListener`), `setupScroll`, and the event-type choice (hash.js:27-31). The listener body is the method `OnHistoryEvent`. `handleScroll` is only logged as a `Scroll` effect.
- `go(n)` (hash.js:91-93): a one-line forward to `window.history.go`.
- The base `History` class: `normalizeBase`, and the route resolution and confirmation inside `transitionTo`. The engine is the `resolve` parameter, and the initial stack is a constructor argument.
- Real percent-decoding. `decodeURI` is an abstract total function, so the `URIError` it throws on a malformed escape is not modelled.
- The browser's own percent-encoding of an assigned hash. Also left out: a hash assignment equal to the current fragment adds no entry. Here `HashAssign` always sets the address to `getUrl(path)`.
- A `state` field that is `null` or a non-list object. The listener would pass such a value to the engine as-is. The model's entry state holds only a list of paths or no object.
- Optional callbacks. Whether `onComplete` or `onAbort` is absent does not change the writes, so the reply is what they would receive.
- JavaScript numbers: the layer index is an unbounded integer, and fractional indices are not modelled.
- Asynchronous completion and competing in-flight navigations: the engine's outcome is taken as already reached.
- HrefAfter: URLs handed to the push-state helper or to `location.replace` are taken as absolute; relative URLs are not resolved against the address.
- HrefAfter: a hash assignment whose value starts with `#` is not stripped of it, as a browser would do; the hash history never assigns such a value.
- EntryAfter: the entry state after each write is an assumption about the push-state helper, which is not part of this model. Upstream, its replace branch copies the existing `history.state` before adding `{ state }`. The replace half of `HashMode.HashEntryReplaysFragment` rests on this assumption.
- Writes made by the transition engine itself: `resolve` is taken to write nothing to the browser, although upstream `transitionTo` can call `ensureURL` on its own.
- An omitted `push` argument of `ensureURL()` (`undefined`) is modelled as `push == false`, its falsy equivalent.
