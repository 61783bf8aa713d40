# QR redirect interceptor of OpenTAKServer-UI, in Dafny

OpenTAKServer-UI can take over the page's requests for an iTAK or ATAK
QR string (`src/utils/qrRedirect.ts`). A `QRRedirectManager` merges its
options over the defaults (`enableRedirect: true`,
`redirectUrl: '/qr-generator.html'`). It captures the page's `fetch` and
`XMLHttpRequest` when it is constructed. `initialize` then replaces both
with wrappers. A wrapper diverts any string URL that contains
`/api/itak_qr_string` or `/api/atak_qr_string`. A diverted request opens the
redirect page in a new tab and gets a synthetic success instead of reaching
the network:

- `fetch` resolves to a 200 response whose `json()` is
  `{qr_string: "redirected", message: "Redirected to custom QR generator"}`;
- an XHR object's `open` is swallowed, and 100 ms later its `status`,
  `responseText` and `readyState` are redefined and its
  `onreadystatechange` runs.

Every other request goes to what the manager captured, with the same
receiver and arguments; an XHR `open` with fewer than two arguments is
padded with `undefined` up to a method and a URL.
`destroy` puts the captured values back. The module keeps one global
manager: `initializeQRRedirect` destroys the registered one before it
builds the next, and `destroyQRRedirect` unregisters it.

Files:

- `wrappers.dfy`: `Option`.
- `strings.dfy`: `String.prototype.includes` and its characterisation by
  occurrence positions.
- `json.dfy`: `JSON.stringify` of flat string-valued objects whose keys are
  distinct and not array indices. It also has a reference decoder with a
  round-trip proof, and the two payload texts of the interceptor.
- `qr_redirect.dfy`: the interceptor.
  - Options and the interception decision are pure functions.
  - The wrapped `fetch` and `open` are recursive functions over slot handles
    that record what each wrapper captured.
  - The page (`Window`), XHR objects (`Xhr`), the manager
    (`QRRedirectManager`) and the module singleton (`QRRedirectModule`) are
    classes whose methods update their fields in place.
- `scenarios.dfy`: end-to-end runs whose assertions the verifier proves.

Slots hold handles rather than functions. `NativeFetch`/`NativeXhr` stand
for whatever the page had. `PatchedFetch(owner, options, original)` stands
for a wrapper closure by what it captured, so two handles are equal when
their captures are. `window.open`
calls, the page's own fetches and `setTimeout` callbacks are logs on
`Window`. A driver fires the timers one at a time (`RunNextTimer`). Every
timer has the same 100 ms delay, so firing order is scheduling order.

## Model

| member | source | states |
|---|---|---|
| Strings.IncludesIff | src/utils/qrRedirect.ts:137 | `includes(s, t)` holds exactly when `t` occurs in `s` at some position |
| Strings.IncludesShort | src/utils/qrRedirect.ts:137 | a string no longer than the searched text includes it only by being equal to it |
| Json.ParseStringify | src/utils/qrRedirect.ts:112-115 | decoding the serialised text gives back the same object, for every flat string-valued object; this is `JSON.stringify`'s text when the keys are distinct and not array indices |
| Json.ParseRender | src/utils/qrRedirect.ts:73 | the same round trip holds with any whitespace after colons and commas |
| Json.ReadQuoted | src/utils/qrRedirect.ts:112-115 | reading an escaped string literal gives back the original string and the text after the closing quote |
| Json.FetchTextIsSpacedPayload | src/utils/qrRedirect.ts:69-73 | the fetch response's `text()` literal is the `json()` payload written with one space after each colon and comma |
| Json.StringifiedPayload | src/utils/qrRedirect.ts:112-115 | `JSON.stringify` of the payload is the compact literal with no spaces |
| Json.PayloadTextsDecode | src/utils/qrRedirect.ts:69-73 | both the fetch `text()` and the XHR `responseText` decode to the payload |
| Json.PayloadTextsDiffer | src/utils/qrRedirect.ts:73 | the two texts differ: after the first colon one has a space, the other the opening quote |
| QRRedirect.MergeOptions | src/utils/qrRedirect.ts:15-20 | an omitted option takes its default; any option the caller wrote wins, including an explicit `undefined` |
| QRRedirect.RedirectEnabledIff | src/utils/qrRedirect.ts:27 | redirection is on exactly when `enableRedirect` is omitted or `true` |
| QRRedirect.TabFor | src/utils/qrRedirect.ts:61-63 | a tab is opened exactly when `redirectUrl` is a non-empty string, and it is that URL |
| QRRedirect.ShouldRedirect | src/utils/qrRedirect.ts:136-138 | true exactly when one of the two QR paths occurs somewhere in the URL |
| QRRedirect.QrPathInsideUrl | src/utils/qrRedirect.ts:136-138 | a QR path with any prefix and any suffix (origin, query) is a QR request |
| QRRedirect.PathLengthUrl | src/utils/qrRedirect.ts:136-138 | a URL as long as a QR path matches only when it is one of the two paths, so matching is case-sensitive |
| QRRedirect.SyntheticResponse | src/utils/qrRedirect.ts:66-84 | the diverted response is ok, 200, not redirected, of type `basic`, carries the request URL, has no body or headers, and its `json()` and `text()` both give the payload |
| QRRedirect.ResponseTextsDiffer | src/utils/qrRedirect.ts:73 | the fetch `text()` is not the XHR `responseText`, though both decode to the same payload |
| QRRedirect.ConstructedOpen | src/utils/qrRedirect.ts:95-124 | for an object built through any constructor slot, `open` is swallowed exactly when the slot held a wrapper and the URL is a QR string, and then opens the outermost wrapper's tab; a non-QR call with a method and a URL reaches the browser unchanged |
| QRRedirect.CallFetch | src/utils/qrRedirect.ts:53-89 | a call through any stack of fetch wrappers is diverted exactly when the top one is a wrapper and `args[0]` is a QR string; it then opens that wrapper's tab and yields the synthetic response; otherwise the page's fetch gets the same receiver and arguments |
| QRRedirect.ForwardedOpenArgs | src/utils/qrRedirect.ts:123 | the forwarded argument list keeps every argument in place, pads with `undefined` up to a method and a URL, and is unchanged when both were given |
| QRRedirect.CallOpen | src/utils/qrRedirect.ts:99-124 | a wrapped `open` is swallowed exactly when the URL argument is a QR string, opening that wrapper's tab; otherwise the browser's `open` gets the forwarded arguments |
| QRRedirect.SendAsWritten | src/utils/qrRedirect.ts:99-124 | `send()` is left as the browser's: it throws `InvalidStateError` exactly when the browser's own `open` did not run, starts the request otherwise, never skips, and a swallowed `open` makes no difference |
| QRRedirect.DivertedSendThrows | src/utils/qrRedirect.ts:95-124 | for any wrapper constructor and any QR URL, a fresh object whose `open` was swallowed is left un-opened and diverted, so `send()` as written throws `InvalidStateError` while the corrected one skips |
| QRRedirect.SendCorrected | src/utils/qrRedirect.ts:99-124 | corrected `send()`: a no-op after a swallowed `open`, the browser's otherwise; it throws only when neither open kind ran |
| QRRedirect.Window.Fetch | src/utils/qrRedirect.ts:53-89 | calling a fetch slot value gives `CallFetch`'s outcome, logs exactly one tab for a diverted call with a redirect URL, and logs one network call exactly when the call was not diverted |
| QRRedirect.Window.NewXMLHttpRequest | src/utils/qrRedirect.ts:95-127 | `new XMLHttpRequest()` through a slot value gives a fresh object whose `open` is `OpenChain` of that value |
| QRRedirect.Window.Open | src/utils/qrRedirect.ts:99-124 | a swallowed `open` logs the tab, queues exactly one completion of this object with delay 100, and leaves the object's native state alone; a forwarded one opens the object natively with the forwarded arguments and queues nothing |
| QRRedirect.Window.OpenThrough | src/utils/qrRedirect.ts:99-124 | the same, layer by layer, for any wrapped `open` |
| QRRedirect.Window.RunNextTimer | src/utils/qrRedirect.ts:109-120 | fires the earliest queued completion, whatever happened to the slots since, and changes only that object's completion state and handler calls |
| QRRedirect.Xhr.Complete | src/utils/qrRedirect.ts:109-120 | after completion the object reads status 200, readyState 4 and the `JSON.stringify` text; a set handler is called once and sees those values |
| QRRedirect.Xhr.Send | src/utils/qrRedirect.ts:99-124 | `send()` follows `SendCorrected` and starts a request only when it returns `SendStarted` |
| QRRedirect.QRRedirectManager.constructor | src/utils/qrRedirect.ts:15-24 | merges the options, captures the current slots, patches nothing |
| QRRedirect.QRRedirectManager.FetchPatchIntercepts | src/utils/qrRedirect.ts:53-89 | a call through the installed fetch wrapper is diverted exactly when `args[0]` is a QR string, opening this manager's tab; any other call behaves exactly as a call to the captured fetch |
| QRRedirect.QRRedirectManager.XhrPatchIntercepts | src/utils/qrRedirect.ts:95-133 | on an object built by the installed constructor wrapper, `open` is swallowed exactly when the URL is a QR string, opening this manager's tab; any other call with a method and a URL behaves as on an object of the captured constructor |
| QRRedirect.QRRedirectManager.SetupFetchInterception | src/utils/qrRedirect.ts:50-90 | `window.fetch` becomes this manager's wrapper |
| QRRedirect.QRRedirectManager.SetupXHRInterception | src/utils/qrRedirect.ts:92-134 | `window.XMLHttpRequest` becomes this manager's wrapper |
| QRRedirect.QRRedirectManager.Initialize | src/utils/qrRedirect.ts:26-36 | patches both slots and sets the flag; when already initialized or disabled it changes nothing, so a second call is a no-op |
| QRRedirect.QRRedirectManager.Destroy | src/utils/qrRedirect.ts:38-48 | after `initialize`, puts back exactly the captured values and clears the flag; otherwise changes nothing |
| QRRedirect.QRRedirectModule.constructor | src/utils/qrRedirect.ts:142 | at module load no manager is registered and the slots are the pristine values |
| QRRedirect.QRRedirectModule.InitializeQRRedirect | src/utils/qrRedirect.ts:144-151 | destroys and retires the registered manager first; the new one captures the pristine slots, uses only the new options, and has patched the slots exactly when those options enable redirection; at most one manager stays initialized |
| QRRedirect.QRRedirectModule.DestroyQRRedirect | src/utils/qrRedirect.ts:153-158 | restores the pristine slots and unregisters the manager; with none registered it changes nothing |
| QRRedirect.QRRedirectModule.AutoInitializeQRRedirect | src/utils/qrRedirect.ts:161-171 | while the document is loading it only registers the call; otherwise it is `initializeQRRedirect` |
| QRRedirect.QRRedirectModule.RunPendingAutoInit | src/utils/qrRedirect.ts:162-167 | once loading has finished, runs the earliest registered call as `initializeQRRedirect` |

## Left out

- `Object.setPrototypeOf` on the wrapper constructor (src/utils/qrRedirect.ts:130-131) is not modelled. It is JavaScript identity (`instanceof`, static members), not logic. The object a wrapper constructor returns is a real XHR object (`Xhr`) built by the captured constructor. In the source, `x instanceof XMLHttpRequest` after `initialize` is false for such an object, because its prototype chain never contains the wrapper's `prototype`; only `instanceof` against the captured native constructor holds.
- `console.log` calls are not modelled.
- Promises are not modelled: a diverted fetch yields its response directly. `Blob`, `ArrayBuffer`, `FormData` and `Headers` are given by their sizes, and `body: null` by `hasBody = false`.
- `clone()` returning the response itself is not modelled.
- Network progress of a request that really went out is not modelled. `Xhr.ReadyState` reports only UNSENT, OPENED, or 4 after the fake completion. The browser's `send` is reduced to its OPENED-state check. A native `open` also fires `readystatechange`; `readyStateCalls` records only the call made by the fake completion.
- `writable: false` is modelled as the completed object reading its redefined values, not as a rejected assignment.
- `window.open` is a log entry. A blocked pop-up is not modelled. The source has no `try`/`catch` around it, so nothing of that kind is swallowed.
- Handlers are numbers. A handler's own effects are not modelled, and neither is `this`, which is the XHR object.
- The `receiver` of a forwarded `open` is always the object itself in this model.
- `QRRedirectModule.Valid` assumes that nothing but this module's managers writes the two slots. A manager constructed directly while a global one is live would capture the global wrapper; this is possible in the source. The handle types and `CallFetch`/`CallOpen` cover such stacks, but the singleton invariant does not.
- `Json.Parse` is a reference decoder for flat objects with string values, used only to state what the texts mean. Duplicate keys are kept in order rather than merged as `JSON.parse` does.
- `Json.Parse` rejects every `\u` escape of a surrogate code unit, including a valid pair such as `\ud83d\ude00` that `JSON.parse` accepts. `Stringify` never writes one, so the round trip is unaffected.
- `Json.Stringify` writes members in sequence order and keeps repeated keys. `JSON.stringify` writes array-index keys first, and a JavaScript object has no repeated keys. The two agree only for distinct keys that are not array indices, which the payload's two keys are; `Json.ParseStringify` is stated for all sequences and says nothing about the others.
- `QRRedirectManager.FetchPatch`, `QRRedirectManager.XhrPatch`: a handle is a value, so a manager that is initialized, destroyed and initialized again installs an equal handle, where JavaScript creates a new closure that is not `===` to the first. No operation of the interceptor compares slot values, so nothing else depends on this.
- Dafny's `char` is a Unicode scalar value, so the lone-surrogate escaping of `JSON.stringify` does not arise.
- `src/components/ItakQRModal.tsx` (the React modal and its axios calls) is not part of this model.

## Findings

| source | as written | input that shows it | evidently intended | confidence | as-written member | corrected member |
|---|---|---|---|---|---|---|
| src/utils/qrRedirect.ts:99-124 | A QR `open` is swallowed, so the browser's `open` never runs. `send()` is not wrapped. By the XMLHttpRequest Living Standard, `send()` (and `setRequestHeader`) throw `InvalidStateError` when the object is not in the OPENED state. | `const x = new XMLHttpRequest(); x.open('GET', '/api/atak_qr_string'); x.send();` with the interceptor initialized. axios always calls `send` after `open`, and src/components/ItakQRModal.tsx:124 makes exactly this request. | The comment "Create a mock successful response" and the scheduled fake completion mean the caller should see success. A diverted object should therefore accept `send()` as a no-op. | not executed; medium (follows from the standard's `send()` steps) | QRRedirect.SendAsWritten, QRRedirect.DivertedSendThrows | QRRedirect.SendCorrected, QRRedirect.Xhr.Send |
