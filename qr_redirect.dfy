/** The QR-request redirect interceptor of `src/utils/qrRedirect.ts`.

    A `QRRedirectManager` replaces the page's `fetch` function and
    `XMLHttpRequest` constructor with wrappers that divert requests to the
    iTAK/ATAK QR-string endpoints: instead of reaching the network, such a
    request opens the configured QR generator page in a new tab and is
    answered with a fixed synthetic success. Every other request goes to the
    function or constructor the manager captured when it was built. A
    module-level singleton keeps at most one manager installed.

    The page is modelled by the `Window` class: the two patchable slots hold
    handles (`FetchRef`, `XhrCtor`); a patched handle carries what the
    wrapper closure captured (its manager, the manager's options and the
    previous slot value). Two handles are equal when those captures are; a
    closure made again by the same manager over the same slot value is a new
    function object in JavaScript but an equal handle here. `window.open` calls and pending `setTimeout` callbacks are
    logs that the model appends to and a driver drains. */
module QRRedirect {
  import opened Wrappers
  import opened Strings
  import Json

  // ---------------------------------------------------------------------------
  // Options

  /** One property of the options object a caller passes: left out, present
      with the value `undefined`, or present with a value. */
  datatype Field<T> = Omitted | Undefined | Given(value: T)

  /** `QRRedirectOptions` as a caller writes it; `{}` and a missing argument
      are both `NoOptions`. */
  datatype QRRedirectOptions = QRRedirectOptions(enableRedirect: Field<bool>, redirectUrl: Field<string>)

  const NoOptions := QRRedirectOptions(Omitted, Omitted)

  /** A property of the merged options object: `undefined` or a value. */
  datatype JsValue<T> = Undef | Defined(value: T)

  /** The options a manager keeps for its whole life. */
  datatype Options = Options(enableRedirect: JsValue<bool>, redirectUrl: JsValue<string>)

  const DefaultRedirectUrl := "/qr-generator.html"

  /** One property of `{...defaults, ...given}`: a property the caller wrote
      wins, even when its value is `undefined`. */
  function SpreadField<T>(default: T, f: Field<T>): JsValue<T> {
    match f
    case Omitted => Defined(default)
    case Undefined => Undef
    case Given(v) => Defined(v)
  }

  /** The constructor's merge of the caller's options over the defaults
      `enableRedirect: true` and `redirectUrl: '/qr-generator.html'`. */
  function MergeOptions(given: QRRedirectOptions): (o: Options)
    ensures given.enableRedirect == Omitted ==> o.enableRedirect == Defined(true)
    ensures given.redirectUrl == Omitted ==> o.redirectUrl == Defined(DefaultRedirectUrl)
    ensures given.enableRedirect.Given? ==> o.enableRedirect == Defined(given.enableRedirect.value)
    ensures given.redirectUrl.Given? ==> o.redirectUrl == Defined(given.redirectUrl.value)
    ensures given.enableRedirect == Undefined ==> o.enableRedirect == Undef
    ensures given.redirectUrl == Undefined ==> o.redirectUrl == Undef
  {
    Options(SpreadField(true, given.enableRedirect), SpreadField(DefaultRedirectUrl, given.redirectUrl))
  }

  /** `this.options.enableRedirect` is truthy. */
  predicate RedirectEnabled(o: Options) {
    o.enableRedirect == Defined(true)
  }

  /** Redirection is on unless the caller wrote `enableRedirect` as `false`
      or as `undefined`. */
  lemma RedirectEnabledIff(given: QRRedirectOptions)
    ensures RedirectEnabled(MergeOptions(given)) <==>
      given.enableRedirect == Omitted || given.enableRedirect == Given(true)
  {
  }

  /** The page a diverted request opens: `redirectUrl` when it is truthy,
      that is, a non-empty string; otherwise nothing is opened. */
  function TabFor(o: Options): (t: Option<string>)
    ensures t.Some? <==> o.redirectUrl.Defined? && o.redirectUrl.value != ""
    ensures t.Some? ==> t.value == o.redirectUrl.value
  {
    match o.redirectUrl
    case Defined(url) => if url != "" then Some(url) else None
    case Undef => None
  }

  // ---------------------------------------------------------------------------
  // The interception decision

  const ItakQrPath := "/api/itak_qr_string"
  const AtakQrPath := "/api/atak_qr_string"

  /** `shouldRedirect`: the URL contains one of the two QR-string paths,
      anywhere and with exact case. */
  function ShouldRedirect(url: string): (r: bool)
    ensures r <==> exists i: nat :: OccursAt(url, ItakQrPath, i) || OccursAt(url, AtakQrPath, i)
  {
    IncludesIff(url, ItakQrPath);
    IncludesIff(url, AtakQrPath);
    Includes(url, ItakQrPath) || Includes(url, AtakQrPath)
  }

  /** A full URL with a query string is a QR request. */
  lemma QrPathInsideUrl(origin: string, query: string)
    ensures ShouldRedirect(origin + ItakQrPath + query)
    ensures ShouldRedirect(origin + AtakQrPath + query)
  {
    var u := origin + ItakQrPath + query;
    assert u[|origin|..|origin| + |ItakQrPath|] == ItakQrPath;
    assert OccursAt(u, ItakQrPath, |origin|);
    var v := origin + AtakQrPath + query;
    assert v[|origin|..|origin| + |AtakQrPath|] == AtakQrPath;
    assert OccursAt(v, AtakQrPath, |origin|);
  }

  /** A URL as long as a QR path matches only by being one of the two
      paths; so matching is case-sensitive (`/API/ITAK_QR_STRING` is not a
      QR request). */
  lemma PathLengthUrl(url: string)
    requires |url| == |ItakQrPath|
    ensures ShouldRedirect(url) <==> url == ItakQrPath || url == AtakQrPath
  {
    IncludesShort(url, ItakQrPath);
    IncludesShort(url, AtakQrPath);
  }

  /** A JavaScript value handed to `fetch` or `open`: a string, `undefined`,
      or any other value (a `URL`, a `Request`, an init object), known only
      by its identity. */
  datatype JsArg = JsString(s: string) | JsUndefined | JsObject(ref: nat)

  /** `args[i]`, which is `undefined` past the end. */
  function ArgAt(args: seq<JsArg>, i: nat): JsArg {
    if i < |args| then args[i] else JsUndefined
  }

  /** `typeof url === 'string' && self.shouldRedirect(url)`: only string URLs
      are ever diverted. */
  predicate IsQrRequest(url: JsArg) {
    url.JsString? && ShouldRedirect(url.s)
  }

  // ---------------------------------------------------------------------------
  // The synthetic fetch response

  /** The fields of the object the patched `fetch` resolves to; the body
      readers are given by what they resolve to. */
  datatype Response = Response(
    ok: bool, status: int, redirected: bool, responseType: string, url: string,
    hasBody: bool, bodyUsed: bool, headerCount: nat,
    json: Json.StringObject, text: string,
    blobSize: nat, arrayBufferLength: nat, formDataEntries: nat)

  /** The resolved response for a diverted fetch of `url`. */
  function SyntheticResponse(url: string): (r: Response)
    ensures r.ok && r.status == 200 && !r.redirected && r.responseType == "basic"
    ensures r.url == url
    ensures r.json == Json.Payload && Json.Parse(r.text) == Some(Json.Payload)
    ensures !r.hasBody && !r.bodyUsed && r.headerCount == 0
    ensures r.blobSize == 0 && r.arrayBufferLength == 0 && r.formDataEntries == 0
  {
    Json.PayloadTextsDecode();
    Response(true, 200, false, "basic", url, false, false, 0,
             Json.Payload, Json.FetchText, 0, 0, 0)
  }

  /** The fetch path's `text()` is not the XHR path's `responseText`: one
      has a space after each colon and comma, the other is the output of
      `JSON.stringify`; both decode to the payload. */
  lemma ResponseTextsDiffer(url: string)
    ensures SyntheticResponse(url).text != Json.CompactText
    ensures Json.Parse(Json.CompactText) == Some(SyntheticResponse(url).json)
  {
    Json.PayloadTextsDiffer();
    Json.PayloadTextsDecode();
  }

  // ---------------------------------------------------------------------------
  // Slot handles

  /** A value of `window.fetch`: the page's own function, or the wrapper a
      manager installed, with the options and the previous function it
      captured. */
  datatype FetchRef =
    | NativeFetch
    | PatchedFetch(owner: QRRedirectManager, options: Options, original: FetchRef)

  /** A value of `window.XMLHttpRequest`: the page's own constructor, or the
      wrapper a manager installed. */
  datatype XhrCtor =
    | NativeXhr
    | PatchedXhr(owner: QRRedirectManager, options: Options, original: XhrCtor)

  /** The `open` of one XHR object: the browser's own, or a wrapper holding
      its manager's options and the `open` it replaced. */
  datatype OpenFn = NativeOpen | PatchedOpen(options: Options, original: OpenFn)

  /** The `open` an object built by `ctor` ends up with: each wrapper
      constructor builds its object with the constructor it captured and then
      wraps that object's `open`. */
  function OpenChain(ctor: XhrCtor): OpenFn
  {
    match ctor
    case NativeXhr => NativeOpen
    case PatchedXhr(_, options, original) => PatchedOpen(options, OpenChain(original))
  }

  // ---------------------------------------------------------------------------
  // Calling the patched functions

  /** What a call of a fetch function comes to. */
  datatype FetchOutcome =
    | Diverted(tab: Option<string>, response: Response)   // answered by a wrapper
    | Sent(receiver: JsArg, args: seq<JsArg>)             // reached the page's own fetch

  /** Calling `f` with receiver `receiver` and arguments `args`. A wrapper
      diverts a QR request; anything else it passes on, receiver and
      arguments untouched, to the function it captured. */
  function CallFetch(f: FetchRef, receiver: JsArg, args: seq<JsArg>): (r: FetchOutcome)
    ensures r.Diverted? <==> f.PatchedFetch? && IsQrRequest(ArgAt(args, 0))
    ensures r.Diverted? ==>
      r.tab == TabFor(f.options) && r.response == SyntheticResponse(ArgAt(args, 0).s)
    ensures r.Sent? ==> r == Sent(receiver, args)
  {
    match f
    case NativeFetch => Sent(receiver, args)
    case PatchedFetch(_, options, original) =>
      var url := ArgAt(args, 0);
      if IsQrRequest(url) then Diverted(TabFor(options), SyntheticResponse(url.s))
      else CallFetch(original, receiver, args)
  }

  /** The argument list a wrapper `open(method, url, ...args)` passes on:
      `[method, url, ...args]`, which pads a shorter call with `undefined`. */
  function ForwardedOpenArgs(args: seq<JsArg>): (r: seq<JsArg>)
    ensures |r| == if |args| < 2 then 2 else |args|
    ensures |args| >= 2 ==> r == args
    ensures forall i :: 0 <= i < |args| ==> r[i] == args[i]
    ensures forall i :: |args| <= i < |r| ==> r[i] == JsUndefined
  {
    [ArgAt(args, 0), ArgAt(args, 1)] + (if |args| > 2 then args[2..] else [])
  }

  /** What a call of an XHR object's `open` comes to. */
  datatype OpenOutcome =
    | Swallowed(tab: Option<string>)      // the wrapper schedules a fake completion
    | Opened(args: seq<JsArg>)            // reached the browser's own open

  /** Calling `fn` with `args` (`args[1]` is the URL). A wrapper swallows a QR
      request; anything else reaches the browser's own `open`. */
  function CallOpen(fn: OpenFn, args: seq<JsArg>): (r: OpenOutcome)
    ensures r.Swallowed? <==> fn.PatchedOpen? && IsQrRequest(ArgAt(args, 1))
    ensures r.Swallowed? ==> r.tab == TabFor(fn.options)
    ensures r.Opened? ==> r.args == if fn.NativeOpen? then args else ForwardedOpenArgs(args)
  {
    match fn
    case NativeOpen => Opened(args)
    case PatchedOpen(options, original) =>
      if IsQrRequest(ArgAt(args, 1)) then Swallowed(TabFor(options))
      else
        var forwarded := ForwardedOpenArgs(args);
        assert ArgAt(forwarded, 1) == ArgAt(args, 1);
        CallOpen(original, forwarded)
  }

  /** Through any chain of wrapper constructors, `open` is swallowed exactly
      when the slot held a wrapper and the URL is a QR request, opening the
      outermost wrapper's tab; a non-QR call made with at least a method and
      a URL reaches the browser unchanged. */
  lemma {:induction false} ConstructedOpen(ctor: XhrCtor, args: seq<JsArg>)
    ensures CallOpen(OpenChain(ctor), args).Swallowed? <==> ctor.PatchedXhr? && IsQrRequest(ArgAt(args, 1))
    ensures CallOpen(OpenChain(ctor), args).Swallowed? ==> CallOpen(OpenChain(ctor), args).tab == TabFor(ctor.options)
    ensures |args| >= 2 && !CallOpen(OpenChain(ctor), args).Swallowed? ==> CallOpen(OpenChain(ctor), args) == Opened(args)
  {
    if ctor.PatchedXhr? && !IsQrRequest(ArgAt(args, 1)) {
      ConstructedOpen(ctor.original, ForwardedOpenArgs(args));
    }
  }

  // ---------------------------------------------------------------------------
  // send() on a diverted XHR object (see README, Findings)

  datatype SendResult = SendStarted | InvalidStateError | SendSkipped

  /** The browser's `send()`: it throws an `InvalidStateError` unless the
      browser's own `open` has run on the object (the XMLHttpRequest
      Living Standard, section 3.5.6 "The send() method", step 1). */
  function NativeSend(nativeOpened: bool): (r: SendResult)
    ensures r == InvalidStateError <==> !nativeOpened
    ensures r != SendSkipped
  {
    if nativeOpened then SendStarted else InvalidStateError
  }

  /** `send()` as the source leaves it: the wrapper replaces only `open`, so
      `send()` is the browser's, even on an object whose `open` was
      swallowed. */
  function SendAsWritten(nativeOpened: bool, diverted: bool): (r: SendResult)
    ensures r == InvalidStateError <==> !nativeOpened
    ensures r == SendStarted <==> nativeOpened
    ensures r != SendSkipped
  {
    NativeSend(nativeOpened)
  }

  /** `send()` as the interceptor evidently intends it: a no-op on an object
      whose last `open` was swallowed, the browser's otherwise. */
  function SendCorrected(nativeOpened: bool, diverted: bool): (r: SendResult)
    ensures diverted ==> r == SendSkipped
    ensures !diverted ==> r == NativeSend(nativeOpened)
    ensures r != InvalidStateError <==> diverted || nativeOpened
  {
    if diverted then SendSkipped else NativeSend(nativeOpened)
  }

  // ---------------------------------------------------------------------------
  // The page

  /** The fake completion is scheduled this many milliseconds after `open`. */
  const CompletionDelay: nat := 100

  /** A scheduled `setTimeout` callback: the fake completion of one object. */
  datatype Timer = CompleteXhr(target: Xhr, delay: nat)

  /** One run of an object's `onreadystatechange`, with what the handler
      reads from the object at that moment. */
  datatype ReadyStateCall = ReadyStateCall(handler: nat, readyState: nat, status: nat, responseText: string)

  /** The global scope the interceptor patches. */
  class Window {
    var fetch: FetchRef
    var xmlHttpRequest: XhrCtor
    /** Every `window.open(url, '_blank')` call, in order. */
    var openedTabs: seq<string>
    /** Pending `setTimeout` callbacks, in firing order (every delay is the
        same, so firing order is scheduling order). */
    var timers: seq<Timer>
    /** Every call that reached the page's own `fetch`: receiver and
        arguments. */
    var networkFetches: seq<(JsArg, seq<JsArg>)>
    /** `document.readyState === 'loading'`. */
    var documentLoading: bool

    constructor (documentLoading: bool)
      ensures fetch == NativeFetch && xmlHttpRequest == NativeXhr
      ensures openedTabs == [] && timers == [] && networkFetches == []
      ensures this.documentLoading == documentLoading
    {
      fetch, xmlHttpRequest := NativeFetch, NativeXhr;
      openedTabs, timers, networkFetches := [], [], [];
      this.documentLoading := documentLoading;
    }

    /** The document finishes parsing; `DOMContentLoaded` listeners may run. */
    method FinishLoading()
      modifies this`documentLoading
      ensures !documentLoading
    {
      documentLoading := false;
    }

    /** Calls the fetch function `f` (usually the current `fetch`, or one a
        caller saved earlier) on `receiver` with `args`. */
    method Fetch(f: FetchRef, receiver: JsArg, args: seq<JsArg>) returns (r: FetchOutcome)
      modifies this`openedTabs, this`networkFetches
      ensures r == CallFetch(f, receiver, args)
      ensures openedTabs == old(openedTabs) + (if r.Diverted? && r.tab.Some? then [r.tab.value] else [])
      ensures networkFetches == old(networkFetches) + (if r.Sent? then [(receiver, args)] else [])
      decreases f
    {
      match f
      case NativeFetch =>
        networkFetches := networkFetches + [(receiver, args)];
        r := Sent(receiver, args);
      case PatchedFetch(_, options, original) =>
        var url := ArgAt(args, 0);
        if IsQrRequest(url) {
          var tab := TabFor(options);
          if tab.Some? {
            openedTabs := openedTabs + [tab.value];
          }
          r := Diverted(tab, SyntheticResponse(url.s));
          assert r == CallFetch(f, receiver, args);
        } else {
          assert CallFetch(f, receiver, args) == CallFetch(original, receiver, args);
          r := Fetch(original, receiver, args);
        }
    }

    /** `new ctor()`, where `ctor` is usually the current `XMLHttpRequest`. */
    method NewXMLHttpRequest(ctor: XhrCtor) returns (x: Xhr)
      ensures fresh(x) && x.Fresh() && x.open == OpenChain(ctor)
    {
      x := new Xhr(OpenChain(ctor));
    }

    /** `x.open(...args)`. */
    method Open(x: Xhr, args: seq<JsArg>) returns (r: OpenOutcome)
      modifies this`openedTabs, this`timers, x`nativeOpened, x`nativeOpens, x`diverted
      ensures r == CallOpen(x.open, args)
      ensures openedTabs == old(openedTabs) + (if r.Swallowed? && r.tab.Some? then [r.tab.value] else [])
      ensures timers == old(timers) + (if r.Swallowed? then [CompleteXhr(x, CompletionDelay)] else [])
      ensures r.Swallowed? ==>
        x.diverted && x.nativeOpened == old(x.nativeOpened) && x.nativeOpens == old(x.nativeOpens)
      ensures r.Opened? ==> !x.diverted && x.nativeOpened && x.nativeOpens == old(x.nativeOpens) + [r.args]
    {
      r := OpenThrough(x, x.open, args);
    }

    /** Runs `fn`, one layer of `x`'s `open`, with `args`. */
    method OpenThrough(x: Xhr, fn: OpenFn, args: seq<JsArg>) returns (r: OpenOutcome)
      modifies this`openedTabs, this`timers, x`nativeOpened, x`nativeOpens, x`diverted
      ensures r == CallOpen(fn, args)
      ensures openedTabs == old(openedTabs) + (if r.Swallowed? && r.tab.Some? then [r.tab.value] else [])
      ensures timers == old(timers) + (if r.Swallowed? then [CompleteXhr(x, CompletionDelay)] else [])
      ensures r.Swallowed? ==>
        x.diverted && x.nativeOpened == old(x.nativeOpened) && x.nativeOpens == old(x.nativeOpens)
      ensures r.Opened? ==> !x.diverted && x.nativeOpened && x.nativeOpens == old(x.nativeOpens) + [r.args]
      decreases fn
    {
      match fn
      case NativeOpen =>
        x.nativeOpened, x.diverted := true, false;
        x.nativeOpens := x.nativeOpens + [args];
        r := Opened(args);
      case PatchedOpen(options, original) =>
        var url := ArgAt(args, 1);
        if IsQrRequest(url) {
          var tab := TabFor(options);
          if tab.Some? {
            openedTabs := openedTabs + [tab.value];
          }
          timers := timers + [CompleteXhr(x, CompletionDelay)];
          x.diverted := true;
          r := Swallowed(tab);
        } else {
          var forwarded := ForwardedOpenArgs(args);
          assert ArgAt(forwarded, 1) == ArgAt(args, 1);
          r := OpenThrough(x, original, forwarded);
        }
    }

    /** Fires the earliest pending timer, if there is one. A completion fires
        whatever happened to the slots since it was scheduled: it holds its
        own object. */
    method RunNextTimer() returns (ran: bool)
      modifies this`timers, if timers == [] then {} else {timers[0].target}
      ensures ran <==> old(timers) != []
      ensures !ran ==> timers == old(timers)
      ensures ran ==> timers == old(timers)[1..]
      ensures ran ==>
        var x := old(timers)[0].target;
        x.redefined && x.readyStateCalls == old(x.CallsAfterCompletion())
        && unchanged(x`nativeOpened, x`diverted, x`onreadystatechange, x`nativeOpens, x`nativeSends)
    {
      ran := timers != [];
      if ran {
        var x := timers[0].target;
        timers := timers[1..];
        x.Complete();
      }
    }
  }

  /** An `XMLHttpRequest` object as the page sees it. Its `Send` is the
      corrected `send()` (`SendCorrected`); the program as written leaves the
      browser's `send()` in place, which `SendAsWritten` and
      `DivertedSendThrows` describe. */
  class Xhr {
    /** The object's `open`, fixed when it was constructed. */
    const open: OpenFn
    /** The browser's own `open` has run: the object's native state is
        OPENED. */
    var nativeOpened: bool
    /** The fake completion has run: `status`, `responseText` and
        `readyState` are own read-only properties from then on. */
    var redefined: bool
    /** The last `open` call was swallowed by a wrapper; only the corrected
        `send` reads this. */
    var diverted: bool
    /** The handler assigned to `onreadystatechange`, by identity. */
    var onreadystatechange: Option<nat>
    var readyStateCalls: seq<ReadyStateCall>
    /** Argument lists that reached the browser's own `open`. */
    var nativeOpens: seq<seq<JsArg>>
    /** Bodies the browser's own `send` accepted. */
    var nativeSends: seq<JsArg>

    /** A new object: nothing has happened to it yet. */
    ghost predicate Fresh()
      reads this
    {
      !nativeOpened && !redefined && !diverted && onreadystatechange == None
      && readyStateCalls == [] && nativeOpens == [] && nativeSends == []
    }

    constructor (open: OpenFn)
      ensures this.open == open && Fresh()
    {
      this.open := open;
      nativeOpened, redefined, diverted := false, false, false;
      onreadystatechange := None;
      readyStateCalls, nativeOpens, nativeSends := [], [], [];
    }

    /** `readyState` as read by the page: 4 once redefined, OPENED (1) after
        the browser's own `open`, UNSENT (0) before. Network progress of a
        request that really went out is not modelled. */
    function ReadyState(): nat
      reads this
    {
      if redefined then 4 else if nativeOpened then 1 else 0
    }

    function Status(): nat
      reads this
    {
      if redefined then 200 else 0
    }

    function ResponseText(): string
      reads this
    {
      if redefined then Json.CompactText else ""
    }

    method SetOnReadyStateChange(handler: Option<nat>)
      modifies this`onreadystatechange
      ensures onreadystatechange == handler
    {
      onreadystatechange := handler;
    }

    /** The handler calls once the fake completion has run: one more call,
        seeing the completed object, when a handler is set. */
    function CallsAfterCompletion(): seq<ReadyStateCall>
      reads this
    {
      readyStateCalls +
        if onreadystatechange.Some?
        then [ReadyStateCall(onreadystatechange.value, 4, 200, Json.CompactText)]
        else []
    }

    /** The fake completion: define `status` 200, `responseText` (the payload
        through `JSON.stringify`) and `readyState` 4, then call the handler
        if one is set. Redefining a read-only property with the same value
        is allowed, so a second completion changes nothing but the calls. */
    method Complete()
      modifies this`redefined, this`readyStateCalls
      ensures redefined
      ensures ReadyState() == 4 && Status() == 200 && ResponseText() == Json.CompactText
      ensures readyStateCalls == old(CallsAfterCompletion())
    {
      redefined := true;
      if onreadystatechange.Some? {
        readyStateCalls := readyStateCalls +
          [ReadyStateCall(onreadystatechange.value, ReadyState(), Status(), ResponseText())];
      }
    }

    /** `send(body)`, with the corrected behaviour on a diverted object. */
    method Send(body: JsArg) returns (r: SendResult)
      modifies this`nativeSends
      ensures r == SendCorrected(nativeOpened, diverted)
      ensures nativeSends == old(nativeSends) + (if r == SendStarted then [body] else [])
    {
      r := SendCorrected(nativeOpened, diverted);
      if r == SendStarted {
        nativeSends := nativeSends + [body];
      }
    }
  }

  /** As written: a fresh object built through a wrapper constructor and
      opened on a QR URL is left un-opened, so the browser's `send()` throws
      on it; the corrected `send()` skips instead. */
  method DivertedSendThrows(win: Window, ctor: XhrCtor, args: seq<JsArg>) returns (x: Xhr)
    requires ctor.PatchedXhr? && IsQrRequest(ArgAt(args, 1))
    modifies win`openedTabs, win`timers
    ensures fresh(x) && x.open == OpenChain(ctor)
    ensures !x.nativeOpened && x.diverted
    ensures SendAsWritten(x.nativeOpened, x.diverted) == InvalidStateError
    ensures SendCorrected(x.nativeOpened, x.diverted) == SendSkipped
  {
    x := win.NewXMLHttpRequest(ctor);
    var o := win.Open(x, args);
  }

  // ---------------------------------------------------------------------------
  // The manager

  class QRRedirectManager {
    const win: Window
    const options: Options
    /** The slot values at construction, never captured again. */
    const originalFetch: FetchRef
    const originalXMLHttpRequest: XhrCtor
    var isInitialized: bool

    /** Merges the caller's options over the defaults and captures the
        current slots; patches nothing. */
    constructor (win: Window, given: QRRedirectOptions)
      ensures this.win == win && options == MergeOptions(given)
      ensures originalFetch == win.fetch && originalXMLHttpRequest == win.xmlHttpRequest
      ensures !isInitialized
    {
      this.win := win;
      options := MergeOptions(given);
      originalFetch := win.fetch;
      originalXMLHttpRequest := win.xmlHttpRequest;
      isInitialized := false;
    }

    /** The wrapper `setupFetchInterception` installs. */
    function FetchPatch(): FetchRef
    {
      PatchedFetch(this, options, originalFetch)
    }

    /** The wrapper `setupXHRInterception` installs. */
    function XhrPatch(): XhrCtor
    {
      PatchedXhr(this, options, originalXMLHttpRequest)
    }

    /** A call through this manager's fetch wrapper is diverted exactly when
        its first argument is a QR URL, opening this manager's tab; any
        other call behaves exactly as a call to the captured fetch. */
    lemma FetchPatchIntercepts(receiver: JsArg, args: seq<JsArg>)
      ensures CallFetch(FetchPatch(), receiver, args).Diverted? <==> IsQrRequest(ArgAt(args, 0))
      ensures CallFetch(FetchPatch(), receiver, args).Diverted? ==>
        CallFetch(FetchPatch(), receiver, args).tab == TabFor(options)
      ensures !IsQrRequest(ArgAt(args, 0)) ==>
        CallFetch(FetchPatch(), receiver, args) == CallFetch(originalFetch, receiver, args)
    {
    }

    /** On an object built by this manager's constructor wrapper, `open` is
        swallowed exactly when its URL is a QR URL, opening this manager's
        tab; any other call with a method and a URL behaves as on an object
        of the captured constructor. */
    lemma XhrPatchIntercepts(args: seq<JsArg>)
      ensures CallOpen(OpenChain(XhrPatch()), args).Swallowed? <==> IsQrRequest(ArgAt(args, 1))
      ensures CallOpen(OpenChain(XhrPatch()), args).Swallowed? ==>
        CallOpen(OpenChain(XhrPatch()), args).tab == TabFor(options)
      ensures |args| >= 2 && !IsQrRequest(ArgAt(args, 1)) ==>
        CallOpen(OpenChain(XhrPatch()), args) == CallOpen(OpenChain(originalXMLHttpRequest), args)
    {
    }

    method SetupFetchInterception()
      modifies win`fetch
      ensures win.fetch == FetchPatch()
    {
      win.fetch := FetchPatch();
    }

    method SetupXHRInterception()
      modifies win`xmlHttpRequest
      ensures win.xmlHttpRequest == XhrPatch()
    {
      win.xmlHttpRequest := XhrPatch();
    }

    /** Patches both slots, unless already initialized or redirection is
        off; in those cases nothing changes. */
    method Initialize()
      modifies this`isInitialized, win`fetch, win`xmlHttpRequest
      ensures old(isInitialized) || !RedirectEnabled(options) ==>
        isInitialized == old(isInitialized) && win.fetch == old(win.fetch)
        && win.xmlHttpRequest == old(win.xmlHttpRequest)
      ensures !old(isInitialized) && RedirectEnabled(options) ==>
        isInitialized && win.fetch == FetchPatch() && win.xmlHttpRequest == XhrPatch()
    {
      if isInitialized || !RedirectEnabled(options) {
        return;
      }
      SetupFetchInterception();
      SetupXHRInterception();
      isInitialized := true;
    }

    /** Writes the captured slot values back and clears the flag; does
        nothing on a manager that is not initialized. */
    method Destroy()
      modifies this`isInitialized, win`fetch, win`xmlHttpRequest
      ensures !isInitialized
      ensures !old(isInitialized) ==>
        win.fetch == old(win.fetch) && win.xmlHttpRequest == old(win.xmlHttpRequest)
      ensures old(isInitialized) ==>
        win.fetch == originalFetch && win.xmlHttpRequest == originalXMLHttpRequest
    {
      if !isInitialized {
        return;
      }
      win.fetch := originalFetch;
      win.xmlHttpRequest := originalXMLHttpRequest;
      isInitialized := false;
    }
  }

  // ---------------------------------------------------------------------------
  // The module-level singleton

  /** The module state of `qrRedirect.ts`: `globalRedirectManager`, plus the
      `DOMContentLoaded` listeners `autoInitializeQRRedirect` registered. */
  class QRRedirectModule {
    const win: Window
    var globalRedirectManager: QRRedirectManager?
    /** Options of registered, not yet run auto-initialisations. */
    var pendingAutoInits: seq<QRRedirectOptions>
    /** The slots before any manager of this module patched them. */
    ghost const pristineFetch: FetchRef
    ghost const pristineXhr: XhrCtor
    /** Managers this module created and then replaced or destroyed. */
    ghost var retired: set<QRRedirectManager>

    /** The singleton invariant: the registered manager captured the pristine
        slots and is the only one of this module's managers that may be
        initialized; the slots hold its wrappers while it is initialized and
        the pristine values otherwise. */
    ghost predicate Valid()
      reads this, win, globalRedirectManager, retired
    {
      (forall r <- retired :: !r.isInitialized)
      && if globalRedirectManager == null then
        win.fetch == pristineFetch && win.xmlHttpRequest == pristineXhr
      else
        var m := globalRedirectManager;
        m.win == win && m !in retired
        && m.originalFetch == pristineFetch && m.originalXMLHttpRequest == pristineXhr
        && (m.isInitialized ==> win.fetch == m.FetchPatch() && win.xmlHttpRequest == m.XhrPatch())
        && (!m.isInitialized ==> win.fetch == pristineFetch && win.xmlHttpRequest == pristineXhr)
    }

    /** The registered manager was built from `given` alone over the pristine
        slots, and has patched them exactly when `given` leaves redirection
        on. */
    ghost predicate RegisteredFrom(given: QRRedirectOptions)
      reads this, win, globalRedirectManager
    {
      var m := globalRedirectManager;
      m != null && m.options == MergeOptions(given)
      && m.originalFetch == pristineFetch && m.originalXMLHttpRequest == pristineXhr
      && (RedirectEnabled(m.options) ==>
            m.isInitialized && win.fetch == m.FetchPatch() && win.xmlHttpRequest == m.XhrPatch())
      && (!RedirectEnabled(m.options) ==>
            !m.isInitialized && win.fetch == pristineFetch && win.xmlHttpRequest == pristineXhr)
    }

    /** Module load: no manager yet. */
    constructor (win: Window)
      ensures this.win == win && globalRedirectManager == null && pendingAutoInits == []
      ensures pristineFetch == win.fetch && pristineXhr == win.xmlHttpRequest
      ensures Valid()
    {
      this.win := win;
      globalRedirectManager := null;
      pendingAutoInits := [];
      pristineFetch := win.fetch;
      pristineXhr := win.xmlHttpRequest;
      retired := {};
    }

    /** Destroys the registered manager, if any, then registers and
        initializes a new one built from `given` alone. */
    method InitializeQRRedirect(given: QRRedirectOptions)
      requires Valid()
      modifies this, win`fetch, win`xmlHttpRequest, globalRedirectManager
      ensures Valid()
      ensures globalRedirectManager != null && fresh(globalRedirectManager)
      ensures RegisteredFrom(given)
      ensures old(globalRedirectManager) != null ==>
        !old(globalRedirectManager).isInitialized && old(globalRedirectManager) in retired
      ensures pendingAutoInits == old(pendingAutoInits)
    {
      if globalRedirectManager != null {
        globalRedirectManager.Destroy();
        retired := retired + {globalRedirectManager};
      }
      var m := new QRRedirectManager(win, given);
      globalRedirectManager := m;
      m.Initialize();
    }

    /** Destroys and unregisters the registered manager; a no-op when there
        is none. */
    method DestroyQRRedirect()
      requires Valid()
      modifies this, win`fetch, win`xmlHttpRequest, globalRedirectManager
      ensures Valid()
      ensures globalRedirectManager == null
      ensures win.fetch == pristineFetch && win.xmlHttpRequest == pristineXhr
      ensures old(globalRedirectManager) != null ==> old(globalRedirectManager) in retired
      ensures old(globalRedirectManager) == null ==> unchanged(this)
      ensures pendingAutoInits == old(pendingAutoInits)
    {
      if globalRedirectManager != null {
        globalRedirectManager.Destroy();
        retired := retired + {globalRedirectManager};
        globalRedirectManager := null;
      }
    }

    /** Initializes now, or, while the document is still loading, registers
        the initialisation to run on `DOMContentLoaded`. */
    method AutoInitializeQRRedirect(given: QRRedirectOptions)
      requires Valid()
      modifies this, win`fetch, win`xmlHttpRequest, globalRedirectManager
      ensures Valid()
      ensures win.documentLoading ==>
        pendingAutoInits == old(pendingAutoInits) + [given]
        && globalRedirectManager == old(globalRedirectManager)
        && win.fetch == old(win.fetch) && win.xmlHttpRequest == old(win.xmlHttpRequest)
      ensures !win.documentLoading ==>
        pendingAutoInits == old(pendingAutoInits)
        && globalRedirectManager != null && fresh(globalRedirectManager)
        && RegisteredFrom(given)
    {
      if win.documentLoading {
        pendingAutoInits := pendingAutoInits + [given];
      } else {
        InitializeQRRedirect(given);
      }
    }

    /** Runs the earliest registered auto-initialisation once the document
        has finished loading. */
    method RunPendingAutoInit() returns (ran: bool)
      requires Valid()
      modifies this, win`fetch, win`xmlHttpRequest, globalRedirectManager
      ensures Valid()
      ensures ran <==> !win.documentLoading && old(pendingAutoInits) != []
      ensures !ran ==>
        unchanged(this) && win.fetch == old(win.fetch) && win.xmlHttpRequest == old(win.xmlHttpRequest)
      ensures ran ==>
        pendingAutoInits == old(pendingAutoInits)[1..]
        && globalRedirectManager != null && fresh(globalRedirectManager)
        && RegisteredFrom(old(pendingAutoInits)[0])
    {
      ran := !win.documentLoading && pendingAutoInits != [];
      if ran {
        var given := pendingAutoInits[0];
        pendingAutoInits := pendingAutoInits[1..];
        InitializeQRRedirect(given);
      }
    }
  }
}
