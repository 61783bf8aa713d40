/** End-to-end runs of the interceptor, written as proof obligations: each
    method drives the model through one story and asserts what the page
    observes. */
module QRRedirectScenarios {
  import opened Wrappers
  import opened QRRedirect
  import Json

  /** Default options: a fetch of the iTAK path opens the generator page
      once and resolves to the synthetic 200 response; destroying the
      manager puts the page's own fetch back. */
  method DefaultFetchIsDiverted() {
    var win := new Window(false);
    var m := new QRRedirectManager(win, NoOptions);
    m.Initialize();
    assert win.fetch == m.FetchPatch();
    assert ShouldRedirect(ItakQrPath);
    var r := win.Fetch(win.fetch, JsUndefined, [JsString(ItakQrPath)]);
    assert r.Diverted? && r.response.status == 200 && r.response.json == Json.Payload;
    assert win.openedTabs == [DefaultRedirectUrl];
    assert win.networkFetches == [];
    m.Destroy();
    assert win.fetch == NativeFetch && win.xmlHttpRequest == NativeXhr;
  }

  /** `enableRedirect: false`: nothing is patched, so a QR fetch reaches the
      network and opens nothing. */
  method DisabledManagerForwards() {
    var win := new Window(false);
    var m := new QRRedirectManager(win, QRRedirectOptions(Given(false), Omitted));
    m.Initialize();
    assert !m.isInitialized && win.fetch == NativeFetch;
    var r := win.Fetch(win.fetch, JsUndefined, [JsString(ItakQrPath)]);
    assert r == Sent(JsUndefined, [JsString(ItakQrPath)]);
    assert win.openedTabs == [] && |win.networkFetches| == 1;
  }

  /** A `Request` object is never diverted, even by a patched fetch; it is
      passed on with its receiver. */
  method NonStringUrlForwards() {
    var win := new Window(false);
    var m := new QRRedirectManager(win, NoOptions);
    m.Initialize();
    var r := win.Fetch(win.fetch, JsObject(1), [JsObject(7), JsObject(8)]);
    assert r == Sent(JsObject(1), [JsObject(7), JsObject(8)]);
    assert win.openedTabs == [];
  }

  /** Initialize twice, then destroy: the second call changes nothing and the
      slots come back to the very values captured at construction. */
  method InitializeTwiceThenDestroy() {
    var win := new Window(false);
    var m := new QRRedirectManager(win, NoOptions);
    m.Initialize();
    var f, c := win.fetch, win.xmlHttpRequest;
    m.Initialize();
    assert win.fetch == f && win.xmlHttpRequest == c;
    m.Destroy();
    assert win.fetch == m.originalFetch && win.xmlHttpRequest == m.originalXMLHttpRequest;
    m.Destroy();
    assert win.fetch == NativeFetch && !m.isInitialized;
  }

  /** An XHR object opened on the ATAK path: `open` is swallowed, one
      completion is queued, and `send()` (corrected) does nothing. */
  method XhrOpenIsSwallowed() {
    var win := new Window(false);
    var m := new QRRedirectManager(win, NoOptions);
    m.Initialize();
    var x := win.NewXMLHttpRequest(win.xmlHttpRequest);
    assert ShouldRedirect(AtakQrPath);
    var o := win.Open(x, [JsString("GET"), JsString(AtakQrPath)]);
    assert o == Swallowed(Some(DefaultRedirectUrl)) && win.openedTabs == [DefaultRedirectUrl];
    assert win.timers == [CompleteXhr(x, CompletionDelay)] && CompletionDelay > 0;
    var s := x.Send(JsUndefined);
    assert s == SendSkipped && x.nativeSends == [] && x.ReadyState() == 0;
  }

  /** The handler attached after `open` runs only when the queued completion
      fires, even after the manager is destroyed, and then sees status 200,
      readyState 4 and the `JSON.stringify` text. */
  method XhrCompletionFiresLater() {
    var win := new Window(false);
    var m := new QRRedirectManager(win, NoOptions);
    m.Initialize();
    var x := win.NewXMLHttpRequest(win.xmlHttpRequest);
    assert ShouldRedirect(AtakQrPath);
    var o := win.Open(x, [JsString("GET"), JsString(AtakQrPath)]);
    x.SetOnReadyStateChange(Some(5));
    assert x.readyStateCalls == [];
    m.Destroy();
    var ran := win.RunNextTimer();
    assert ran && win.timers == [];
    assert x.readyStateCalls == [ReadyStateCall(5, 4, 200, Json.CompactText)];
  }

  /** As written, `send()` after a swallowed `open` reaches the browser's
      own `send` on an object that was never opened, which throws. */
  method XhrSendAsWrittenThrows() {
    var win := new Window(false);
    var m := new QRRedirectManager(win, NoOptions);
    m.Initialize();
    var x := win.NewXMLHttpRequest(win.xmlHttpRequest);
    assert ShouldRedirect(ItakQrPath);
    var o := win.Open(x, [JsString("POST"), JsString(ItakQrPath)]);
    assert o.Swallowed? && !x.nativeOpened;
    assert SendAsWritten(x.nativeOpened, x.diverted) == InvalidStateError;
  }

  /** Re-initialising the singleton with redirection off destroys the first
      manager and leaves both slots at the page's own values. */
  method ReinitializeReplaces() {
    var win := new Window(false);
    var mod := new QRRedirectModule(win);
    mod.InitializeQRRedirect(NoOptions);
    var first := mod.globalRedirectManager;
    assert win.fetch == first.FetchPatch();
    mod.InitializeQRRedirect(QRRedirectOptions(Given(false), Omitted));
    assert !first.isInitialized && mod.globalRedirectManager != first;
    assert win.fetch == NativeFetch && win.xmlHttpRequest == NativeXhr;
    mod.DestroyQRRedirect();
    mod.DestroyQRRedirect();
    assert mod.globalRedirectManager == null && win.fetch == NativeFetch;
  }

  /** While the document is loading, auto-initialisation waits for
      `DOMContentLoaded`. */
  method AutoInitializeWaitsForDom() {
    var win := new Window(true);
    var mod := new QRRedirectModule(win);
    mod.AutoInitializeQRRedirect(NoOptions);
    assert mod.globalRedirectManager == null && win.fetch == NativeFetch;
    win.FinishLoading();
    var ran := mod.RunPendingAutoInit();
    assert ran && mod.globalRedirectManager != null;
    assert win.fetch == mod.globalRedirectManager.FetchPatch();
  }
}
