/**
 * How the reactor finds a widget's state: a held state first, then a
 * preloaded entry (browser) or the state the server passed in (engine);
 * and how a widget view falls back to an asynchronous fetch in the browser.
 */
module WidgetState {
  import opened Wrappers
  import opened Values
  import opened Errors
  import opened Paths
  import opened RxState
  import opened ErrorHandling
  import opened ReactorState

  /**
   * The path to preload: the dummy locale keeps the path as it is, any
   * other locale has its `"{locale}/"` prefix removed, and a path without
   * that prefix makes the unwrap panic.
   */
  function PathWithoutLocaleForPreload(path: string, locale: string): (r: Outcome<string>)
    ensures locale == DummyLocale ==> r == Returned(path)
    ensures locale != DummyLocale ==> (r.Returned? <==> locale + "/" <= path)
    ensures locale != DummyLocale && r.Returned? ==> path == locale + "/" + r.value
  {
    if locale == DummyLocale then Returned(path)
    else if locale + "/" <= path then Returned(path[|locale| + 1..])
    else Panicked("called `Option::unwrap()` on a `None` value")
  }

  /** Stripping undoes localisation: a localised path never panics and gives back the path. */
  lemma StripLocalized(path: string, locale: string)
    ensures PathWithoutLocaleForPreload(Localize(path, locale), locale) == Returned(path)
  {
    if locale != DummyLocale {
      var full := Localize(path, locale);
      assert full[..|locale| + 1] == locale + "/";
      assert full[|locale| + 1..] == path;
    }
  }

  /** Localisation undoes stripping: preloading under the stripped path targets the same path. */
  lemma LocalizeStripped(path: string, locale: string)
    requires PathWithoutLocaleForPreload(path, locale).Returned?
    ensures Localize(PathWithoutLocaleForPreload(path, locale).value, locale) == path
  {
  }

  /** `ServerErrorData` as serde reads it: an object with a `status` that fits `u16` and a string `msg`. */
  function DecodeServerErrorData(v: Value): (r: Result<ServerErrorData, string>)
    ensures r.Ok? ==>
      v.Object? && "status" in v.fields && "msg" in v.fields &&
      v.fields["status"] == Number(r.value.status) && v.fields["msg"] == String(r.value.msg)
  {
    if v.Object? && "status" in v.fields && "msg" in v.fields
      && v.fields["status"].Number? && 0 <= v.fields["status"].n < 0x1_0000 && v.fields["msg"].String?
    then Ok(ServerErrorData(v.fields["status"].n, v.fields["msg"].s))
    else Err("invalid type: expected struct ServerErrorData")
  }

  /** `ServerErrorData` as serde writes it. */
  function EncodeServerErrorData(d: ServerErrorData): Value {
    Object(map["status" := Number(d.status), "msg" := String(d.msg)])
  }

  /** Reading back what was written gives the same error data. */
  lemma DecodeEncodeServerErrorData(d: ServerErrorData)
    ensures DecodeServerErrorData(EncodeServerErrorData(d)) == Ok(d)
  {
    var f := EncodeServerErrorData(d).fields;
    assert "status" in f && "msg" in f;
  }

  /**
   * A preloaded widget state decoded as `Result<S, ServerErrorData>`, in
   * serde's externally tagged form: `{"Ok": state}` or `{"Err": data}`.
   */
  function DecodeWithServerError<S>(decode: Value -> Result<S, string>, v: Value): (r: Result<Result<S, ServerErrorData>, string>)
    ensures r.Ok? && r.value.Ok? ==>
      v.Object? && v.fields.Keys == {"Ok"} && decode(v.fields["Ok"]) == Ok(r.value.value)
    ensures r.Ok? && r.value.Err? ==>
      v.Object? && v.fields.Keys == {"Err"} && DecodeServerErrorData(v.fields["Err"]) == Ok(r.value.error)
  {
    if v.Object? && v.fields.Keys == {"Ok"} then
      match decode(v.fields["Ok"])
      case Ok(s) => Ok(Ok(s))
      case Err(e) => Err(e)
    else if v.Object? && v.fields.Keys == {"Err"} then
      match DecodeServerErrorData(v.fields["Err"])
      case Ok(d) => Ok(Err(d))
      case Err(e) => Err(e)
    else Err("invalid type: expected enum Result")
  }

  /** What the server sends for a widget whose state was built decodes back to that state. */
  lemma DecodeOkState<S>(decode: Value -> Result<S, string>, v: Value, s: S)
    requires decode(v) == Ok(s)
    ensures DecodeWithServerError(decode, Object(map["Ok" := v])) == Ok(Ok(s))
  {
    assert map["Ok" := v].Keys == {"Ok"};
  }

  /** What the server sends for a widget whose state failed decodes back to that error. */
  lemma DecodeErrState<S>(decode: Value -> Result<S, string>, d: ServerErrorData)
    ensures DecodeWithServerError(decode, Object(map["Err" := EncodeServerErrorData(d)])) == Ok(Err(d))
  {
    var m := map["Err" := EncodeServerErrorData(d)];
    assert m.Keys == {"Err"};
    DecodeEncodeServerErrorData(d);
  }

  /**
   * `get_widget_state_no_fetch`: the state of the widget at `url`, or
   * `Ok(None)` when the browser has to fetch it first.
   */
  method GetWidgetStateNoFetch<S, R>(reactor: Reactor<R>, ty: StateType<S, R>, url: string, serverState: TemplateState)
    returns (r: Result<Option<R>, ClientError>)
    requires reactor.Valid()
    modifies reactor`trace, reactor`held
    ensures reactor.Valid()
    // A held state, or the error looking it up reports, wins outright.
    ensures old(reactor.GetHeldState(url)) != Ok(Option.None) ==>
      r == old(reactor.GetHeldState(url)) && reactor.trace == old(reactor.trace) && reactor.held == old(reactor.held)
    // Browser: a preloaded entry registers an empty head, then decodes.
    ensures url !in old(reactor.held) && reactor.side == Client && old(reactor.Contains(url)) == Preloaded ==>
      var dec := DecodeWithServerError(ty.decode, old(reactor.preloaded[url]));
      |reactor.trace| > |old(reactor.trace)| &&
      reactor.trace[..|old(reactor.trace)| + 1] == old(reactor.trace) + [Event.AddHead(url, "", true)] &&
      (dec.Err? ==>
        r == Err(InvariantError(InvalidState(dec.error))) &&
        reactor.trace == old(reactor.trace) + [Event.AddHead(url, "", true)] && reactor.held == old(reactor.held)) &&
      (dec.Ok? && dec.value.Err? ==>
        r == Err(ServerError(dec.value.error.status, dec.value.error.msg)) &&
        reactor.trace == old(reactor.trace) + [Event.AddHead(url, "", true)] && reactor.held == old(reactor.held)) &&
      (dec.Ok? && dec.value.Ok? ==>
        reactor.trace == old(reactor.trace) + [Event.AddHead(url, "", true), Event.AddState(url, ty.makeRx(dec.value.value), false)])
    // Browser: nothing in the store means a fetch is needed; a head-only entry is invalid for a widget.
    ensures url !in old(reactor.held) && reactor.side == Client && old(reactor.Contains(url)) == PssContains.None ==>
      r == Ok(Option.None) && reactor.trace == old(reactor.trace) && reactor.held == old(reactor.held)
    ensures url !in old(reactor.held) && reactor.side == Client && old(reactor.Contains(url)) in {Head, HeadNoState} ==>
      r == Err(InvariantError(InvalidWidgetPssEntry)) && reactor.trace == old(reactor.trace) && reactor.held == old(reactor.held)
    // Engine: the state the server passed in must be present and decode.
    ensures url !in old(reactor.held) && reactor.side == Engine && serverState.IsEmpty() ==>
      r == Err(InvariantError(NoState)) && reactor.trace == old(reactor.trace) && reactor.held == old(reactor.held)
    ensures url !in old(reactor.held) && reactor.side == Engine && !serverState.IsEmpty() ==>
      var dec := ty.decode(serverState.state);
      (dec.Err? ==>
        r == Err(InvariantError(InvalidState(dec.error))) &&
        reactor.trace == old(reactor.trace) && reactor.held == old(reactor.held)) &&
      (dec.Ok? ==> reactor.trace == old(reactor.trace) + [Event.AddState(url, ty.makeRx(dec.value), false)])
    // Whenever a state is added, it is returned unless the store refuses it.
    ensures url !in old(reactor.held) && |reactor.trace| > |old(reactor.trace)| && reactor.trace[|reactor.trace| - 1].AddState? ==>
      var rx := reactor.trace[|reactor.trace| - 1].state;
      (url in reactor.addStateFailures ==> r == Err(reactor.addStateFailures[url]) && reactor.held == old(reactor.held)) &&
      (url !in reactor.addStateFailures ==> r == Ok(Some(rx)) && reactor.held == old(reactor.held)[url := Ok(rx)])
    // Only heads and states are registered, after what was there.
    ensures old(reactor.trace) <= reactor.trace
    ensures forall i :: |old(reactor.trace)| <= i < |reactor.trace| ==>
      reactor.trace[i].AddHead? || reactor.trace[i].AddState?
    // The engine is never told to fetch, nor is the browser once the path is preloaded.
    ensures reactor.side == Engine ==> r != Ok(Option.None)
    ensures reactor.side == Client && old(reactor.Contains(url)) == Preloaded ==> r != Ok(Option.None)
    ensures r.Ok? && r.value.Some? ==> url in reactor.held && reactor.held[url] == Ok(r.value.value)
  {
    var heldState := reactor.GetHeldState(url);
    if heldState != Ok(Option.None) {
      return heldState;
    }
    if reactor.side == Client {
      var contains := reactor.Contains(url);
      if contains == Preloaded {
        var pageData := reactor.preloaded[url];
        reactor.AddHead(url, "", true);
        match DecodeWithServerError(ty.decode, pageData)
        case Err(e) =>
          r := Err(InvariantError(InvalidState(e)));
        case Ok(Err(data)) =>
          r := Err(ServerError(data.status, data.msg));
        case Ok(Ok(unrx)) =>
          var rx := ty.makeRx(unrx);
          var added := reactor.AddState(url, rx, false);
          if added.Err? {
            r := Err(added.error);
          } else {
            r := Ok(Some(rx));
          }
      } else if contains == PssContains.None {
        r := Ok(Option.None);
      } else if contains == Head || contains == HeadNoState {
        r := Err(InvariantError(InvalidWidgetPssEntry));
      } else {
        // `All` and `State`: a path classified as having a state has a held state.
        assert false;
      }
    } else if serverState.IsEmpty() {
      r := Err(InvariantError(NoState));
    } else {
      match ty.decode(serverState.state)
      case Err(e) =>
        r := Err(InvariantError(InvalidState(e)));
      case Ok(unrx) =>
        var rx := ty.makeRx(unrx);
        var added := reactor.AddState(url, rx, false);
        if added.Err? {
          r := Err(added.error);
        } else {
          r := Ok(Some(rx));
        }
    }
  }

  /** What the router tells a browser-side widget about its route (`PreloadInfo`). */
  datatype PreloadInfo = PreloadInfo(locale: string, wasIncrementalMatch: bool)

  /** The browser has to fetch the widget's state: nothing is held and nothing is in the store. */
  predicate NeedsFetch<R>(reactor: Reactor<R>, url: string)
    reads reactor
  {
    reactor.side == Client && url !in reactor.held && reactor.Contains(url) == PssContains.None
  }

  /**
   * `get_widget_view`, up to the point where it returns: a known state is
   * rendered at once, a lookup error is returned as it is, and otherwise
   * (browser only) the view signal is set to the fallback and that is what is
   * returned, the fetch being finished by `CompleteWidgetFetch`.
   */
  method GetWidgetView<S, R, P>(reactor: Reactor<R>, ty: StateType<S, R>, path: string, templateState: TemplateState,
                                props: P, viewFn: (R, P) -> View, fallback: P -> View)
    returns (r: Result<View, ClientError>)
    requires reactor.Valid()
    modifies reactor`trace, reactor`held
    ensures reactor.Valid()
    // A held state is rendered; a held error is returned; neither registers anything.
    ensures old(reactor.GetHeldState(path)).Err? ==> r == Err(old(reactor.GetHeldState(path)).error)
    ensures old(reactor.GetHeldState(path)).Ok? && old(reactor.GetHeldState(path)).value.Some? ==>
      r == Ok(viewFn(old(reactor.GetHeldState(path)).value.value, props))
    ensures old(reactor.GetHeldState(path)) != Ok(Option.None) ==>
      reactor.trace == old(reactor.trace) && reactor.held == old(reactor.held)
    // Browser: nothing stored shows the fallback; a head-only entry is invalid.
    ensures old(NeedsFetch(reactor, path)) ==>
      r == Ok(fallback(props)) && reactor.trace == old(reactor.trace) + [Event.ViewSet(fallback(props))] &&
      reactor.held == old(reactor.held)
    ensures path !in old(reactor.held) && reactor.side == Client && old(reactor.Contains(path)) in {Head, HeadNoState} ==>
      r == Err(InvariantError(InvalidWidgetPssEntry)) && reactor.trace == old(reactor.trace) &&
      reactor.held == old(reactor.held)
    // Browser: a preloaded entry registers an empty head, then is decoded, added and rendered.
    ensures path !in old(reactor.held) && reactor.side == Client && old(reactor.Contains(path)) == Preloaded ==>
      var dec := DecodeWithServerError(ty.decode, old(reactor.preloaded[path]));
      var headed := old(reactor.trace) + [Event.AddHead(path, "", true)];
      (dec.Err? ==>
        r == Err(InvariantError(InvalidState(dec.error))) && reactor.trace == headed && reactor.held == old(reactor.held)) &&
      (dec.Ok? && dec.value.Err? ==>
        r == Err(ServerError(dec.value.error.status, dec.value.error.msg)) &&
        reactor.trace == headed && reactor.held == old(reactor.held)) &&
      (dec.Ok? && dec.value.Ok? ==>
        reactor.trace == headed + [Event.AddState(path, ty.makeRx(dec.value.value), false)]) &&
      (dec.Ok? && dec.value.Ok? && path in reactor.addStateFailures ==>
        r == Err(reactor.addStateFailures[path]) && reactor.held == old(reactor.held)) &&
      (dec.Ok? && dec.value.Ok? && path !in reactor.addStateFailures ==>
        r == Ok(viewFn(ty.makeRx(dec.value.value), props)) &&
        reactor.held == old(reactor.held)[path := Ok(ty.makeRx(dec.value.value))])
    // Engine: the state the server passed in is decoded, added and rendered.
    ensures path !in old(reactor.held) && reactor.side == Engine && templateState.IsEmpty() ==>
      r == Err(InvariantError(NoState)) && reactor.trace == old(reactor.trace) && reactor.held == old(reactor.held)
    ensures path !in old(reactor.held) && reactor.side == Engine && !templateState.IsEmpty() ==>
      var dec := ty.decode(templateState.state);
      (dec.Err? ==>
        r == Err(InvariantError(InvalidState(dec.error))) &&
        reactor.trace == old(reactor.trace) && reactor.held == old(reactor.held)) &&
      (dec.Ok? ==> reactor.trace == old(reactor.trace) + [Event.AddState(path, ty.makeRx(dec.value), false)]) &&
      (dec.Ok? && path in reactor.addStateFailures ==>
        r == Err(reactor.addStateFailures[path]) && reactor.held == old(reactor.held)) &&
      (dec.Ok? && path !in reactor.addStateFailures ==>
        r == Ok(viewFn(ty.makeRx(dec.value), props)) && reactor.held == old(reactor.held)[path := Ok(ty.makeRx(dec.value))])
    ensures !old(NeedsFetch(reactor, path)) && r.Ok? ==>
      path in reactor.held && reactor.held[path].Ok? && r.value == viewFn(reactor.held[path].value, props)
  {
    var state := GetWidgetStateNoFetch(reactor, ty, path, templateState);
    if state.Err? {
      return Err(state.error);
    }
    match state.value
    case Some(rx) =>
      r := Ok(viewFn(rx, props));
    case None =>
      if reactor.side == Engine {
        // The engine always has the state it was given.
        assert false;
      } else {
        var shown := fallback(props);
        reactor.SetView(shown);
        r := Ok(shown);
      }
  }

  /**
   * The lookup after a successful preload: a state declares the widget a
   * dependency of its caller and renders; an error renders the widget's
   * error view and declares nothing.
   */
  method ResolveFetchedState<S, R, P>(reactor: Reactor<R>, ty: StateType<S, R>, path: string, callerPath: string,
                                      props: P, viewFn: (R, P) -> View)
    returns (finalView: View)
    requires reactor.Valid() && reactor.side == Client && reactor.Contains(path) == Preloaded
    modifies reactor`trace, reactor`held
    ensures reactor.Valid()
    // A held state renders after the declaration; a held error takes the widget.
    ensures path in old(reactor.held) && old(reactor.held[path]).Ok? ==>
      finalView == viewFn(old(reactor.held[path]).value, props) &&
      reactor.trace == old(reactor.trace) + [Event.DeclareDependency(path, callerPath)]
    ensures path in old(reactor.held) && old(reactor.held[path]).Err? ==>
      finalView == WidgetErrorView(reactor.errorViews.handler, old(reactor.held[path]).error) &&
      reactor.trace == old(reactor.trace)
    // Only a state the store accepts is added to what is held.
    ensures path in old(reactor.held) ==> reactor.held == old(reactor.held)
    ensures path !in old(reactor.held) ==>
      var dec := DecodeWithServerError(ty.decode, old(reactor.preloaded[path]));
      (dec.Ok? && dec.value.Ok? && path !in reactor.addStateFailures ==>
        reactor.held == old(reactor.held)[path := Ok(ty.makeRx(dec.value.value))]) &&
      (!(dec.Ok? && dec.value.Ok? && path !in reactor.addStateFailures) ==> reactor.held == old(reactor.held))
    // Otherwise the preloaded data decides.
    ensures path !in old(reactor.held) ==>
      var dec := DecodeWithServerError(ty.decode, old(reactor.preloaded[path]));
      var headed := old(reactor.trace) + [Event.AddHead(path, "", true)];
      (dec.Err? ==>
        finalView == WidgetErrorView(reactor.errorViews.handler, InvariantError(InvalidState(dec.error))) &&
        reactor.trace == headed) &&
      (dec.Ok? && dec.value.Err? ==>
        finalView == WidgetErrorView(reactor.errorViews.handler, ServerError(dec.value.error.status, dec.value.error.msg)) &&
        reactor.trace == headed) &&
      (dec.Ok? && dec.value.Ok? && path in reactor.addStateFailures ==>
        finalView == WidgetErrorView(reactor.errorViews.handler, reactor.addStateFailures[path]) &&
        reactor.trace == headed + [Event.AddState(path, ty.makeRx(dec.value.value), false)]) &&
      (dec.Ok? && dec.value.Ok? && path !in reactor.addStateFailures ==>
        finalView == viewFn(ty.makeRx(dec.value.value), props) &&
        reactor.trace == headed + [Event.AddState(path, ty.makeRx(dec.value.value), false),
                                   Event.DeclareDependency(path, callerPath)])
  {
    var state := GetWidgetStateNoFetch(reactor, ty, path, EmptyTemplateState());
    match state
    case Ok(Some(rx)) =>
      reactor.DeclareDependency(path, callerPath);
      finalView := viewFn(rx, props);
    case Ok(None) =>
      // The preload has just filled the store for this path.
      assert false;
    case Err(err) =>
      finalView := WidgetErrorView(reactor.errorViews.handler, err);
  }

  /**
   * The browser's deferred fetch for a widget: preload its state under the
   * path without the locale, look the state up again, declare the widget a
   * dependency of its caller, and replace the fallback with the real view;
   * any error becomes the widget's error view instead. A path lacking its
   * locale prefix makes the task panic before anything is done.
   */
  method CompleteWidgetFetch<S, R, P>(reactor: Reactor<R>, ty: StateType<S, R>, path: string, callerPath: string,
                                      capsuleName: string, props: P, preloadInfo: PreloadInfo,
                                      viewFn: (R, P) -> View, fetched: Result<Value, ClientError>)
    returns (r: Outcome<View>)
    requires reactor.Valid() && reactor.side == Client
    modifies reactor`trace, reactor`held, reactor`entries, reactor`preloaded
    ensures reactor.Valid()
    ensures r.Returned? <==> PathWithoutLocaleForPreload(path, preloadInfo.locale).Returned?
    ensures r.Panicked? ==> reactor.trace == old(reactor.trace)
    ensures r.Returned? ==>
      |reactor.trace| >= |old(reactor.trace)| + 2 &&
      reactor.trace[..|old(reactor.trace)| + 1] == old(reactor.trace) + [Event.Preload(
        PathWithoutLocaleForPreload(path, preloadInfo.locale).value, preloadInfo.locale, capsuleName,
        preloadInfo.wasIncrementalMatch, false, true)] &&
      reactor.trace[|reactor.trace| - 1] == Event.ViewSet(r.value)
    // The fetched data is stored under the widget's path; only a state the store accepts is held.
    ensures r.Panicked? || fetched.Err? ==>
      reactor.entries == old(reactor.entries) && reactor.preloaded == old(reactor.preloaded) &&
      reactor.held == old(reactor.held)
    ensures r.Returned? && fetched.Ok? ==>
      reactor.entries == old(reactor.entries)[path := Preloaded] &&
      reactor.preloaded == old(reactor.preloaded)[path := fetched.value]
    ensures r.Returned? && fetched.Ok? && path in old(reactor.held) ==> reactor.held == old(reactor.held)
    ensures r.Returned? && fetched.Ok? && path !in old(reactor.held) ==>
      var dec := DecodeWithServerError(ty.decode, fetched.value);
      (dec.Ok? && dec.value.Ok? && path !in reactor.addStateFailures ==>
        reactor.held == old(reactor.held)[path := Ok(ty.makeRx(dec.value.value))]) &&
      (!(dec.Ok? && dec.value.Ok? && path !in reactor.addStateFailures) ==> reactor.held == old(reactor.held))
    // A failed fetch shows the widget's error view.
    ensures r.Returned? && fetched.Err? ==>
      r.value == WidgetErrorView(reactor.errorViews.handler, fetched.error) &&
      |reactor.trace| == |old(reactor.trace)| + 2
    // A fetch for a path with a held state or error resolves to that.
    ensures r.Returned? && fetched.Ok? && path in old(reactor.held) && old(reactor.held[path]).Ok? ==>
      r.value == viewFn(old(reactor.held[path]).value, props) &&
      reactor.trace[|old(reactor.trace)| + 1..] == [Event.DeclareDependency(path, callerPath), Event.ViewSet(r.value)]
    ensures r.Returned? && fetched.Ok? && path in old(reactor.held) && old(reactor.held[path]).Err? ==>
      r.value == WidgetErrorView(reactor.errorViews.handler, old(reactor.held[path]).error) &&
      |reactor.trace| == |old(reactor.trace)| + 2
    // Otherwise the fetched data decides; only a state declares the dependency and is shown.
    ensures r.Returned? && fetched.Ok? && path !in old(reactor.held) ==>
      var dec := DecodeWithServerError(ty.decode, fetched.value);
      var after := reactor.trace[|old(reactor.trace)| + 1..];
      (dec.Err? ==>
        r.value == WidgetErrorView(reactor.errorViews.handler, InvariantError(InvalidState(dec.error))) &&
        after == [Event.AddHead(path, "", true), Event.ViewSet(r.value)]) &&
      (dec.Ok? && dec.value.Err? ==>
        r.value == WidgetErrorView(reactor.errorViews.handler, ServerError(dec.value.error.status, dec.value.error.msg)) &&
        after == [Event.AddHead(path, "", true), Event.ViewSet(r.value)]) &&
      (dec.Ok? && dec.value.Ok? && path in reactor.addStateFailures ==>
        r.value == WidgetErrorView(reactor.errorViews.handler, reactor.addStateFailures[path]) &&
        after == [Event.AddHead(path, "", true), Event.AddState(path, ty.makeRx(dec.value.value), false),
                  Event.ViewSet(r.value)]) &&
      (dec.Ok? && dec.value.Ok? && path !in reactor.addStateFailures ==>
        r.value == viewFn(ty.makeRx(dec.value.value), props) &&
        after == [Event.AddHead(path, "", true), Event.AddState(path, ty.makeRx(dec.value.value), false),
                  Event.DeclareDependency(path, callerPath), Event.ViewSet(r.value)])
  {
    var stripped := PathWithoutLocaleForPreload(path, preloadInfo.locale);
    if stripped.Panicked? {
      return Panicked(stripped.message);
    }
    var preloaded := reactor.Preload(stripped.value, preloadInfo.locale, capsuleName,
                                     preloadInfo.wasIncrementalMatch, false, true, fetched);
    var finalView;
    if preloaded.Err? {
      finalView := WidgetErrorView(reactor.errorViews.handler, preloaded.error);
    } else {
      LocalizeStripped(path, preloadInfo.locale);
      finalView := ResolveFetchedState(reactor, ty, path, callerPath, props, viewFn);
    }
    reactor.SetView(finalView);
    r := Returned(finalView);
  }

  /**
   * `get_unreactive_widget_view`: the same resolution, with the view given
   * the unreactive state (`make_unrx` of the reactive one).
   */
  method GetUnreactiveWidgetView<S, R, P>(reactor: Reactor<R>, ty: StateType<S, R>, path: string,
                                          templateState: TemplateState, props: P, viewFn: (S, P) -> View,
                                          fallback: P -> View)
    returns (r: Result<View, ClientError>)
    requires reactor.Valid()
    modifies reactor`trace, reactor`held
    ensures reactor.Valid()
    ensures old(reactor.GetHeldState(path)).Err? ==> r == Err(old(reactor.GetHeldState(path)).error)
    ensures old(reactor.GetHeldState(path)).Ok? && old(reactor.GetHeldState(path)).value.Some? ==>
      r == Ok(viewFn(ty.makeUnrx(old(reactor.GetHeldState(path)).value.value), props))
    ensures old(reactor.GetHeldState(path)) != Ok(Option.None) ==>
      reactor.trace == old(reactor.trace) && reactor.held == old(reactor.held)
    ensures old(NeedsFetch(reactor, path)) ==>
      r == Ok(fallback(props)) && reactor.trace == old(reactor.trace) + [Event.ViewSet(fallback(props))] &&
      reactor.held == old(reactor.held)
    ensures path !in old(reactor.held) && reactor.side == Client && old(reactor.Contains(path)) in {Head, HeadNoState} ==>
      r == Err(InvariantError(InvalidWidgetPssEntry)) && reactor.trace == old(reactor.trace) &&
      reactor.held == old(reactor.held)
    ensures path !in old(reactor.held) && reactor.side == Client && old(reactor.Contains(path)) == Preloaded ==>
      var dec := DecodeWithServerError(ty.decode, old(reactor.preloaded[path]));
      var headed := old(reactor.trace) + [Event.AddHead(path, "", true)];
      (dec.Err? ==>
        r == Err(InvariantError(InvalidState(dec.error))) && reactor.trace == headed && reactor.held == old(reactor.held)) &&
      (dec.Ok? && dec.value.Err? ==>
        r == Err(ServerError(dec.value.error.status, dec.value.error.msg)) &&
        reactor.trace == headed && reactor.held == old(reactor.held)) &&
      (dec.Ok? && dec.value.Ok? ==>
        reactor.trace == headed + [Event.AddState(path, ty.makeRx(dec.value.value), false)]) &&
      (dec.Ok? && dec.value.Ok? && path in reactor.addStateFailures ==>
        r == Err(reactor.addStateFailures[path]) && reactor.held == old(reactor.held)) &&
      (dec.Ok? && dec.value.Ok? && path !in reactor.addStateFailures ==>
        r == Ok(viewFn(ty.makeUnrx(ty.makeRx(dec.value.value)), props)) &&
        reactor.held == old(reactor.held)[path := Ok(ty.makeRx(dec.value.value))])
    ensures path !in old(reactor.held) && reactor.side == Engine && templateState.IsEmpty() ==>
      r == Err(InvariantError(NoState)) && reactor.trace == old(reactor.trace) && reactor.held == old(reactor.held)
    ensures path !in old(reactor.held) && reactor.side == Engine && !templateState.IsEmpty() ==>
      var dec := ty.decode(templateState.state);
      (dec.Err? ==>
        r == Err(InvariantError(InvalidState(dec.error))) &&
        reactor.trace == old(reactor.trace) && reactor.held == old(reactor.held)) &&
      (dec.Ok? ==> reactor.trace == old(reactor.trace) + [Event.AddState(path, ty.makeRx(dec.value), false)]) &&
      (dec.Ok? && path in reactor.addStateFailures ==>
        r == Err(reactor.addStateFailures[path]) && reactor.held == old(reactor.held)) &&
      (dec.Ok? && path !in reactor.addStateFailures ==>
        r == Ok(viewFn(ty.makeUnrx(ty.makeRx(dec.value)), props)) &&
        reactor.held == old(reactor.held)[path := Ok(ty.makeRx(dec.value))])
    ensures !old(NeedsFetch(reactor, path)) && r.Ok? ==>
      path in reactor.held && reactor.held[path].Ok? && r.value == viewFn(ty.makeUnrx(reactor.held[path].value), props)
  {
    r := GetWidgetView(reactor, ty, path, templateState, props, (rx, p) => viewFn(ty.makeUnrx(rx), p), fallback);
  }

  /** The deferred fetch of `get_unreactive_widget_view`: the view is given `make_unrx` of the fetched state. */
  method CompleteUnreactiveWidgetFetch<S, R, P>(reactor: Reactor<R>, ty: StateType<S, R>, path: string,
                                                callerPath: string, capsuleName: string, props: P,
                                                preloadInfo: PreloadInfo, viewFn: (S, P) -> View,
                                                fetched: Result<Value, ClientError>)
    returns (r: Outcome<View>)
    requires reactor.Valid() && reactor.side == Client
    modifies reactor`trace, reactor`held, reactor`entries, reactor`preloaded
    ensures reactor.Valid()
    ensures r.Returned? <==> PathWithoutLocaleForPreload(path, preloadInfo.locale).Returned?
    ensures r.Panicked? ==> reactor.trace == old(reactor.trace)
    ensures r.Returned? ==>
      |reactor.trace| >= |old(reactor.trace)| + 2 &&
      reactor.trace[..|old(reactor.trace)| + 1] == old(reactor.trace) + [Event.Preload(
        PathWithoutLocaleForPreload(path, preloadInfo.locale).value, preloadInfo.locale, capsuleName,
        preloadInfo.wasIncrementalMatch, false, true)] &&
      reactor.trace[|reactor.trace| - 1] == Event.ViewSet(r.value)
    // The fetched data is stored under the widget's path; only a state the store accepts is held.
    ensures r.Panicked? || fetched.Err? ==>
      reactor.entries == old(reactor.entries) && reactor.preloaded == old(reactor.preloaded) &&
      reactor.held == old(reactor.held)
    ensures r.Returned? && fetched.Ok? ==>
      reactor.entries == old(reactor.entries)[path := Preloaded] &&
      reactor.preloaded == old(reactor.preloaded)[path := fetched.value]
    ensures r.Returned? && fetched.Ok? && path in old(reactor.held) ==> reactor.held == old(reactor.held)
    ensures r.Returned? && fetched.Ok? && path !in old(reactor.held) ==>
      var dec := DecodeWithServerError(ty.decode, fetched.value);
      (dec.Ok? && dec.value.Ok? && path !in reactor.addStateFailures ==>
        reactor.held == old(reactor.held)[path := Ok(ty.makeRx(dec.value.value))]) &&
      (!(dec.Ok? && dec.value.Ok? && path !in reactor.addStateFailures) ==> reactor.held == old(reactor.held))
    ensures r.Returned? && fetched.Err? ==>
      r.value == WidgetErrorView(reactor.errorViews.handler, fetched.error) &&
      |reactor.trace| == |old(reactor.trace)| + 2
    ensures r.Returned? && fetched.Ok? && path in old(reactor.held) && old(reactor.held[path]).Ok? ==>
      r.value == viewFn(ty.makeUnrx(old(reactor.held[path]).value), props) &&
      reactor.trace[|old(reactor.trace)| + 1..] == [Event.DeclareDependency(path, callerPath), Event.ViewSet(r.value)]
    ensures r.Returned? && fetched.Ok? && path in old(reactor.held) && old(reactor.held[path]).Err? ==>
      r.value == WidgetErrorView(reactor.errorViews.handler, old(reactor.held[path]).error) &&
      |reactor.trace| == |old(reactor.trace)| + 2
    ensures r.Returned? && fetched.Ok? && path !in old(reactor.held) ==>
      var dec := DecodeWithServerError(ty.decode, fetched.value);
      var after := reactor.trace[|old(reactor.trace)| + 1..];
      (dec.Err? ==>
        r.value == WidgetErrorView(reactor.errorViews.handler, InvariantError(InvalidState(dec.error))) &&
        after == [Event.AddHead(path, "", true), Event.ViewSet(r.value)]) &&
      (dec.Ok? && dec.value.Err? ==>
        r.value == WidgetErrorView(reactor.errorViews.handler, ServerError(dec.value.error.status, dec.value.error.msg)) &&
        after == [Event.AddHead(path, "", true), Event.ViewSet(r.value)]) &&
      (dec.Ok? && dec.value.Ok? && path in reactor.addStateFailures ==>
        r.value == WidgetErrorView(reactor.errorViews.handler, reactor.addStateFailures[path]) &&
        after == [Event.AddHead(path, "", true), Event.AddState(path, ty.makeRx(dec.value.value), false),
                  Event.ViewSet(r.value)]) &&
      (dec.Ok? && dec.value.Ok? && path !in reactor.addStateFailures ==>
        r.value == viewFn(ty.makeUnrx(ty.makeRx(dec.value.value)), props) &&
        after == [Event.AddHead(path, "", true), Event.AddState(path, ty.makeRx(dec.value.value), false),
                  Event.DeclareDependency(path, callerPath), Event.ViewSet(r.value)])
  {
    r := CompleteWidgetFetch(reactor, ty, path, callerPath, capsuleName, props, preloadInfo,
                             (rx, p) => viewFn(ty.makeUnrx(rx), p), fetched);
  }
}
