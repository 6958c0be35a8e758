/**
 * Placing a widget (a capsule at a sub-path) in a page on the engine side:
 * its path is normalised, and, while a page is built or rendered for a
 * request, its state is resolved, the page's render is cancelled, or the
 * widget is deferred for a later pass.
 */
module WidgetComponent {
  import opened Wrappers
  import opened Values
  import opened Errors
  import opened Paths
  import opened ErrorHandling
  import opened TemplateCore

  /** `strip_prefix(c).unwrap_or(s)`: remove one leading `c`, if there is one. */
  function StripOnePrefix(s: string, c: char): (r: string)
    ensures |s| > 0 && s[0] == c ==> [c] + r == s
    ensures !(|s| > 0 && s[0] == c) ==> r == s
  {
    if |s| > 0 && s[0] == c then s[1..] else s
  }

  /** `strip_suffix(c).unwrap_or(s)`: remove one trailing `c`, if there is one. */
  function StripOneSuffix(s: string, c: char): (r: string)
    ensures |s| > 0 && s[|s| - 1] == c ==> r + [c] == s
    ensures !(|s| > 0 && s[|s| - 1] == c) ==> r == s
  {
    if |s| > 0 && s[|s| - 1] == c then s[..|s| - 1] else s
  }

  /**
   * The path of a widget within its capsule: one leading and one trailing
   * `/` are removed from the user's path, the rest is joined to the
   * capsule's path with `/`, and one trailing `/` is dropped.
   */
  function WidgetPath(capsulePath: string, path: string): (r: string)
    ensures capsulePath <= r
    ensures r == capsulePath || capsulePath + "/" <= r
  {
    var trimmed := StripOneSuffix(StripOnePrefix(path, '/'), '/');
    var full := capsulePath + "/" + trimmed;
    assert full[..|capsulePath| + 1] == capsulePath + "/";
    StripOneSuffix(full, '/')
  }

  /** The index widget can be named by the empty path or by `/`. */
  lemma WidgetPathIndex(capsulePath: string)
    ensures WidgetPath(capsulePath, "") == capsulePath
    ensures WidgetPath(capsulePath, "/") == capsulePath
  {
    assert capsulePath + "/" + "" == capsulePath + "/";
  }

  /**
   * A non-empty path without leading or trailing `/` is joined as it is,
   * and surrounding it with one `/` on either side changes nothing.
   */
  lemma WidgetPathPlain(capsulePath: string, path: string)
    requires path != "" && path[0] != '/' && path[|path| - 1] != '/'
    ensures WidgetPath(capsulePath, path) == capsulePath + "/" + path
    ensures WidgetPath(capsulePath, "/" + path) == capsulePath + "/" + path
    ensures WidgetPath(capsulePath, path + "/") == capsulePath + "/" + path
    ensures WidgetPath(capsulePath, "/" + path + "/") == capsulePath + "/" + path
  {
    assert StripOnePrefix("/" + path, '/') == path;
    assert StripOneSuffix(path + "/", '/') == path;
    assert StripOnePrefix("/" + path + "/", '/') == path + "/";
    var full := capsulePath + "/" + path;
    assert full[|full| - 1] == path[|path| - 1];
  }

  /** How far a page's render has got (`RenderStatus`). */
  datatype RenderStatus = Ok | Cancelled | Err(error: ServerError)

  /** The immutable store: a file system whose reads may find nothing or fail. */
  datatype ImmutableStore = ImmutableStore(files: map<string, Result<string, StoreError>>) {
    function Read(name: string): (r: Result<string, StoreError>)
      ensures name !in files ==> r == Result.Err(NotFound(name))
    {
      if name in files then files[name] else Result.Err(NotFound(name))
    }
  }

  /** The store key of a widget's build-time state: `static/{locale}-{urlencode(path)}.json`. */
  function StateKey(lib: Libraries, locale: string, path: string): string {
    "static/" + locale + "-" + lib.urlEncode(path) + ".json"
  }

  /**
   * A capsule, as the widget logic sees it: its template, the fallback
   * view for delayed rendering, and the engine-side render of one widget
   * from its localised path, state and properties, given the views of the
   * widgets its own view places.
   */
  datatype Capsule<!S, !R, !P> = Capsule(
    inner: TemplateInner<S, R>,
    fallback: Option<P -> View>,
    renderServer: (string, TemplateState, P, seq<View>) -> Result<View, ClientError>)

  /** The capsule cannot be built at build time: its state needs a request or may be regenerated. */
  predicate NeedsRequestTime<S, R, P>(capsule: Capsule<S, R, P>) {
    capsule.inner.UsesRequestState() || capsule.inner.Revalidates()
  }

  /**
   * A widget placed in a page: the capsule, its normalised path, its
   * properties, and the widgets the capsule's view places in turn, in the
   * order it places them. Rendering the capsule on the engine runs those
   * nested widgets on the same render cells.
   */
  datatype WidgetCall<!S, !R, !P> = WidgetCall(capsule: Capsule<S, R, P>, path: string, props: P,
                                               nested: seq<WidgetCall<S, R, P>>)

  /** What a build-time render of a page has accumulated. */
  datatype BuildSnapshot = BuildSnapshot(
    status: RenderStatus,
    widgetStates: map<string, (string, Value)>,
    incremental: seq<string>)

  /**
   * One widget during a build: what `engine_widget` returns and leaves
   * behind in `RenderMode::Build`. `cfg` maps the paths of widgets built
   * so far to their capsules' names. The state is recorded before the
   * capsule renders, and the widgets its view places run during that render.
   */
  function BuildStep<S, R, P>(cfg: map<string, string>, store: ImmutableStore, lib: Libraries, locale: string,
                              call: WidgetCall<S, R, P>, st: BuildSnapshot)
    : (res: (View, BuildSnapshot))
    // A failed or cancelled render is left exactly as it is.
    ensures !st.status.Ok? ==> res == (EmptyView, st)
    // A widget with a state only a request can give cancels the page.
    ensures st.status.Ok? && call.path in cfg && NeedsRequestTime(call.capsule) ==>
      res == (EmptyView, st.(status := Cancelled))
    // An unknown widget is deferred; the status is kept so other widgets still render.
    ensures st.status.Ok? && call.path !in cfg ==>
      res == (EmptyView, st.(incremental := st.incremental + [call.path]))
    // A build-time widget reads its state under its fixed key, records it, then renders with its nested widgets.
    ensures st.status.Ok? && call.path in cfg && !NeedsRequestTime(call.capsule) ==>
      var read := store.Read(StateKey(lib, locale, call.path));
      (read.Err? && !read.error.NotFound? ==>
        res == (EmptyView, st.(status := RenderStatus.Err(StoreError(read.error))))) &&
      (read.Ok? || read.error.NotFound? ==>
        var parsed := TemplateStateFromStr(lib, if read.Ok? then read.value else "null");
        (parsed.Err? ==> res == (EmptyView, st.(status := RenderStatus.Err(InvalidPageState(parsed.error))))) &&
        (parsed.Ok? ==>
          var full := Localize(call.path, locale);
          var recorded := st.(widgetStates := st.widgetStates[full := (cfg[call.path], parsed.value.state)]);
          var inner := BuildPass(cfg, store, lib, locale, call.nested, recorded);
          var rendered := call.capsule.renderServer(full, parsed.value, call.props, inner.0);
          (rendered.Ok? ==> res == (rendered.value, inner.1)) &&
          (rendered.Err? ==> res == (EmptyView, inner.1.(status := RenderStatus.Err(ClientError(rendered.error)))))))
    decreases call
  {
    if !st.status.Ok? then (EmptyView, st)
    else if call.path in cfg then
      if NeedsRequestTime(call.capsule) then (EmptyView, st.(status := Cancelled))
      else
        var read := store.Read(StateKey(lib, locale, call.path));
        if read.Err? && !read.error.NotFound? then (EmptyView, st.(status := RenderStatus.Err(StoreError(read.error))))
        else
          match TemplateStateFromStr(lib, if read.Ok? then read.value else "null")
          case Err(e) => (EmptyView, st.(status := RenderStatus.Err(InvalidPageState(e))))
          case Ok(state) =>
            var full := Localize(call.path, locale);
            var st1 := st.(widgetStates := st.widgetStates[full := (cfg[call.path], state.state)]);
            var (views, st2) := BuildPass(cfg, store, lib, locale, call.nested, st1);
            match call.capsule.renderServer(full, state, call.props, views)
            case Ok(view) => (view, st2)
            case Err(e) => (EmptyView, st2.(status := RenderStatus.Err(ClientError(e))))
    else (EmptyView, st.(incremental := st.incremental + [call.path]))
  }

  /** Widgets rendered in order during a build, each on the cells the previous one left. */
  function BuildPass<S, R, P>(cfg: map<string, string>, store: ImmutableStore, lib: Libraries, locale: string,
                              calls: seq<WidgetCall<S, R, P>>, st: BuildSnapshot)
    : (res: (seq<View>, BuildSnapshot))
    ensures |res.0| == |calls|
    decreases calls
  {
    if calls == [] then ([], st)
    else
      var (view, st1) := BuildStep(cfg, store, lib, locale, calls[0], st);
      var (views, st2) := BuildPass(cfg, store, lib, locale, calls[1..], st1);
      ([view] + views, st2)
  }

  /** A missing state file is read as JSON `null`, an empty state, not as an error. */
  lemma MissingStateIsEmpty<S, R, P>(cfg: map<string, string>, store: ImmutableStore, lib: Libraries, locale: string,
                                     capsule: Capsule<S, R, P>, path: string, props: P, st: BuildSnapshot)
    requires st.status.Ok? && path in cfg && !NeedsRequestTime(capsule)
    requires StateKey(lib, locale, path) !in store.files
    requires lib.parseJson("null") == Result.Ok(Null)
    ensures var res := BuildStep(cfg, store, lib, locale, WidgetCall(capsule, path, props, []), st);
      res.1.widgetStates == st.widgetStates[Localize(path, locale) := (cfg[path], Null)] &&
      !res.1.status.Cancelled?
  {
  }

  /**
   * A widget placed by a built widget's view takes part in the same build:
   * an unknown one is deferred on the page's cells.
   */
  lemma NestedUnknownWidgetIsDeferred<S, R, P>(cfg: map<string, string>, store: ImmutableStore, lib: Libraries,
                                               locale: string, call: WidgetCall<S, R, P>, st: BuildSnapshot)
    requires st.status.Ok? && call.path in cfg && !NeedsRequestTime(call.capsule)
    requires store.Read(StateKey(lib, locale, call.path)).Ok?
    requires TemplateStateFromStr(lib, store.Read(StateKey(lib, locale, call.path)).value).Ok?
    requires |call.nested| == 1 && call.nested[0].path !in cfg
    ensures BuildStep(cfg, store, lib, locale, call, st).1.incremental == st.incremental + [call.nested[0].path]
  {
    var read := store.Read(StateKey(lib, locale, call.path));
    var parsed := TemplateStateFromStr(lib, read.value);
    var full := Localize(call.path, locale);
    var recorded := st.(widgetStates := st.widgetStates[full := (cfg[call.path], parsed.value.state)]);
    var st1 := BuildStep(cfg, store, lib, locale, call.nested[0], recorded).1;
    assert st1.incremental == st.incremental + [call.nested[0].path];
    assert call.nested[1..] == [];
    assert BuildPass(cfg, store, lib, locale, call.nested, recorded).1 == st1;
  }

  /**
   * The facts a build keeps: every deferred path is unknown to the
   * configuration, and every recorded state belongs to a configured widget
   * in this locale, under its capsule's name.
   */
  predicate BuildInv(cfg: map<string, string>, locale: string, st: BuildSnapshot) {
    (forall i :: 0 <= i < |st.incremental| ==> st.incremental[i] !in cfg) &&
    (forall full :: full in st.widgetStates ==>
      exists p :: p in cfg && full == Localize(p, locale) && st.widgetStates[full].0 == cfg[p])
  }

  /** Recording a configured widget's state keeps the build's facts. */
  lemma RecordKeepsInv(cfg: map<string, string>, locale: string, st: BuildSnapshot, path: string, state: Value)
    requires BuildInv(cfg, locale, st) && path in cfg
    ensures BuildInv(cfg, locale, st.(widgetStates := st.widgetStates[Localize(path, locale) := (cfg[path], state)]))
  {
    var st1 := st.(widgetStates := st.widgetStates[Localize(path, locale) := (cfg[path], state)]);
    forall full | full in st1.widgetStates
      ensures exists p :: p in cfg && full == Localize(p, locale) && st1.widgetStates[full].0 == cfg[p]
    {
      if full == Localize(path, locale) {
        assert st1.widgetStates[full].0 == cfg[path];
      }
    }
  }

  /** One widget, with everything its view places, keeps the build's facts. */
  lemma {:induction false} BuildStepKeepsInv<S, R, P>(cfg: map<string, string>, store: ImmutableStore, lib: Libraries,
                                                      locale: string, call: WidgetCall<S, R, P>, st: BuildSnapshot)
    requires BuildInv(cfg, locale, st)
    ensures BuildInv(cfg, locale, BuildStep(cfg, store, lib, locale, call, st).1)
    decreases call
  {
    if st.status.Ok? && call.path in cfg && !NeedsRequestTime(call.capsule) {
      var read := store.Read(StateKey(lib, locale, call.path));
      if read.Ok? || read.error.NotFound? {
        var parsed := TemplateStateFromStr(lib, if read.Ok? then read.value else "null");
        if parsed.Ok? {
          var full := Localize(call.path, locale);
          var recorded := st.(widgetStates := st.widgetStates[full := (cfg[call.path], parsed.value.state)]);
          RecordKeepsInv(cfg, locale, st, call.path, parsed.value.state);
          BuildPassKeepsInv(cfg, store, lib, locale, call.nested, recorded);
        }
      }
    }
  }

  /** A whole build pass keeps the build's facts. */
  lemma {:induction false} BuildPassKeepsInv<S, R, P>(cfg: map<string, string>, store: ImmutableStore, lib: Libraries,
                                                      locale: string, calls: seq<WidgetCall<S, R, P>>, st: BuildSnapshot)
    requires BuildInv(cfg, locale, st)
    ensures BuildInv(cfg, locale, BuildPass(cfg, store, lib, locale, calls, st).1)
    decreases calls
  {
    if calls != [] {
      var st1 := BuildStep(cfg, store, lib, locale, calls[0], st).1;
      BuildStepKeepsInv(cfg, store, lib, locale, calls[0], st);
      BuildPassKeepsInv(cfg, store, lib, locale, calls[1..], st1);
    }
  }

  /**
   * A build only adds: deferred paths are appended after those already
   * deferred, and no recorded widget state is dropped.
   */
  lemma {:induction false} BuildStepGrows<S, R, P>(cfg: map<string, string>, store: ImmutableStore, lib: Libraries,
                                                   locale: string, call: WidgetCall<S, R, P>, st: BuildSnapshot)
    ensures var st1 := BuildStep(cfg, store, lib, locale, call, st).1;
      st.incremental <= st1.incremental && st.widgetStates.Keys <= st1.widgetStates.Keys
    decreases call
  {
    if st.status.Ok? && call.path in cfg && !NeedsRequestTime(call.capsule) {
      var read := store.Read(StateKey(lib, locale, call.path));
      if read.Ok? || read.error.NotFound? {
        var parsed := TemplateStateFromStr(lib, if read.Ok? then read.value else "null");
        if parsed.Ok? {
          var full := Localize(call.path, locale);
          var recorded := st.(widgetStates := st.widgetStates[full := (cfg[call.path], parsed.value.state)]);
          BuildPassGrows(cfg, store, lib, locale, call.nested, recorded);
        }
      }
    }
  }

  lemma {:induction false} BuildPassGrows<S, R, P>(cfg: map<string, string>, store: ImmutableStore, lib: Libraries,
                                                   locale: string, calls: seq<WidgetCall<S, R, P>>, st: BuildSnapshot)
    ensures var st1 := BuildPass(cfg, store, lib, locale, calls, st).1;
      st.incremental <= st1.incremental && st.widgetStates.Keys <= st1.widgetStates.Keys
    decreases calls
  {
    if calls != [] {
      var st1 := BuildStep(cfg, store, lib, locale, calls[0], st).1;
      BuildStepGrows(cfg, store, lib, locale, calls[0], st);
      BuildPassGrows(cfg, store, lib, locale, calls[1..], st1);
    }
  }

  /** Once a render has failed or been cancelled, the rest of the page's widgets render nothing and change nothing. */
  lemma {:induction false} StickyFailure<S, R, P>(cfg: map<string, string>, store: ImmutableStore, lib: Libraries,
                                                  locale: string, calls: seq<WidgetCall<S, R, P>>, st: BuildSnapshot)
    requires !st.status.Ok?
    ensures BuildPass(cfg, store, lib, locale, calls, st).1 == st
    ensures forall i :: 0 <= i < |calls| ==> BuildPass(cfg, store, lib, locale, calls, st).0[i] == EmptyView
    decreases |calls|
  {
    if calls != [] {
      StickyFailure(cfg, store, lib, locale, calls[1..], st);
    }
  }

  /**
   * A page that uses a configured widget whose state needs a request is
   * never built: the pass ends cancelled or failed.
   */
  lemma {:induction false} RequestTimeWidgetStopsBuild<S, R, P>(cfg: map<string, string>, store: ImmutableStore,
                                                                lib: Libraries, locale: string,
                                                                calls: seq<WidgetCall<S, R, P>>, st: BuildSnapshot, k: nat)
    requires k < |calls| && calls[k].path in cfg && NeedsRequestTime(calls[k].capsule)
    ensures !BuildPass(cfg, store, lib, locale, calls, st).1.status.Ok?
    decreases |calls|
  {
    var st1 := BuildStep(cfg, store, lib, locale, calls[0], st).1;
    if k == 0 {
      assert !st1.status.Ok?;
      StickyFailure(cfg, store, lib, locale, calls[1..], st1);
    } else {
      RequestTimeWidgetStopsBuild(cfg, store, lib, locale, calls[1..], st1, k - 1);
    }
  }

  /**
   * The state of a page being built (`RenderMode::Build`): cells shared by
   * every widget of the page, updated in place.
   */
  class BuildContext {
    var renderStatus: RenderStatus
    const widgetRenderCfg: map<string, string>
    const immutableStore: ImmutableStore
    var widgetStates: map<string, (string, Value)>
    var possiblyIncrementalPaths: seq<string>

    constructor (widgetRenderCfg: map<string, string>, immutableStore: ImmutableStore)
      ensures this.widgetRenderCfg == widgetRenderCfg && this.immutableStore == immutableStore
      ensures Snapshot() == BuildSnapshot(RenderStatus.Ok, map[], [])
    {
      this.widgetRenderCfg := widgetRenderCfg;
      this.immutableStore := immutableStore;
      renderStatus := RenderStatus.Ok;
      widgetStates := map[];
      possiblyIncrementalPaths := [];
    }

    function Snapshot(): BuildSnapshot
      reads this
    {
      BuildSnapshot(renderStatus, widgetStates, possiblyIncrementalPaths)
    }

    /**
     * `engine_widget` in `RenderMode::Build`. Rendering the capsule runs the
     * widgets its view places, each re-entering this method on the same cells.
     */
    method EngineWidget<S, R, P>(lib: Libraries, locale: string, call: WidgetCall<S, R, P>)
      returns (view: View)
      modifies this
      ensures (view, Snapshot()) == BuildStep(widgetRenderCfg, immutableStore, lib, locale, call, old(Snapshot()))
      decreases call
    {
      if !renderStatus.Ok? {
        return EmptyView;
      }
      if call.path in widgetRenderCfg {
        var capsuleName := widgetRenderCfg[call.path];
        if call.capsule.inner.UsesRequestState() || call.capsule.inner.Revalidates() {
          renderStatus := Cancelled;
          return EmptyView;
        }
        var pathEncoded := locale + "-" + lib.urlEncode(call.path);
        var key := "static/" + pathEncoded + ".json";
        assert key == StateKey(lib, locale, call.path);
        var read := immutableStore.Read(key);
        var text;
        match read {
          case Ok(t) =>
            text := t;
          case Err(NotFound(_)) =>
            text := "null";
          case Err(err) =>
            renderStatus := RenderStatus.Err(StoreError(err));
            return EmptyView;
        }
        var state;
        match TemplateStateFromStr(lib, text) {
          case Ok(s) =>
            state := s;
          case Err(e) =>
            renderStatus := RenderStatus.Err(InvalidPageState(e));
            return EmptyView;
        }
        var localizedPath := Localize(call.path, locale);
        widgetStates := widgetStates[localizedPath := (capsuleName, state.state)];
        var nestedViews := EngineWidgets(lib, locale, call.nested);
        match call.capsule.renderServer(localizedPath, state, call.props, nestedViews) {
          case Ok(v) =>
            view := v;
          case Err(e) =>
            renderStatus := RenderStatus.Err(ClientError(e));
            view := EmptyView;
        }
      } else {
        possiblyIncrementalPaths := possiblyIncrementalPaths + [call.path];
        view := EmptyView;
      }
    }

    /** The widgets a view places, run in order on these cells. */
    method EngineWidgets<S, R, P>(lib: Libraries, locale: string, calls: seq<WidgetCall<S, R, P>>)
      returns (views: seq<View>)
      modifies this
      ensures (views, Snapshot()) == BuildPass(widgetRenderCfg, immutableStore, lib, locale, calls, old(Snapshot()))
      decreases calls
    {
      if calls == [] {
        return [];
      }
      var view := EngineWidget(lib, locale, calls[0]);
      var rest := EngineWidgets(lib, locale, calls[1..]);
      views := [view] + rest;
    }
  }

  /**
   * One widget during a request-time render (`RenderMode::Request`): a
   * known state is rendered, with the widgets its view places; a known
   * error takes the widget; and an unknown widget renders nothing and is
   * queued (without its locale) for the next pass.
   */
  function RequestStep<S, R, P>(widgetStates: map<string, Result<TemplateState, ServerErrorData>>, handler: Handler,
                                locale: string, call: WidgetCall<S, R, P>, acc: seq<string>)
    : (res: (View, seq<string>))
    ensures Localize(call.path, locale) !in widgetStates ==> res == (EmptyView, acc + [call.path])
    ensures var full := Localize(call.path, locale);
      full in widgetStates && widgetStates[full].Err? ==>
      res == (WidgetErrorView(handler, ServerError(widgetStates[full].error.status, widgetStates[full].error.msg)), acc)
    ensures var full := Localize(call.path, locale);
      full in widgetStates && widgetStates[full].Ok? ==>
      var inner := RequestPass(widgetStates, handler, locale, call.nested, acc);
      var rendered := call.capsule.renderServer(full, widgetStates[full].value, call.props, inner.0);
      res == (if rendered.Ok? then rendered.value else WidgetErrorView(handler, rendered.error), inner.1)
    decreases call
  {
    var full := Localize(call.path, locale);
    if full in widgetStates then
      match widgetStates[full]
      case Ok(state) =>
        var (views, acc1) := RequestPass(widgetStates, handler, locale, call.nested, acc);
        (match call.capsule.renderServer(full, state, call.props, views)
         case Ok(view) => view
         case Err(e) => WidgetErrorView(handler, e), acc1)
      case Err(data) => (WidgetErrorView(handler, ServerError(data.status, data.msg)), acc)
    else (EmptyView, acc + [call.path])
  }

  /** Widgets rendered in order during a request, sharing the accumulator. */
  function RequestPass<S, R, P>(widgetStates: map<string, Result<TemplateState, ServerErrorData>>, handler: Handler,
                                locale: string, calls: seq<WidgetCall<S, R, P>>, acc: seq<string>)
    : (res: (seq<View>, seq<string>))
    ensures |res.0| == |calls|
    decreases calls
  {
    if calls == [] then ([], acc)
    else
      var (view, acc1) := RequestStep(widgetStates, handler, locale, calls[0], acc);
      var (views, acc2) := RequestPass(widgetStates, handler, locale, calls[1..], acc1);
      ([view] + views, acc2)
  }

  /**
   * The widgets a request render cannot resolve yet, in the order it meets
   * them: a widget without an entry, or, below a widget whose state is
   * known, the unresolved widgets its view places.
   */
  function Unresolved<S, R, P>(widgetStates: map<string, Result<TemplateState, ServerErrorData>>, locale: string,
                               calls: seq<WidgetCall<S, R, P>>): (paths: seq<string>)
    ensures forall i :: 0 <= i < |paths| ==> Localize(paths[i], locale) !in widgetStates
    decreases calls
  {
    if calls == [] then []
    else UnresolvedIn(widgetStates, locale, calls[0]) + Unresolved(widgetStates, locale, calls[1..])
  }

  function UnresolvedIn<S, R, P>(widgetStates: map<string, Result<TemplateState, ServerErrorData>>, locale: string,
                                 call: WidgetCall<S, R, P>): (paths: seq<string>)
    ensures forall i :: 0 <= i < |paths| ==> Localize(paths[i], locale) !in widgetStates
    decreases call
  {
    var full := Localize(call.path, locale);
    if full !in widgetStates then [call.path]
    else if widgetStates[full].Ok? then Unresolved(widgetStates, locale, call.nested)
    else []
  }

  /** Every widget the render reaches has an entry: a state or an error. */
  predicate Resolved<S, R, P>(widgetStates: map<string, Result<TemplateState, ServerErrorData>>, locale: string,
                              calls: seq<WidgetCall<S, R, P>>)
    decreases calls
  {
    forall i :: 0 <= i < |calls| ==> ResolvedCall(widgetStates, locale, calls[i])
  }

  predicate ResolvedCall<S, R, P>(widgetStates: map<string, Result<TemplateState, ServerErrorData>>, locale: string,
                                  call: WidgetCall<S, R, P>)
    decreases call
  {
    var full := Localize(call.path, locale);
    full in widgetStates && (widgetStates[full].Ok? ==> Resolved(widgetStates, locale, call.nested))
  }

  /** One widget queues exactly its unresolved widgets, nested ones included. */
  lemma {:induction false} RequestStepAccumulates<S, R, P>(widgetStates: map<string, Result<TemplateState, ServerErrorData>>,
                                                           handler: Handler, locale: string,
                                                           call: WidgetCall<S, R, P>, acc: seq<string>)
    ensures RequestStep(widgetStates, handler, locale, call, acc).1 == acc + UnresolvedIn(widgetStates, locale, call)
    decreases call
  {
    var full := Localize(call.path, locale);
    if full in widgetStates && widgetStates[full].Ok? {
      RequestPassAccumulates(widgetStates, handler, locale, call.nested, acc);
    }
  }

  /** A request pass queues exactly the unresolved widgets, in the order the render meets them. */
  lemma {:induction false} RequestPassAccumulates<S, R, P>(widgetStates: map<string, Result<TemplateState, ServerErrorData>>,
                                                           handler: Handler, locale: string,
                                                           calls: seq<WidgetCall<S, R, P>>, acc: seq<string>)
    ensures RequestPass(widgetStates, handler, locale, calls, acc).1 == acc + Unresolved(widgetStates, locale, calls)
    decreases calls
  {
    if calls != [] {
      var acc1 := RequestStep(widgetStates, handler, locale, calls[0], acc).1;
      RequestStepAccumulates(widgetStates, handler, locale, calls[0], acc);
      RequestPassAccumulates(widgetStates, handler, locale, calls[1..], acc1);
      assert acc + Unresolved(widgetStates, locale, calls)
          == (acc + UnresolvedIn(widgetStates, locale, calls[0])) + Unresolved(widgetStates, locale, calls[1..]);
    }
  }

  /** Nothing is unresolved exactly when every widget the render reaches has an entry. */
  lemma {:induction false} NothingUnresolved<S, R, P>(widgetStates: map<string, Result<TemplateState, ServerErrorData>>,
                                                      locale: string, calls: seq<WidgetCall<S, R, P>>)
    ensures Unresolved(widgetStates, locale, calls) == [] <==> Resolved(widgetStates, locale, calls)
    decreases calls
  {
    if calls != [] {
      NothingUnresolvedIn(widgetStates, locale, calls[0]);
      NothingUnresolved(widgetStates, locale, calls[1..]);
      assert Resolved(widgetStates, locale, calls) <==>
        ResolvedCall(widgetStates, locale, calls[0]) && Resolved(widgetStates, locale, calls[1..]) by {
        if Resolved(widgetStates, locale, calls) {
          forall i | 0 <= i < |calls[1..]|
            ensures ResolvedCall(widgetStates, locale, calls[1..][i])
          {
            assert calls[1..][i] == calls[i + 1];
          }
        }
        if ResolvedCall(widgetStates, locale, calls[0]) && Resolved(widgetStates, locale, calls[1..]) {
          forall i | 0 <= i < |calls|
            ensures ResolvedCall(widgetStates, locale, calls[i])
          {
            if i > 0 {
              assert calls[i] == calls[1..][i - 1];
            }
          }
        }
      }
    }
  }

  lemma {:induction false} NothingUnresolvedIn<S, R, P>(widgetStates: map<string, Result<TemplateState, ServerErrorData>>,
                                                        locale: string, call: WidgetCall<S, R, P>)
    ensures UnresolvedIn(widgetStates, locale, call) == [] <==> ResolvedCall(widgetStates, locale, call)
    decreases call
  {
    NothingUnresolved(widgetStates, locale, call.nested);
  }

  /** When every widget the render reaches has an entry, no further pass is needed. */
  lemma {:induction false} ResolvedPassQueuesNothing<S, R, P>(widgetStates: map<string, Result<TemplateState, ServerErrorData>>,
                                                              handler: Handler, locale: string,
                                                              calls: seq<WidgetCall<S, R, P>>, acc: seq<string>)
    requires Resolved(widgetStates, locale, calls)
    ensures RequestPass(widgetStates, handler, locale, calls, acc).1 == acc
  {
    RequestPassAccumulates(widgetStates, handler, locale, calls, acc);
    NothingUnresolved(widgetStates, locale, calls);
    assert acc + [] == acc;
  }

  /** A widget with a known state whose view places a widget without an entry queues that nested widget. */
  lemma NestedMissingWidgetIsQueued<S, R, P>(widgetStates: map<string, Result<TemplateState, ServerErrorData>>,
                                             handler: Handler, locale: string, call: WidgetCall<S, R, P>,
                                             acc: seq<string>)
    requires Localize(call.path, locale) in widgetStates && widgetStates[Localize(call.path, locale)].Ok?
    requires |call.nested| == 1 && Localize(call.nested[0].path, locale) !in widgetStates
    ensures RequestStep(widgetStates, handler, locale, call, acc).1 == acc + [call.nested[0].path]
  {
    assert call.nested[1..] == [];
    var acc1 := RequestStep(widgetStates, handler, locale, call.nested[0], acc).1;
    assert acc1 == acc + [call.nested[0].path];
    assert RequestPass(widgetStates, handler, locale, call.nested, acc).1 == acc1;
  }

  /** The state of a page rendered for a request (`RenderMode::Request`). */
  class RequestContext {
    const widgetStates: map<string, Result<TemplateState, ServerErrorData>>
    const errorViews: ErrorViews
    var unresolvedWidgetAccumulator: seq<string>

    constructor (widgetStates: map<string, Result<TemplateState, ServerErrorData>>, errorViews: ErrorViews)
      ensures this.widgetStates == widgetStates && this.errorViews == errorViews
      ensures unresolvedWidgetAccumulator == []
    {
      this.widgetStates := widgetStates;
      this.errorViews := errorViews;
      unresolvedWidgetAccumulator := [];
    }

    /**
     * `engine_widget` in `RenderMode::Request`. Rendering a known state runs
     * the widgets the capsule's view places, each re-entering this method.
     */
    method EngineWidget<S, R, P>(locale: string, call: WidgetCall<S, R, P>)
      returns (view: View)
      modifies this`unresolvedWidgetAccumulator
      ensures (view, unresolvedWidgetAccumulator) ==
        RequestStep(widgetStates, errorViews.handler, locale, call, old(unresolvedWidgetAccumulator))
      decreases call
    {
      var fullPath := Localize(call.path, locale);
      if fullPath in widgetStates {
        match widgetStates[fullPath] {
          case Ok(state) =>
            var nestedViews := EngineWidgets(locale, call.nested);
            match call.capsule.renderServer(fullPath, state, call.props, nestedViews) {
              case Ok(v) =>
                view := v;
              case Err(err) =>
                view := WidgetErrorView(errorViews.handler, err);
            }
          case Err(errData) =>
            view := WidgetErrorView(errorViews.handler, ServerError(errData.status, errData.msg));
        }
      } else {
        unresolvedWidgetAccumulator := unresolvedWidgetAccumulator + [call.path];
        view := EmptyView;
      }
    }

    /** The widgets a view places, run in order on this accumulator. */
    method EngineWidgets<S, R, P>(locale: string, calls: seq<WidgetCall<S, R, P>>)
      returns (views: seq<View>)
      modifies this`unresolvedWidgetAccumulator
      ensures (views, unresolvedWidgetAccumulator) ==
        RequestPass(widgetStates, errorViews.handler, locale, calls, old(unresolvedWidgetAccumulator))
      decreases calls
    {
      if calls == [] {
        return [];
      }
      var view := EngineWidget(locale, calls[0]);
      var rest := EngineWidgets(locale, calls[1..]);
      views := [view] + rest;
    }
  }

  /** What the engine is rendering when a widget is placed (`RenderMode`). */
  datatype RenderMode = Build(build: BuildContext) | Request(request: RequestContext) | Head | Error | Headers {
    function Contexts(): set<object> {
      match this
      case Build(b) => {b}
      case Request(q) => {q}
      case _ => {}
    }
  }

  /** `engine_widget`: dispatch on the render mode; heads, error views and headers cannot hold widgets. */
  method EngineWidget<S, R, P>(mode: RenderMode, lib: Libraries, locale: string, call: WidgetCall<S, R, P>)
    returns (r: Outcome<View>)
    modifies mode.Contexts()
    ensures mode.Build? ==>
      r.Returned? &&
      (r.value, mode.build.Snapshot()) ==
        BuildStep(mode.build.widgetRenderCfg, mode.build.immutableStore, lib, locale, call, old(mode.build.Snapshot()))
    ensures mode.Request? ==>
      r.Returned? &&
      (r.value, mode.request.unresolvedWidgetAccumulator) ==
        RequestStep(mode.request.widgetStates, mode.request.errorViews.handler, locale, call,
                    old(mode.request.unresolvedWidgetAccumulator))
    ensures mode.Head? ==> r == Panicked("widgets cannot be used in heads")
    ensures mode.Error? ==> r == Panicked("widgets cannot be used in error views")
    ensures mode.Headers? ==> r == Panicked("widgets cannot be used in headers")
  {
    match mode
    case Build(build) =>
      var view := build.EngineWidget(lib, locale, call);
      r := Returned(view);
    case Request(request) =>
      var view := request.EngineWidget(locale, call);
      r := Returned(view);
    case Head =>
      r := Panicked("widgets cannot be used in heads");
    case Error =>
      r := Panicked("widgets cannot be used in error views");
    case Headers =>
      r := Panicked("widgets cannot be used in headers");
  }

  /**
   * `__widget` on the engine: normalise the path, then either render the
   * fallback of a delayed widget (which must exist), touching no state, or
   * resolve the widget, with the widgets its view places, for the current
   * render mode.
   */
  method Widget<S, R, P>(mode: RenderMode, lib: Libraries, locale: string, capsule: Capsule<S, R, P>,
                         userPath: string, props: P, nested: seq<WidgetCall<S, R, P>>, delayed: bool)
    returns (r: Outcome<View>)
    modifies mode.Contexts()
    ensures delayed ==> unchanged(mode.Contexts())
    ensures delayed && capsule.fallback.Some? ==> r == Returned(capsule.fallback.value(props))
    ensures delayed && capsule.fallback.None? ==> r.Panicked?
    ensures !delayed && mode.Build? ==>
      r.Returned? &&
      (r.value, mode.build.Snapshot()) ==
        BuildStep(mode.build.widgetRenderCfg, mode.build.immutableStore, lib, locale,
                  WidgetCall(capsule, WidgetPath(capsule.inner.path, userPath), props, nested), old(mode.build.Snapshot()))
    ensures !delayed && mode.Request? ==>
      r.Returned? &&
      (r.value, mode.request.unresolvedWidgetAccumulator) ==
        RequestStep(mode.request.widgetStates, mode.request.errorViews.handler, locale,
                    WidgetCall(capsule, WidgetPath(capsule.inner.path, userPath), props, nested),
                    old(mode.request.unresolvedWidgetAccumulator))
    ensures !delayed && !mode.Build? && !mode.Request? ==> r.Panicked?
  {
    var path := WidgetPath(capsule.inner.path, userPath);
    if delayed {
      match capsule.fallback
      case Some(fallback) =>
        r := Returned(fallback(props));
      case None =>
        r := Panicked("called `Option::unwrap()` on a `None` value");
    } else {
      r := EngineWidget(mode, lib, locale, WidgetCall(capsule, path, props, nested));
    }
  }
}
