# Perseus widget and state resolution, modelled in Dafny

This project models the part of the Perseus web framework that lets a
server-rendered app place nested *widgets* (instances of *capsules*) in its
pages and decide where each widget's state comes from:

- **Widget placement** (`WidgetComponent`). A widget's path is normalised
  under its capsule's path. While a page is built, the engine does one of
  three things for each widget:
  - reads the widget's build-time state from the immutable store under a
    fixed key and records it;
  - cancels the page's render when the capsule needs request state or
    revalidation;
  - defers the path as possibly incremental.

  While a page is rendered for a request, a widget is rendered from a known
  state, rendered as a widget error view, or queued for the next pass.
  In both modes, rendering a capsule runs the widgets its own view places
  (`WidgetCall.nested`) on the same cells, before the capsule's view is
  complete.
  `BuildContext` and `RequestContext` are the render-session cells the
  widgets of a page update in place. The pure functions `BuildStep`,
  `BuildPass`, `RequestStep` and `RequestPass` specify them.
- **Widget state lookup** (`WidgetState`). The lookup tries a held state
  first, then a preloaded store entry (browser) or the state the server
  passed in (engine). It records registrations into the state store
  (`ReactorState.Reactor`, an interface whose calls are traced in order).
  In the browser, the deferred fetch shows the fallback first, then
  preloads under the path without its locale, declares the widget a
  dependency of its caller, and finally shows the real view.
- **Reactive and unreactive state** (`RxState`, `RxHashMap`). These are the
  `make_rx` / `make_unrx` pairs, freezing (collapse, then serialise), and
  the `HSR_IGNORE` constants.
- **Templates** (`TemplateCore`, `StateSetters`). These cover the defaults
  of a new template, building and dereferencing it, and the builder
  methods that install view, head and header functions. The empty-state
  and undecodable-state checks run before a user's head or header
  function.
- **Error views** (`ErrorHandling`). This covers the error context and
  position the user's handler is called with, the subsequent-load
  determinant, and the development default handler, with markup kept
  opaque.

JSON, URL encoding and the store's file system are parameters: the
`Values.Libraries` record, `RxState.StateType.decode` and
`WidgetComponent.ImmutableStore`. Network results, such as what a preload
fetched, are passed in as parameters too.

## Model

| member | source | states |
|---|---|---|
| Values.TemplateStateFromStr | packages/perseus/src/template/widget_component.rs:256-265 | parsing JSON text into a state succeeds exactly when the JSON parser does, and then holds the parsed value |
| Errors.IntoServerResult | packages/perseus/src/template/core/state_setters.rs:132-133 | a generated value passes through; a generator failure becomes a render failure naming the function and the template |
| Paths.Localize | packages/perseus/src/template/widget_component.rs:267 | the dummy locale `xx-XX` leaves a path as it is; any other locale prefixes `{locale}/` to it |
| Paths.LocalizeInjective | packages/perseus/src/template/widget_component.rs:267-274 | within one locale, distinct widget paths get distinct localised keys in `widget_states` |
| RxState.MakeUnrxOfMakeRx | packages/perseus/src/state/rx_state.rs:148-159 | `make_rx` wraps the value unchanged, and `make_unrx(make_rx(v)) == v` |
| RxState.MakeRxOfMakeUnrx | packages/perseus/src/state/rx_state.rs:148-159 | the converse round trip: `make_rx(make_unrx(w)) == w` |
| RxState.FreezeOfMakeRx | packages/perseus/src/state/rx_state.rs:168-171 | freezing the wrapper is serialising the wrapped value |
| RxState.FreezeThaw | packages/perseus/src/state/rx_state.rs:168-171 | a deserialiser that inverts the serialiser recovers the frozen value |
| RxState.FreezeInjective | packages/perseus/src/state/rx_state.rs:168-171 | with an injective serialiser, equal frozen strings mean equal wrappers |
| RxState.MakeRx | packages/perseus/src/state/rx_state.rs:148-150 | no contract of its own: `RxState.MakeUnrxOfMakeRx` and `RxState.MakeRxOfMakeUnrx` state it |
| RxState.MakeUnrx | packages/perseus/src/state/rx_state.rs:157-159 | no contract of its own: `RxState.MakeUnrxOfMakeRx` and `RxState.MakeRxOfMakeUnrx` state it |
| RxState.Freeze | packages/perseus/src/state/rx_state.rs:168-171 | no contract of its own: `RxState.FreezeOfMakeRx`, `RxState.FreezeThaw` and `RxState.FreezeInjective` state it |
| RxState.UnreactiveStateType | packages/perseus/src/state/rx_state.rs:142-159 | the blanket implementation for unreactive types round-trips (`make_unrx ∘ make_rx = id`) and keeps the value |
| RxState.HsrIgnore | packages/perseus/src/state/rx_state.rs:39-147 | `HSR_IGNORE` is `false` by default for `MakeRx` types, `true` for every unreactive type, and an override wins |
| RxHashMap.MakeRx | packages/perseus/src/state/rx_collections/rx_hash_map.rs:36-43 | the key set is kept exactly; each key gets its own fresh signal holding the original value; collapsing gives the map back and freezing is serialising the map |
| RxHashMap.MakeUnrx | packages/perseus/src/state/rx_collections/rx_hash_map.rs:53-56 | the same keys, each with the value its signal holds, read without changing anything |
| RxHashMap.DerefFrom | packages/perseus/src/state/rx_collections/rx_hash_map.rs:68-95 | `From` wraps the map unchanged and `Deref` returns that same map (both directions) |
| RxHashMap.FreezeThaw | packages/perseus/src/state/rx_collections/rx_hash_map.rs:104-108 | a frozen reactive map thaws to exactly the map its signals hold |
| RxHashMap.Freeze | packages/perseus/src/state/rx_collections/rx_hash_map.rs:104-108 | no contract of its own: `RxHashMap.MakeRx` and `RxHashMap.FreezeThaw` state it |
| ErrorHandling.DefaultDeterminant | packages/perseus/src/error_views.rs:51-54 | the default determinant is true exactly for `ServerError` |
| ErrorHandling.HandleContext | packages/perseus/src/error_views.rs:165-172 | `Full` iff reactor and translator, `WithReactor` iff reactor without translator, `Static` iff no reactor; never `FullNoGlobal` |
| ErrorHandling.RenderToStringCall | packages/perseus/src/error_views.rs:198-212 | `FullNoGlobal` iff a translator is given, else `WithReactor`; always `Page`; status and message copied into `ServerError` |
| ErrorHandling.ErrorViews.constructor | packages/perseus/src/error_views.rs:41-58 | the given handler, the default determinant, and the handler kept for panics |
| ErrorHandling.ErrorViews.SubsequentLoadDeterminantFn | packages/perseus/src/error_views.rs:60-66 | only the determinant is replaced; the handler and panic handler are unchanged |
| ErrorHandling.DefaultPopup | packages/perseus/src/error_views.rs:51-71 | with the default determinant, a subsequent-load error is a popup exactly when it is not a server error |
| ErrorHandling.ErrorViews.SubsequentErrShouldBePopup | packages/perseus/src/error_views.rs:69-71 | no contract of its own: `ErrorHandling.DefaultPopup` states it |
| ErrorHandling.ErrorViews.TakePanicHandler | packages/perseus/src/error_views.rs:181-186 | the panic handler is handed over and replaced by none; nothing else changes |
| ErrorHandling.WidgetErrorViewIsFullHandle | packages/perseus/src/error_views.rs:222-225 | `handle_widget` gives the body that `handle` gives at the widget position when a reactor and a translator exist |
| ErrorHandling.RenderToStringWithoutTranslator | packages/perseus/src/error_views.rs:191-218 | without a translator, `render_to_string` of server error data is `handle` of the corresponding `ServerError` at the page position with a reactor |
| ErrorHandling.RenderToStringWithTranslatorIsNotHandle | packages/perseus/src/error_views.rs:198-212 | with a translator, `render_to_string` uses `FullNoGlobal`, a context `handle` never passes, so a handler that distinguishes it gives a result no `handle` call gives |
| ErrorHandling.WidgetErrorView | packages/perseus/src/error_views.rs:222-225 | no contract of its own: `ErrorHandling.WidgetErrorViewIsFullHandle` states it |
| ErrorHandling.ErrorViews.Handle | packages/perseus/src/error_views.rs:164-179 | no contract of its own: `ErrorHandling.HandleContext` and `ErrorHandling.WidgetErrorViewIsFullHandle` state it |
| ErrorHandling.ErrorViews.RenderToString | packages/perseus/src/error_views.rs:191-218 | no contract of its own: `ErrorHandling.RenderToStringCall` and the two `RenderToString…` lemmas state it |
| ErrorHandling.DevelopmentHandler | packages/perseus/src/error_views.rs:74-159 | the not-found head iff the error is `ServerError` with status 404; a panic gets an empty head and the panic overlay; other errors get the generic view placed by position |
| ErrorHandling.UnlocalizedDevelopmentDefault | packages/perseus/src/error_views.rs:73-159 | error views with the development handler, which is also the panic handler, and the default determinant |
| TemplateCore.New | packages/perseus/src/template/core/mod.rs:164-192 | the path is stored verbatim; the view renders nothing; no head, headers, build paths, build or request state, revalidation or amalgamation; `incremental_generation`, `is_capsule` and `can_be_rescheduled` are false |
| TemplateCore.NewGeneratesNoState | packages/perseus/src/template/core/mod.rs:170-187 | a new template neither uses build or request state nor revalidates |
| TemplateCore.TemplateInner.Build | packages/perseus/src/template/core/mod.rs:199-203 | a built template dereferences to the very builder it was made from |
| TemplateCore.BuildThenDeref | packages/perseus/src/template/core/mod.rs:39-51 | `Template::build(path)`, built and dereferenced, is `TemplateInner::new(path)` |
| TemplateCore.BuildTemplate | packages/perseus/src/template/core/mod.rs:49-51 | no contract of its own: `TemplateCore.BuildThenDeref` states it |
| StateSetters.StateGuarded | packages/perseus/src/template/core/state_setters.rs:113-133 | an empty state gives `InvariantError(NoState)`; an undecodable state gives `InvariantError(InvalidState)`; otherwise the user function's result, its failure tagged with the function and template names |
| StateSetters.GuardsIgnoreUserFn | packages/perseus/src/template/core/state_setters.rs:113-130 | on an empty or undecodable state the result is an error that does not depend on the user function |
| StateSetters.GuardPassesDecodedState | packages/perseus/src/template/core/state_setters.rs:119-133 | a decodable state is passed to the user function as decoded |
| StateSetters.HeadWithState | packages/perseus/src/template/core/state_setters.rs:106-146 | on the engine only the head changes, to the guarded user function tagged `"head"` and the template path; in the browser the template is returned unchanged |
| StateSetters.SetHeadersWithState | packages/perseus/src/template/core/state_setters.rs:152-194 | the same guards in the same order, tagged `"set_headers"`; in the browser the template is returned unchanged |
| StateSetters.ViewNoState | packages/perseus/src/template/core/state_setters.rs:82-97 | only the view changes, to a view that takes no state |
| StateSetters.ViewWithState | packages/perseus/src/template/core/state_setters.rs:28-53 | only the view changes, to a view of the reactive state |
| StateSetters.ViewWithUnreactiveState | packages/perseus/src/template/core/state_setters.rs:57-77 | only the view changes, to a view of the unreactive state |
| StateSetters.RunView | packages/perseus/src/template/core/state_setters.rs:35-95 | a stateless view registers the path with `register_no_state(path, false)` and always returns `Ok`; a state-taking view propagates the page-state error unchanged, or is given the reactive state or its `make_unrx`; the default view returns `Ok` of an empty view |
| StateSetters.UnreactiveViewSeesState | packages/perseus/src/template/core/state_setters.rs:63-75 | for an unreactive type, the installed view sees exactly the state that was made reactive |
| ReactorState.Reactor.GetHeldState | packages/perseus/src/reactor/widget_state.rs:262 | nothing held gives `Ok(None)`; a held state or a lookup error is reported as held |
| ReactorState.Reactor.AddHead | packages/perseus/src/reactor/widget_state.rs:273 | the registration is appended to the trace |
| ReactorState.Reactor.AddState | packages/perseus/src/reactor/widget_state.rs:285 | the registration is traced with its `is_head` flag; the state becomes held for the path, unless the store refuses it with its error |
| ReactorState.Reactor.DeclareDependency | packages/perseus/src/reactor/widget_state.rs:107-109 | the dependency of the widget on its caller is appended to the trace |
| ReactorState.Reactor.RegisterNoState | packages/perseus/src/template/core/state_setters.rs:90 | the registration is appended to the trace |
| ReactorState.Reactor.Preload | packages/perseus/src/reactor/widget_state.rs:84-94 | the call is traced; a fetched state is stored as a preload under the localised path; a failure is returned and stores nothing |
| ReactorState.Reactor.SetView | packages/perseus/src/reactor/widget_state.rs:63 | the widget's view signal change is appended to the trace |
| WidgetState.PathWithoutLocaleForPreload | packages/perseus/src/reactor/widget_state.rs:75-82 | `xx-XX` keeps the path; another locale strips `{locale}/`; a path without that prefix panics |
| WidgetState.StripLocalized | packages/perseus/src/reactor/widget_state.rs:75-82 | stripping a localised path never panics and gives back the path |
| WidgetState.LocalizeStripped | packages/perseus/src/reactor/widget_state.rs:75-94 | re-localising the stripped path gives the widget's path, so the preload fills the entry the lookup reads |
| WidgetState.DecodeServerErrorData | packages/perseus/src/reactor/widget_state.rs:289-294 | decoded error data comes from an object with a `u16` status and a string message |
| WidgetState.DecodeEncodeServerErrorData | packages/perseus/src/reactor/widget_state.rs:291-294 | error data read back from its encoding is the same data |
| WidgetState.DecodeWithServerError | packages/perseus/src/reactor/widget_state.rs:275-280 | a decoded `Ok` comes from `{"Ok": v}` with `v` decoding to the state; a decoded `Err` comes from `{"Err": data}` |
| WidgetState.DecodeOkState | packages/perseus/src/reactor/widget_state.rs:275-288 | a built state sent as `{"Ok": v}` decodes to that state |
| WidgetState.DecodeErrState | packages/perseus/src/reactor/widget_state.rs:289-294 | an error sent as `{"Err": data}` decodes to that error |
| WidgetState.GetWidgetStateNoFetch | packages/perseus/src/reactor/widget_state.rs:253-328 | a held state or lookup error wins and nothing is registered. In the browser a preloaded entry registers an empty head; then undecodable gives `InvalidState`, server error data gives `ServerError` with nothing added, and a state is added and returned. An absent entry gives `Ok(None)`; a head entry gives `InvalidWidgetPssEntry`. On the engine an empty state gives `NoState`, undecodable gives `InvalidState`, and a state is added and returned. The engine never gets `Ok(None)` and a returned state is held |
| WidgetState.GetWidgetView | packages/perseus/src/reactor/widget_state.rs:32-129 | a held state is given to the view. Every error of the lookup is returned unchanged: a held error, `InvalidWidgetPssEntry`, `InvalidState`, the preloaded `ServerError`, `NoState` on the engine, and an `add_state` refusal. A decoded state is rendered. A needed fetch sets the view signal to the fallback and returns it. The trace and the held states are given per case: a held state or error, a head entry, and every error before decoding register nothing; a preloaded entry registers an empty head, then the state; only a state the store accepts is held, under the path |
| WidgetState.ResolveFetchedState | packages/perseus/src/reactor/widget_state.rs:101-116 | after a preload the lookup never asks to fetch. A held or decoded-and-added state is rendered after `declare_dependency(path, caller_path)`. Every lookup error (held, undecodable, server error data, `add_state` refusal) renders that error's widget error view and declares nothing. The trace is given exactly per case, and the held states change only by a state the store accepts |
| WidgetState.CompleteWidgetFetch | packages/perseus/src/reactor/widget_state.rs:71-121 | the preload is traced first, with the stripped path, `false` route preloading and `true` for a widget, and the final view is set last. A failed fetch shows its widget error view. For fetched data `{"Ok": v}` whose state is accepted, the real view of `make_rx` of the decoded state is shown right after `declare_dependency`. Undecodable data, server error data and a refused `add_state` each show their own widget error view without a declaration. Fetched data is stored as the preloaded entry of the widget's path; a failed fetch or a panic stores and holds nothing; only a state the store accepts is held |
| WidgetState.GetUnreactiveWidgetView | packages/perseus/src/reactor/widget_state.rs:141-239 | the same cases, trace and held states as `GetWidgetView`, with the view given `make_unrx` of the held or added state |
| WidgetState.CompleteUnreactiveWidgetFetch | packages/perseus/src/reactor/widget_state.rs:181-231 | the same cases, trace, stored entries and held states as `CompleteWidgetFetch`, with the view given `make_unrx` of the state |
| WidgetComponent.StripOnePrefix | packages/perseus/src/template/widget_component.rs:76 | exactly one leading `/` is removed, if there is one |
| WidgetComponent.StripOneSuffix | packages/perseus/src/template/widget_component.rs:77 | exactly one trailing `/` is removed, if there is one |
| WidgetComponent.WidgetPath | packages/perseus/src/template/widget_component.rs:74-83 | the result is the capsule path or lies under `capsule path + "/"` |
| WidgetComponent.WidgetPathIndex | packages/perseus/src/template/widget_component.rs:16-21 | `""` and `"/"` both name the index widget, the capsule path itself |
| WidgetComponent.WidgetPathPlain | packages/perseus/src/template/widget_component.rs:74-83 | a plain path is joined with `/`, and one surrounding `/` on either side changes nothing |
| WidgetComponent.ImmutableStore.Read | packages/perseus/src/template/widget_component.rs:245-247 | a missing file reads as `NotFound` |
| WidgetComponent.BuildStep | packages/perseus/src/template/widget_component.rs:203-297 | a non-`Ok` status leaves everything unchanged. A configured capsule needing request state or revalidation cancels and records nothing. An unconfigured path is appended to the incremental paths with the status kept. Otherwise the state is read at `static/{locale}-{urlencode(path)}.json`: `NotFound` reads as `"null"`, another error fails the status, and an unparsable state fails with `InvalidPageState`; a parsed state is recorded under the localised path with the capsule name before the capsule renders; the widgets its view places then run on the same cells, and the capsule renders with their views; a render error fails with `ClientError` after their effects |
| WidgetComponent.MissingStateIsEmpty | packages/perseus/src/template/widget_component.rs:245-274 | a missing state file records an empty (`null`) state for the widget instead of failing |
| WidgetComponent.NestedUnknownWidgetIsDeferred | packages/perseus/src/template/widget_component.rs:267-295 | an unconfigured widget placed by a built widget's view is deferred on the page's own cells |
| WidgetComponent.RecordKeepsInv | packages/perseus/src/template/widget_component.rs:267-273 | recording a configured widget's state under its localised path and capsule name keeps the build's invariant |
| WidgetComponent.BuildStepKeepsInv | packages/perseus/src/template/widget_component.rs:219-296 | deferred paths stay unconfigured, and recorded states stay keyed by configured, localised paths under their capsule names |
| WidgetComponent.BuildPass | packages/perseus/src/template/widget_component.rs:210-214 | each widget of the page yields exactly one view |
| WidgetComponent.StickyFailure | packages/perseus/src/template/widget_component.rs:210-214 | once the status is not `Ok`, every later widget renders empty and changes nothing |
| WidgetComponent.BuildPassKeepsInv | packages/perseus/src/template/widget_component.rs:219-296 | a whole page's build keeps the build's invariant |
| WidgetComponent.BuildStepGrows | packages/perseus/src/template/widget_component.rs:267-295 | a widget, with the widgets it places, only appends deferred paths and never drops a recorded state |
| WidgetComponent.BuildPassGrows | packages/perseus/src/template/widget_component.rs:267-295 | a page's widgets only append deferred paths and never drop a recorded state |
| WidgetComponent.RequestTimeWidgetStopsBuild | packages/perseus/src/template/widget_component.rs:219-225 | a page using a configured widget that needs request state or revalidation never finishes its build with status `Ok` |
| WidgetComponent.BuildContext.constructor | packages/perseus/src/template/widget_component.rs:203-209 | a build starts with status `Ok`, no widget states and no incremental paths |
| WidgetComponent.BuildContext.EngineWidget | packages/perseus/src/template/widget_component.rs:203-297 | the in-place update of the build cells, nested widgets included, is exactly `BuildStep` of their old values |
| WidgetComponent.BuildContext.EngineWidgets | packages/perseus/src/template/widget_component.rs:276-283 | the widgets a view places update the build cells exactly as `BuildPass` of their old values |
| WidgetComponent.RequestStep | packages/perseus/src/template/widget_component.rs:300-352 | the unlocalised path is queued and the view is empty iff its localised path has no entry; an `Ok` state is rendered after the widgets its view places have run on the accumulator, and a render error becomes the widget error view; `Err{status, msg}` becomes the widget error view of `ServerError{status, message: msg}` and runs no nested widget |
| WidgetComponent.RequestPass | packages/perseus/src/template/widget_component.rs:346-351 | each widget of the page yields exactly one view |
| WidgetComponent.Unresolved | packages/perseus/src/template/widget_component.rs:312-351 | only paths of widgets the render reaches that have no entry are listed |
| WidgetComponent.UnresolvedIn | packages/perseus/src/template/widget_component.rs:312-351 | only paths without an entry are listed for a widget and the widgets below it |
| WidgetComponent.RequestStepAccumulates | packages/perseus/src/template/widget_component.rs:312-351 | a widget appends exactly its unresolved paths, nested ones included, in render order |
| WidgetComponent.RequestPassAccumulates | packages/perseus/src/template/widget_component.rs:312-351 | a pass appends exactly the unresolved widget paths, nested ones included, in render order |
| WidgetComponent.NothingUnresolved | packages/perseus/src/template/widget_component.rs:312-351 | no path is unresolved if and only if every widget the render reaches has an entry |
| WidgetComponent.NothingUnresolvedIn | packages/perseus/src/template/widget_component.rs:312-351 | a widget leaves no path unresolved if and only if it and every widget below a known state have an entry |
| WidgetComponent.ResolvedPassQueuesNothing | packages/perseus/src/template/widget_component.rs:312-351 | when every widget the render reaches has an entry, the accumulator is unchanged |
| WidgetComponent.NestedMissingWidgetIsQueued | packages/perseus/src/template/widget_component.rs:312-351 | a widget without an entry, placed by a widget with a known state, is queued on the page's accumulator |
| WidgetComponent.RequestContext.constructor | packages/perseus/src/template/widget_component.rs:300-304 | a request render starts with an empty accumulator |
| WidgetComponent.RequestContext.EngineWidget | packages/perseus/src/template/widget_component.rs:300-352 | the in-place update of the accumulator, nested widgets included, and the view are exactly `RequestStep` |
| WidgetComponent.RequestContext.EngineWidgets | packages/perseus/src/template/widget_component.rs:312-351 | the widgets a view places update the accumulator exactly as `RequestPass` |
| WidgetComponent.EngineWidget | packages/perseus/src/template/widget_component.rs:189-358 | build and request modes follow `BuildStep` and `RequestStep`; head, error and header modes panic |
| WidgetComponent.Widget | packages/perseus/src/template/widget_component.rs:74-100 | a delayed widget renders only its fallback, which must exist, and touches no state; otherwise the normalised path, with the widgets the capsule's view places, is resolved for the render mode |

## Left out

- Browser-side widget placement (`browser_widget`, packages/perseus/src/template/widget_component.rs:107-185) is not modelled. It rests on the router's `match_route` / `into_full` and a debug assertion. The browser's lookup and fetch (`WidgetState`) are modelled.
- The asynchronous runtime is not modelled: `spawn_local_scoped`, scope cancellation and signal reactivity. The deferred fetch is the method `WidgetState.CompleteWidgetFetch`. The network's answer to the preload is its `fetched` parameter.
- The page state store's implementation (`store.rs`) is not part of this model. Its methods are traced calls over explicit entries, preloads and held states:
  - `preload` is assumed to store its data under the localised path;
  - how `add_head` and `add_state` reclassify entries is not modelled;
  - the errors `add_state` can return are a parameter (`addStateFailures`).
  - `ReactorState.Reactor.Valid` assumes that every entry classified as holding a state (`State`, `All`) has a held state. This stands for store behaviour that is not modelled, and it is what makes that case of the lookup unreachable, as the source's `unreachable!()` claims (packages/perseus/src/reactor/widget_state.rs:305-306).
- `Reactor.get_page_state` is not part of this model. `StateSetters.RunView` takes its outcome as a parameter.
- `PathMaybeWithLocale::new` (`path.rs`) is not part of this model. `Paths.Localize` is the inverse of the stripping rule in widget_state.rs:75-82.
- `TemplateState` (`template_state.rs`) is not part of this model. A state is empty when it holds JSON `null`.
- The template getters are not part of this model. `uses_request_state` is taken as having a request-state function, and `revalidates` as having a should-revalidate function or an interval.
- serde and JSON are abstract. `StateType.decode` stands for `into_concrete`. `Libraries.parseJson` stands for `serde_json::from_str` and `Libraries.urlEncode` for `urlencoding::encode`. JSON numbers are integers.
- `WidgetState.DecodeWithServerError` accepts only serde's object encoding of `Result` and `ServerErrorData`. The sequence form serde would also accept is not modelled.
- Views are opaque tokens: markup, styles and rendering to strings are left out. `ErrorViews.Handle` returns the head as a view rather than a rendered string. `ErrorViews.RenderToString` does not render either view.
- The blame detail that `into_server_result` adds to a failure is left out. Only the function name, template name and cause are kept.
- `compute_suspense` (packages/perseus/src/state/rx_state.rs:161-162 and packages/perseus/src/state/rx_collections/rx_hash_map.rs:58-59) has no member. For the two types modelled here it is empty.
- StateSetters.RunView: does not model the browser-only `compute_suspense` call on the reactive state (packages/perseus/src/template/core/state_setters.rs:43-45). For a user's derived state type that call spawns the asynchronous suspense handlers, which belong to the runtime left out above.
- RxState.Freeze: `serialise` is total. The source unwraps `serde_json::to_string` (packages/perseus/src/state/rx_state.rs:170) and panics if serialisation fails; that panic is not modelled.
- RxHashMap.Freeze: `serialise` is total. The source unwraps `serde_json::to_string` (packages/perseus/src/state/rx_collections/rx_hash_map.rs:107) and panics if serialisation fails; that panic is not modelled.
- `RxHashMapRx`'s `Deref` (packages/perseus/src/state/rx_collections/rx_hash_map.rs:82-84) is the field `outer` itself.
- `Any`/`TypeId` downcasting, `cfg` gating beyond the engine/browser split (`ReactorState.Side`), and the hot-state-reloading mechanics beyond the `HSR_IGNORE` constants are left out.
- `ReactorState.Reactor` holds reactive states of one type `R`. The source's store holds states of any type.
- A widget tree (`WidgetComponent.WidgetCall`) uses one capsule type for all its widgets, nested ones included.
- WidgetComponent.BuildStep: a capsule whose view places itself, or capsules that place each other, are outside the model, because a `WidgetCall` tree is finite. The source has no cycle guard: `render_widget_for_template_server` (packages/perseus/src/template/widget_component.rs:276) re-enters `engine_widget` and would recurse without end.
- WidgetComponent.RequestStep: the same holds in request mode (packages/perseus/src/template/widget_component.rs:318).
- Which widgets a capsule's view places is given with the call (`WidgetCall.nested`) rather than found by running the view, and `renderServer` receives their views. Delayed widgets are left out of `nested`: they touch no render cell and only show their fallback.
- The panic handler is modelled on both sides although the source keeps it only in the browser. After `take_panic_handler` it is `None`, where the source leaves a closure that must never be called.
- ErrorHandling.DevelopmentHandler: the generic error body depends only on the position. The `fmt_err` text of the error that the source shows in it (packages/perseus/src/error_views.rs:122) is not modelled, because `fmt_err` is not part of this model.
- `create_child_scope` around a delayed widget's fallback is left out.
- ReactorState.Reactor.GetHeldState: the boolean flag `get_held_state` receives (`true` at packages/perseus/src/reactor/widget_state.rs:262) is not a parameter, because how the store uses it is not part of this model.
