/**
 * The builder methods that install a template's view, head and header
 * functions, the checks the state-taking head and header functions run
 * before the user's function, and what running each kind of view does.
 */
module StateSetters {
  import opened Wrappers
  import opened Values
  import opened Errors
  import opened RxState
  import opened TemplateCore
  import opened ReactorState

  /**
   * The closure `head_with_state` and `set_headers_with_state` install:
   * an empty state is refused, then a state that does not decode to the
   * user's type is refused, and only then is the user function called, its
   * failure tagged with the function's and the template's names.
   */
  function StateGuarded<S, T>(decode: Value -> Result<S, string>, val: S -> GeneratorResult<T>,
                              ts: TemplateState, fnName: string, templateName: string): (r: Result<T, ServerError>)
    ensures ts.IsEmpty() ==> r == Err(ClientError(InvariantError(NoState)))
    ensures !ts.IsEmpty() && decode(ts.state).Err? ==>
      r == Err(ClientError(InvariantError(InvalidState(decode(ts.state).error))))
    ensures !ts.IsEmpty() && decode(ts.state).Ok? ==>
      r.Ok? == val(decode(ts.state).value).Generated? &&
      (r.Ok? ==> r.value == val(decode(ts.state).value).value) &&
      (r.Err? ==> r.error == RenderFnFailed(fnName, templateName, val(decode(ts.state).value).cause))
  {
    if ts.IsEmpty() then
      Err(ClientError(InvariantError(NoState)))
    else
      match decode(ts.state)
      case Err(e) => Err(ClientError(InvariantError(InvalidState(e))))
      case Ok(s) => IntoServerResult(val(s), fnName, templateName)
  }

  /**
   * The guards decide without the user function: on an empty or
   * undecodable state, any two user functions give the same result.
   */
  lemma GuardsIgnoreUserFn<S, T>(decode: Value -> Result<S, string>, val1: S -> GeneratorResult<T>,
                                 val2: S -> GeneratorResult<T>, ts: TemplateState, fnName: string, templateName: string)
    requires ts.IsEmpty() || decode(ts.state).Err?
    ensures StateGuarded(decode, val1, ts, fnName, templateName) == StateGuarded(decode, val2, ts, fnName, templateName)
    ensures StateGuarded(decode, val1, ts, fnName, templateName).Err?
  {
  }

  /**
   * A decodable state reaches the user function, whatever its value; the
   * guard passes exactly what the user function returns.
   */
  lemma GuardPassesDecodedState<S, T>(decode: Value -> Result<S, string>, val: S -> GeneratorResult<T>,
                                      ts: TemplateState, s: S, fnName: string, templateName: string)
    requires !ts.IsEmpty() && decode(ts.state) == Ok(s)
    ensures StateGuarded(decode, val, ts, fnName, templateName) == IntoServerResult(val(s), fnName, templateName)
  {
  }

  /**
   * `head_with_state`: on the engine the head function becomes the guarded
   * user function, tagged `"head"` and the template's path, and nothing
   * else changes; in the browser the template is returned unchanged.
   */
  function HeadWithState<S, R, H>(side: Side, t: TemplateInner<S, R>, decode: Value -> Result<H, string>,
                                  val: H -> GeneratorResult<View>): (u: TemplateInner<S, R>)
    ensures side == Client ==> u == t
    ensures side == Engine ==> u.head.Some? && u == t.(head := u.head)
    ensures side == Engine ==> forall ts :: u.head.value(ts) == StateGuarded(decode, val, ts, "head", t.path)
  {
    match side
    case Client => t
    case Engine => t.(head := Some((ts: TemplateState) => StateGuarded(decode, val, ts, "head", t.path)))
  }

  /**
   * `set_headers_with_state`: the same guards in the same order, tagged
   * `"set_headers"`; in the browser the template is returned unchanged.
   */
  function SetHeadersWithState<S, R, H>(side: Side, t: TemplateInner<S, R>, decode: Value -> Result<H, string>,
                                        val: H -> GeneratorResult<Headers>): (u: TemplateInner<S, R>)
    ensures side == Client ==> u == t
    ensures side == Engine ==> u.setHeaders.Some? && u == t.(setHeaders := u.setHeaders)
    ensures side == Engine ==> forall ts :: u.setHeaders.value(ts) == StateGuarded(decode, val, ts, "set_headers", t.path)
  {
    match side
    case Client => t
    case Engine => t.(setHeaders := Some((ts: TemplateState) => StateGuarded(decode, val, ts, "set_headers", t.path)))
  }

  /** `view`: install a view that takes no state; nothing else changes. */
  function ViewNoState<S, R>(t: TemplateInner<S, R>, val: () -> View): (u: TemplateInner<S, R>)
    ensures u.view == Stateless(val) && u == t.(view := u.view)
  {
    t.(view := Stateless(val))
  }

  /** `view_with_state`: install a view of the reactive state; nothing else changes. */
  function ViewWithState<S, R>(t: TemplateInner<S, R>, val: R -> View): (u: TemplateInner<S, R>)
    ensures u.view == WithState(val) && u == t.(view := u.view)
  {
    t.(view := WithState(val))
  }

  /** `view_with_unreactive_state`: install a view of the plain state; nothing else changes. */
  function ViewWithUnreactiveState<S, R>(t: TemplateInner<S, R>, val: S -> View): (u: TemplateInner<S, R>)
    ensures u.view == WithUnreactiveState(val) && u == t.(view := u.view)
  {
    t.(view := WithUnreactiveState(val))
  }

  /**
   * Run a template's view function for `path`. `pageState` is what the
   * reactor's page-state lookup (`get_page_state`, not part of this model)
   * answers; only the state-taking views ask for it.
   */
  method RunView<S, R>(reactor: Reactor<R>, t: TemplateInner<S, R>, ty: StateType<S, R>, path: string,
                       pageState: Result<R, ClientError>) returns (r: Result<View, ClientError>)
    modifies reactor`trace
    ensures t.view.DefaultView? ==> r == Ok(EmptyView) && reactor.trace == old(reactor.trace)
    ensures t.view.Stateless? ==>
      r == Ok(t.view.render()) && reactor.trace == old(reactor.trace) + [Event.RegisterNoState(path, false)]
    ensures t.view.WithState? || t.view.WithUnreactiveState? ==>
      reactor.trace == old(reactor.trace) && (pageState.Err? ==> r == Err(pageState.error))
    ensures t.view.WithState? && pageState.Ok? ==> r == Ok(t.view.renderRx(pageState.value))
    ensures t.view.WithUnreactiveState? && pageState.Ok? ==> r == Ok(t.view.renderUnrx(ty.makeUnrx(pageState.value)))
  {
    match t.view
    case DefaultView =>
      r := Ok(EmptyView);
    case Stateless(render) =>
      reactor.RegisterNoState(path, false);
      r := Ok(render());
    case WithState(render) =>
      if pageState.Err? {
        r := Err(pageState.error);
      } else {
        r := Ok(render(pageState.value));
      }
    case WithUnreactiveState(render) =>
      if pageState.Err? {
        r := Err(pageState.error);
      } else {
        r := Ok(render(ty.makeUnrx(pageState.value)));
      }
  }

  /**
   * For an unreactive state type, a view installed by
   * `view_with_unreactive_state` sees exactly the state that was made
   * reactive.
   */
  lemma UnreactiveViewSeesState<S(!new)>(t: TemplateInner<S, UnreactiveStateWrapper<S>>,
                                            decode: Value -> Result<S, string>, val: S -> View, s: S)
    ensures var u := ViewWithUnreactiveState(t, val);
      var ty := UnreactiveStateType(decode);
      u.view.renderUnrx(ty.makeUnrx(ty.makeRx(s))) == val(s)
  {
    var ty := UnreactiveStateType(decode);
    assert RoundTrips(ty);
    assert ty.makeUnrx(ty.makeRx(s)) == s;
  }
}
