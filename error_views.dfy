/**
 * The app's error handling system (`ErrorViews`): which context and position
 * the user's handler is called with, and whether a subsequent-load error
 * takes the whole page or a popup. Markup is opaque.
 */
module ErrorHandling {
  import opened Wrappers
  import opened Values
  import opened Errors

  /** How much of the app is available to the error view. */
  datatype ErrorContext = Static | WithReactor | FullNoGlobal | Full

  /** Where the error view is placed. */
  datatype ErrorPosition = Page | Widget | Popup

  /** The error data a server sends in place of a state. */
  datatype ServerErrorData = ServerErrorData(status: u16, msg: string)

  /** The user's handler: an error, a context and a position give a head view and a body view. */
  type Handler = (ClientError, ErrorContext, ErrorPosition) -> (View, View)

  /** The default subsequent-load determinant: only server errors take the whole page. */
  function DefaultDeterminant(err: ClientError): (wholePage: bool)
    ensures wholePage <==> err.ServerError?
  {
    match err
    case ServerError(_, _) => true
    case _ => false
  }

  /** `handle_widget`: the body the handler gives for a widget-positioned error with full context. */
  function WidgetErrorView(handler: Handler, err: ClientError): View
  {
    var (_, body) := handler(err, Full, Widget);
    body
  }

  /** The context `handle` passes: it depends on whether a reactor and a translator exist. */
  function HandleContext(hasReactor: bool, hasTranslator: bool): (ctx: ErrorContext)
    ensures ctx == Full <==> hasReactor && hasTranslator
    ensures ctx == WithReactor <==> hasReactor && !hasTranslator
    ensures ctx == Static <==> !hasReactor
    ensures ctx != FullNoGlobal
  {
    if hasReactor then (if hasTranslator then Full else WithReactor) else Static
  }

  /** The arguments `render_to_string` gives the handler for an error the server reports. */
  function RenderToStringCall(err: ServerErrorData, hasTranslator: bool): (call: (ClientError, ErrorContext, ErrorPosition))
    ensures call.0 == ServerError(err.status, err.msg)
    ensures call.1 == FullNoGlobal <==> hasTranslator
    ensures call.1 == WithReactor <==> !hasTranslator
    ensures call.2 == Page
  {
    var ctx := if hasTranslator then FullNoGlobal else WithReactor;
    (ServerError(err.status, err.msg), ctx, Page)
  }

  class ErrorViews {
    var handler: Handler
    var subsequentLoadDeterminant: ClientError -> bool
    /** A copy of the handler for panics; `None` once taken. */
    var panicHandler: Option<Handler>

    /** `ErrorViews::new`: the given handler, the default determinant, and the handler kept for panics. */
    constructor (handler: Handler)
      ensures this.handler == handler
      ensures subsequentLoadDeterminant == DefaultDeterminant
      ensures panicHandler == Some(handler)
    {
      this.handler := handler;
      subsequentLoadDeterminant := DefaultDeterminant;
      panicHandler := Some(handler);
    }

    /** Replace the determinant, and nothing else. */
    method SubsequentLoadDeterminantFn(val: ClientError -> bool)
      modifies this`subsequentLoadDeterminant
      ensures subsequentLoadDeterminant == val
      ensures handler == old(handler) && panicHandler == old(panicHandler)
    {
      subsequentLoadDeterminant := val;
    }

    /** A subsequent-load error is shown as a popup exactly when the determinant says it should not take the page. */
    predicate SubsequentErrShouldBePopup(err: ClientError)
      reads this
    {
      !subsequentLoadDeterminant(err)
    }

    /** `take_panic_handler`: hand over the panic handler, leaving one that must never be called. */
    method TakePanicHandler() returns (taken: Option<Handler>)
      modifies this`panicHandler
      ensures taken == old(panicHandler)
      ensures panicHandler == None
      ensures handler == old(handler) && subsequentLoadDeterminant == old(subsequentLoadDeterminant)
    {
      taken := panicHandler;
      panicHandler := None;
    }

    /**
     * `handle`: the head and body the handler gives for the chosen context and
     * the given position (rendering the head to a string is left to the view
     * layer).
     */
    function Handle(err: ClientError, pos: ErrorPosition, hasReactor: bool, hasTranslator: bool): (View, View)
      reads this
    {
      handler(err, HandleContext(hasReactor, hasTranslator), pos)
    }

    /** `render_to_string`: the handler's views for a server-reported error, as a page. */
    function RenderToString(err: ServerErrorData, hasTranslator: bool): (View, View)
      reads this
    {
      var (e, ctx, pos) := RenderToStringCall(err, hasTranslator);
      handler(e, ctx, pos)
    }
  }

  /** A widget's error view is the body `handle` gives at the widget position with a reactor and a translator. */
  lemma WidgetErrorViewIsFullHandle(ev: ErrorViews, err: ClientError)
    ensures WidgetErrorView(ev.handler, err) == ev.Handle(err, Widget, true, true).1
  {
  }

  /** Without a translator, rendering a server error to a string is `handle` at the page position with a reactor. */
  lemma RenderToStringWithoutTranslator(ev: ErrorViews, err: ServerErrorData)
    ensures ev.RenderToString(err, false) == ev.Handle(ServerError(err.status, err.msg), Page, true, false)
  {
  }

  /**
   * With a translator, rendering to a string uses a context (`FullNoGlobal`)
   * that `handle` never passes: a handler that tells that context apart gives
   * a result no call of `handle` can give.
   */
  lemma RenderToStringWithTranslatorIsNotHandle(ev: ErrorViews, err: ServerErrorData)
    requires forall ctx :: ctx != FullNoGlobal ==>
      ev.handler(ServerError(err.status, err.msg), ctx, Page) != ev.handler(ServerError(err.status, err.msg), FullNoGlobal, Page)
    ensures forall hasReactor, hasTranslator ::
      ev.RenderToString(err, true) != ev.Handle(ServerError(err.status, err.msg), Page, hasReactor, hasTranslator)
  {
    forall hasReactor, hasTranslator
      ensures ev.RenderToString(err, true) != ev.Handle(ServerError(err.status, err.msg), Page, hasReactor, hasTranslator)
    {
      var ctx := HandleContext(hasReactor, hasTranslator);
      assert ctx != FullNoGlobal;
    }
  }

  /** With the default determinant, exactly the errors that are not server errors become popups. */
  lemma DefaultPopup(ev: ErrorViews, err: ClientError)
    requires ev.subsequentLoadDeterminant == DefaultDeterminant
    ensures ev.SubsequentErrShouldBePopup(err) <==> !err.ServerError?
  {
  }

  const NotFoundTitle: View := Markup("title: Page not found")
  const ErrorTitle: View := Markup("title: Error")

  /** The body the generic branch of the development handler gives, per position. */
  function GenericErrorBody(pos: ErrorPosition): View {
    match pos
    case Page => Markup("error: page")
    case Popup => Markup("error: popup")
    case Widget => Markup("error: widget")
  }

  /**
   * The handler of `unlocalized_development_default`: a not-found page for a
   * 404 server error, a panic overlay with no head for a panic, and a generic
   * error view placed by position otherwise.
   */
  function DevelopmentHandler(err: ClientError, ctx: ErrorContext, pos: ErrorPosition): (views: (View, View))
    ensures views.0 == NotFoundTitle <==> err.ServerError? && err.status == 404
    ensures err.Panic? ==> views.0 == EmptyView && views.1 == Markup("critical error: " + err.panicMessage)
    ensures !(err.ServerError? && err.status == 404) && !err.Panic? ==> views == (ErrorTitle, GenericErrorBody(pos))
  {
    match err
    case ServerError(status, _) =>
      if status == 404 then (NotFoundTitle, Markup("page not found"))
      else (ErrorTitle, GenericErrorBody(pos))
    case Panic(msg) => (EmptyView, Markup("critical error: " + msg))
    case _ => (ErrorTitle, GenericErrorBody(pos))
  }

  /** `unlocalized_development_default` (also `Default` in development builds). */
  method UnlocalizedDevelopmentDefault() returns (ev: ErrorViews)
    ensures fresh(ev)
    ensures ev.handler == DevelopmentHandler && ev.panicHandler == Some(DevelopmentHandler)
    ensures ev.subsequentLoadDeterminant == DefaultDeterminant
  {
    ev := new ErrorViews(DevelopmentHandler);
  }
}
