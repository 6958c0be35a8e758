/**
 * A template (or capsule) and its builder: the path it lives under, the view
 * function, and the optional functions that generate and use its state.
 */
module TemplateCore {
  import opened Wrappers
  import opened Values
  import opened Errors

  /** Response headers, by name. */
  type Headers = map<string, string>

  /** A function that generates a state for a path. */
  type StateGen = string -> GeneratorResult<TemplateState>

  /**
   * The view function of a template. The source keeps a closure; the model
   * keeps which builder made it and the user function it wraps, and
   * `StateSetters.RunView` runs it. `S` is the unreactive state type and `R`
   * its reactive counterpart.
   */
  datatype ViewFn<!S, !R> =
    | DefaultView
    | Stateless(render: () -> View)
    | WithState(renderRx: R -> View)
    | WithUnreactiveState(renderUnrx: S -> View)

  /** `TemplateInner`: the builder form of a template. */
  datatype TemplateInner<!S, !R> = TemplateInner(
    path: string,
    view: ViewFn<S, R>,
    head: Option<TemplateState -> Result<View, ServerError>>,
    setHeaders: Option<TemplateState -> Result<Headers, ServerError>>,
    getBuildPaths: Option<() -> GeneratorResult<seq<string>>>,
    incrementalGeneration: bool,
    getBuildState: Option<StateGen>,
    getRequestState: Option<StateGen>,
    shouldRevalidate: Option<string -> GeneratorResult<bool>>,
    /** A revalidation interval, in seconds (`ComputedDuration`). */
    revalidateAfter: Option<nat>,
    amalgamateStates: Option<(TemplateState, TemplateState) -> GeneratorResult<TemplateState>>,
    isCapsule: bool,
    canBeRescheduled: bool)
  {
    /** The template generates state on every request. */
    predicate UsesRequestState() {
      getRequestState.Some?
    }

    /** The template generates state at build time. */
    predicate UsesBuildState() {
      getBuildState.Some?
    }

    /** The template's built state can be regenerated later. */
    predicate Revalidates() {
      shouldRevalidate.Some? || revalidateAfter.Some?
    }

    /**
     * `TemplateInner::build`: freeze the builder into a shareable template,
     * whose dereference is this same builder.
     */
    function Build(): (t: Template<S, R>)
      ensures t.Deref() == this
    {
      Template(this)
    }
  }

  /** `Template`: a built template, shared by reference; it dereferences to its builder. */
  datatype Template<!S, !R> = Template(inner: TemplateInner<S, R>) {
    function Deref(): TemplateInner<S, R> {
      inner
    }
  }

  /**
   * `TemplateInner::new`: a template at the given path with no state
   * functions, no head and no headers, a view that renders nothing, and
   * the two flags off.
   */
  function New<S, R>(path: string): (t: TemplateInner<S, R>)
    ensures t.path == path
    ensures t.view == DefaultView
    ensures t.head == None && t.setHeaders == None
    ensures t.getBuildPaths == None && !t.incrementalGeneration
    ensures t.getBuildState == None && t.getRequestState == None
    ensures t.shouldRevalidate == None && t.revalidateAfter == None
    ensures t.amalgamateStates == None
    ensures !t.isCapsule && !t.canBeRescheduled
  {
    TemplateInner(path, DefaultView, None, None, None, false, None, None, None, None, None, false, false)
  }

  /** `Template::build`: start a builder. */
  function BuildTemplate<S, R>(path: string): TemplateInner<S, R> {
    New(path)
  }

  /**
   * A new template generates no state of any kind, so it is safe to build
   * at build time and never needs rescheduling.
   */
  lemma NewGeneratesNoState<S, R>(path: string)
    ensures var t := New<S, R>(path);
      !t.UsesBuildState() && !t.UsesRequestState() && !t.Revalidates()
  {
  }

  /**
   * Starting a builder, building it and dereferencing the result gives back
   * exactly the defaults of `TemplateInner::new`.
   */
  lemma BuildThenDeref<S, R>(path: string)
    ensures BuildTemplate<S, R>(path).Build().Deref() == New<S, R>(path)
    ensures BuildTemplate<S, R>(path).Build().Deref().path == path
  {
  }
}
