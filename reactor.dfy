/**
 * The parts of the reactor and its page state store that the widget logic
 * uses. The store's own implementation is not part of this model: it is an
 * interface whose calls are recorded in order, with just enough state
 * (entries, preloaded data, held states) for lookups to answer consistently.
 */
module ReactorState {
  import opened Wrappers
  import opened Values
  import opened Errors
  import opened Paths
  import opened ErrorHandling

  /** Which side the code is compiled for (`cfg(engine)` or `cfg(client)`). */
  datatype Side = Client | Engine

  /** How the page state store classifies a path (`PssContains`). */
  datatype PssContains = None | Head | HeadNoState | State | All | Preloaded

  /** An observable effect, in the order the session performs them. */
  datatype Event<R> =
    | AddHead(url: string, head: string, isWidget: bool)
    | AddState(url: string, state: R, isHead: bool)
    | DeclareDependency(path: string, callerPath: string)
    | Preload(path: string, locale: string, capsuleName: string, wasIncrementalMatch: bool,
              useRoutePreload: bool, isWidget: bool)
    | RegisterNoState(path: string, isWidget: bool)
    /** A widget's view signal was set to this view. */
    | ViewSet(view: View)

  class Reactor<R> {
    const side: Side
    const errorViews: ErrorViews
    /** The store's classification of each path it knows; any other path is `None`. */
    var entries: map<string, PssContains>
    /** The data of each preloaded path. */
    var preloaded: map<string, Value>
    /** Active or frozen states (`get_held_state`); a stored error is one that lookup reports. */
    var held: map<string, Result<R, ClientError>>
    /** The paths for which `add_state` fails, with the error it returns. */
    const addStateFailures: map<string, ClientError>
    var trace: seq<Event<R>>

    /** A path the store classifies as having a state has a held state; a preloaded path has its data. */
    ghost predicate Valid()
      reads this
    {
      (forall url :: url in entries && (entries[url] == State || entries[url] == All) ==> url in held) &&
      (forall url :: url in entries && entries[url] == Preloaded ==> url in preloaded)
    }

    /**
     * A reactor whose store holds the given initial preloads (the widget
     * states sent with the first page) and nothing else.
     */
    constructor (side: Side, errorViews: ErrorViews, initialPreloads: map<string, Value>,
                 addStateFailures: map<string, ClientError>)
      ensures Valid()
      ensures this.side == side && this.errorViews == errorViews
      ensures this.addStateFailures == addStateFailures
      ensures entries.Keys == initialPreloads.Keys && preloaded == initialPreloads
      ensures forall url :: url in entries ==> entries[url] == Preloaded
      ensures held == map[] && trace == []
    {
      this.side := side;
      this.errorViews := errorViews;
      this.addStateFailures := addStateFailures;
      entries := map url | url in initialPreloads :: Preloaded;
      preloaded := initialPreloads;
      held := map[];
      trace := [];
    }

    /** `contains`. */
    function Contains(url: string): PssContains
      reads this
    {
      if url in entries then entries[url] else PssContains.None
    }

    /** `get_held_state`: a held state, no state (`Ok(None)`), or the error the lookup reports. */
    function GetHeldState(url: string): (r: Result<Option<R>, ClientError>)
      reads this
      ensures r == Ok(Option.None) <==> url !in held
      ensures r.Ok? && r.value.Some? ==> held[url] == Ok(r.value.value)
      ensures r.Err? ==> held[url] == Err(r.error)
    {
      if url !in held then Ok(Option.None)
      else match held[url]
        case Ok(rx) => Ok(Some(rx))
        case Err(e) => Err(e)
    }

    /** `add_head`. */
    method AddHead(url: string, head: string, isWidget: bool)
      modifies this`trace
      ensures trace == old(trace) + [Event.AddHead(url, head, isWidget)]
    {
      trace := trace + [Event.AddHead(url, head, isWidget)];
    }

    /** `add_state`: make the state active for the path, unless the store refuses it. */
    method AddState(url: string, rx: R, isHead: bool) returns (r: Result<(), ClientError>)
      requires Valid()
      modifies this`trace, this`held
      ensures Valid()
      ensures trace == old(trace) + [Event.AddState(url, rx, isHead)]
      ensures url in addStateFailures ==> r == Err(addStateFailures[url]) && held == old(held)
      ensures url !in addStateFailures ==> r == Ok(()) && held == old(held)[url := Ok(rx)]
    {
      trace := trace + [Event.AddState(url, rx, isHead)];
      if url in addStateFailures {
        r := Err(addStateFailures[url]);
      } else {
        held := held[url := Ok(rx)];
        r := Ok(());
      }
    }

    /** `declare_dependency`: the widget at `path` is used by the page at `callerPath`. */
    method DeclareDependency(path: string, callerPath: string)
      modifies this`trace
      ensures trace == old(trace) + [Event.DeclareDependency(path, callerPath)]
    {
      trace := trace + [Event.DeclareDependency(path, callerPath)];
    }

    /** `register_no_state`. */
    method RegisterNoState(path: string, isWidget: bool)
      modifies this`trace
      ensures trace == old(trace) + [Event.RegisterNoState(path, isWidget)]
    {
      trace := trace + [Event.RegisterNoState(path, isWidget)];
    }

    /**
     * `preload`: fetch the state of a path without a locale. The network's
     * answer is the parameter `fetched`; on success the data is stored as a
     * preload under the localised path.
     */
    method Preload(path: string, locale: string, capsuleName: string, wasIncrementalMatch: bool,
                       useRoutePreload: bool, isWidget: bool, fetched: Result<Value, ClientError>)
      returns (r: Result<(), ClientError>)
      requires Valid()
      modifies this`trace, this`entries, this`preloaded
      ensures Valid()
      ensures trace == old(trace) + [Event.Preload(path, locale, capsuleName, wasIncrementalMatch, useRoutePreload, isWidget)]
      ensures fetched.Err? ==> r == Err(fetched.error) && entries == old(entries) && preloaded == old(preloaded)
      ensures fetched.Ok? ==>
        r == Ok(()) &&
        entries == old(entries)[Localize(path, locale) := Preloaded] &&
        preloaded == old(preloaded)[Localize(path, locale) := fetched.value]
    {
      trace := trace + [Event.Preload(path, locale, capsuleName, wasIncrementalMatch, useRoutePreload, isWidget)];
      match fetched
      case Err(e) =>
        r := Err(e);
      case Ok(v) =>
        var url := Localize(path, locale);
        entries := entries[url := Preloaded];
        preloaded := preloaded[url := v];
        r := Ok(());
    }

    /** Set a widget's view signal. */
    method SetView(view: View)
      modifies this`trace
      ensures trace == old(trace) + [Event.ViewSet(view)]
    {
      trace := trace + [Event.ViewSet(view)];
    }
  }
}
