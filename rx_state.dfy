/**
 * Reactive/unreactive state pairs (`MakeRx`, `MakeUnrx`, `Freeze`) and the
 * wrapper that lets a plain, unreactive type take part in the state platform.
 */
module RxState {
  import opened Wrappers
  import opened Values

  /**
   * One state type `S` with its reactive counterpart `R`: the decoder that
   * gives an untyped state the type `S` (`into_concrete`), and the two halves
   * of the pairing (`make_rx`, `make_unrx`).
   */
  datatype StateType<!S, !R> = StateType(
    decode: Value -> Result<S, string>,
    makeRx: S -> R,
    makeUnrx: R -> S)

  /** Collapsing a reactive projection gives back the value it was made from. */
  ghost predicate RoundTrips<S(!new), R>(ty: StateType<S, R>) {
    forall s: S {:trigger ty.makeRx(s)} :: ty.makeUnrx(ty.makeRx(s)) == s
  }

  /** `UnreactiveStateWrapper`: the reactive form of an unreactive type is the value itself, wrapped. */
  datatype UnreactiveStateWrapper<T> = UnreactiveStateWrapper(inner: T)

  function MakeRx<T>(v: T): UnreactiveStateWrapper<T> {
    UnreactiveStateWrapper(v)
  }

  function MakeUnrx<T>(w: UnreactiveStateWrapper<T>): T {
    w.inner
  }

  /** `freeze`: serialise the wrapped value (`serialise` stands for `serde_json::to_string`). */
  function Freeze<T>(w: UnreactiveStateWrapper<T>, serialise: T -> string): string {
    serialise(MakeUnrx(w))
  }

  /** `make_rx` wraps the value unchanged: unwrapping gives it back. */
  lemma MakeUnrxOfMakeRx<T>(v: T)
    ensures MakeRx(v).inner == v
    ensures MakeUnrx(MakeRx(v)) == v
  {
  }

  /** The pairing is a bijection: wrapping an unwrapped state gives the same wrapper. */
  lemma MakeRxOfMakeUnrx<T>(w: UnreactiveStateWrapper<T>)
    ensures MakeRx(MakeUnrx(w)) == w
  {
  }

  /** Freezing a freshly wrapped value is serialising that value. */
  lemma FreezeOfMakeRx<T>(v: T, serialise: T -> string)
    ensures Freeze(MakeRx(v), serialise) == serialise(v)
  {
  }

  /** Freeze then thaw: a deserialiser that inverts the serialiser recovers the value. */
  lemma FreezeThaw<T>(v: T, serialise: T -> string, deserialise: string -> Result<T, string>)
    requires forall x: T {:trigger serialise(x)} :: deserialise(serialise(x)) == Ok(x)
    ensures deserialise(Freeze(MakeRx(v), serialise)) == Ok(v)
  {
  }

  /** With an injective serialiser, two wrappers freeze alike only if they hold the same value. */
  lemma FreezeInjective<T>(a: UnreactiveStateWrapper<T>, b: UnreactiveStateWrapper<T>, serialise: T -> string)
    requires forall x: T, y: T {:trigger serialise(x), serialise(y)} :: serialise(x) == serialise(y) ==> x == y
    requires Freeze(a, serialise) == Freeze(b, serialise)
    ensures a == b
  {
    assert serialise(a.inner) == serialise(b.inner);
  }

  /** The `MakeRx`/`MakeUnrx` implementation every unreactive type receives. */
  function UnreactiveStateType<S(!new)>(decode: Value -> Result<S, string>): (ty: StateType<S, UnreactiveStateWrapper<S>>)
    ensures ty.decode == decode
    ensures RoundTrips(ty)
    ensures forall s: S {:trigger ty.makeRx(s)} :: ty.makeRx(s).inner == s
  {
    StateType(decode, MakeRx, MakeUnrx)
  }

  /** Which implementation of `MakeRx` a state type has, for its `HSR_IGNORE` constant. */
  datatype MakeRxImpl =
    | ReactiveImpl(hsrIgnoreOverride: Option<bool>)  // derived or hand-written; may override the default
    | UnreactiveImpl                                 // the blanket implementation for unreactive types

  /** `HSR_IGNORE`: whether hot state reloading skips thawing this type. */
  function HsrIgnore(impl: MakeRxImpl): (ignored: bool)
    ensures impl == ReactiveImpl(None) ==> !ignored
    ensures impl.UnreactiveImpl? ==> ignored
    ensures impl.ReactiveImpl? && impl.hsrIgnoreOverride.Some? ==> ignored == impl.hsrIgnoreOverride.value
  {
    match impl
    case ReactiveImpl(None) => false
    case ReactiveImpl(Some(b)) => b
    case UnreactiveImpl => true
  }
}
