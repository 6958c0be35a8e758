/**
 * The values that cross the engine/browser boundary: JSON values, the untyped
 * template state that carries them, and views, which the model treats as
 * opaque tokens.
 */
module Values {
  import opened Wrappers

  /** An HTTP status code (`u16`). */
  type u16 = x: int | 0 <= x < 0x1_0000

  /** A JSON value, as `serde_json::Value` (numbers are kept integral). */
  datatype Value =
    | Null
    | Bool(b: bool)
    | Number(n: int)
    | String(s: string)
    | Array(items: seq<Value>)
    | Object(fields: map<string, Value>)

  /**
   * A state whose concrete type is attached only when it is used
   * (`TemplateState`). Declaring a type never fails; decoding to that type
   * may (see `RxState.StateType.decode`).
   */
  datatype TemplateState = TemplateState(state: Value) {
    /** A state is empty when it holds JSON `null`. */
    predicate IsEmpty() {
      state.Null?
    }
  }

  function EmptyTemplateState(): (t: TemplateState)
    ensures t.IsEmpty()
  {
    TemplateState(Null)
  }

  /** A rendered view. Markup is out of scope, so a view is an opaque token. */
  datatype View = EmptyView | Markup(token: string)

  /**
   * The library functions the core calls but does not define:
   * `urlencoding::encode` and `serde_json::from_str`.
   */
  datatype Libraries = Libraries(
    urlEncode: string -> string,
    parseJson: string -> Result<Value, string>)

  /** `TemplateState::from_str`: parse JSON text into an untyped state. */
  function TemplateStateFromStr(lib: Libraries, text: string): (r: Result<TemplateState, string>)
    ensures r.Ok? <==> lib.parseJson(text).Ok?
    ensures r.Ok? ==> r.value.state == lib.parseJson(text).value
  {
    match lib.parseJson(text)
    case Ok(v) => Ok(TemplateState(v))
    case Err(e) => Err(e)
  }
}
