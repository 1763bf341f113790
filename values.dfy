/** Values shared by the router model: optional and fallible results, the
    parameter values a route can carry, and the router's name constants. */
module Values {

  datatype Option<T> = None | Some(value: T)

  /** A computation that returns a value or throws `error`. */
  datatype Result<T, E> = Ok(value: T) | Err(error: E)

  /** A route parameter value: a string, an array of strings (catch-all
      routes), or any other object, which JavaScript stringifies as
      `[object Object]`. */
  datatype Value = Str(s: string) | List(items: seq<string>) | Obj

  type ParamMap = map<string, Value>

  const ObjectText: string := "[object Object]"

  /** The names exported by the router's constants module. */
  const INTERNAL_SLOT_NAME: string := "__root"
  const NOT_FOUND_NAME: string := "+not-found"
  const DEFAULT_ROOT_LAYOUT_CONTEXT_KEY: string := "expo-router/build/views/Navigator"
}
