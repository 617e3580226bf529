/** The function cache the runtime consults: deployed cloud functions by name, and the
    reserved names the handlers look up. */
module Engine {
  /** A deployed cloud function as the cache holds it (name, enabled HTTP methods, code). */
  datatype CloudFunction = CloudFunction(name: string, methods: seq<string>, source: string)

  /** `FunctionCache`: each name maps to the function deployed under it. */
  type FunctionCache = map<string, CloudFunction>

  /** The function used when the requested name is not deployed. */
  const DEFAULT_FUNCTION_NAME: string := "__default__"

  /** The function run before every invocation when it is deployed. */
  const INTERCEPTOR_FUNCTION_NAME: string := "__interceptor__"

  /** The function that receives every websocket event. */
  const WEBSOCKET_FUNCTION_NAME: string := "__websocket__"
}
