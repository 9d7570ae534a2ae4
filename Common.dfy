/** Small value types shared by every module of the model. */
module Common {

  datatype Option<+T> = None | Some(value: T) {
    function GetOr(default: T): T {
      match this
      case Some(v) => v
      case None => default
    }
  }

  /** The result of a call that may raise: Ok with a value, or the exception's name. */
  datatype Result<+T> = Ok(value: T) | Raised(error: string)

  /**
   * What an asynchronous stream delivers: the items it produced, in order,
   * and whether it raised after the last of them. An LLM token stream, a
   * websocket reply and a chat-completion stream are all modelled this way.
   */
  datatype Stream<+T> = Stream(items: seq<T>, raises: bool)

  /** A key/value payload of strings (a Python `dict[str, str]`). */
  type Payload = map<string, string>

  /** `d.get(key, default)`. */
  function Get(d: Payload, key: string, default: string): string {
    if key in d then d[key] else default
  }

  /** `d.get(key)`, which is `None` for a missing key. */
  function Lookup(d: Payload, key: string): Option<string> {
    if key in d then Some(d[key]) else None
  }

  /** One entry of a stored chat history, as both memory agents read it. */
  datatype HistoryEntry = HistoryEntry(role: string, content: string)

  /** Both agents' role mapping: `"user"` for a `"human"` entry, `"assistant"` for any other. */
  function MapRole(role: string): string {
    if role == "human" then "user" else "assistant"
  }
}
