/** The dynamically typed values the system stores in its result dictionaries,
    and the chat messages its agents exchange. */
module Values {

  /** A Python value as it appears in a result dictionary or a call argument. */
  datatype Value =
    | VNone
    | VBool(b: bool)
    | VInt(i: int)
    | VStr(s: string)
    | VList(items: seq<Value>)
    | VDict(entries: map<string, Value>)

  /** Python truthiness: None, False, 0 and empty containers are false. */
  predicate Truthy(v: Value) {
    match v
    case VNone => false
    case VBool(b) => b
    case VInt(i) => i != 0
    case VStr(s) => |s| > 0
    case VList(xs) => |xs| > 0
    case VDict(m) => |m| > 0
  }

  /** A chat message: system, human, AI, or the reply of a tool call with its arguments. */
  datatype Message =
    | SystemMsg(content: string)
    | HumanMsg(content: string)
    | AIMsg(content: string)
    | ToolMsg(toolName: string, args: map<string, Value>, content: string)

  /** A Python list of messages that callers share and mutate in place. */
  class MessageList {
    var items: seq<Message>

    constructor (items: seq<Message>)
      ensures this.items == items
    {
      this.items := items;
    }

    /** `list.append(m)`. */
    method Append(m: Message)
      modifies this
      ensures items == old(items) + [m]
    {
      items := items + [m];
    }

    /** `list.insert(0, m)`. */
    method InsertFront(m: Message)
      modifies this
      ensures items == [m] + old(items)
    {
      items := [m] + items;
    }
  }
}
