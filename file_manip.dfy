/** The file tools of the LangGraph agent: `open_file` picks the line the
    window is moved to, and `update_file_vars_in_state` records an opened
    file or a line jump in a new agent state. */
module FileManip {
  import opened Common
  import opened Strings
  import opened Values

  /** `sys.exit(1)` after a usage message. */
  const Exit1: string := "SystemExit: 1"

  /** The requested line clamped into the file: above `nLines` it becomes
      `nLines`; otherwise below 1 it becomes 1. */
  function ClampLine(n: int, nLines: int): (r: int)
    ensures n > nLines ==> r == nLines
    ensures n <= nLines && n < 1 ==> r == 1
    ensures 1 <= n <= nLines ==> r == n
  {
    if n > nLines then nLines else if n < 1 then 1 else n
  }

  /** In a non-empty file the clamped line is a line of the file, and
      clamping twice changes nothing. */
  lemma ClampLineInFile(n: int, nLines: int)
    requires nLines >= 1
    ensures 1 <= ClampLine(n, nLines) <= nLines
    ensures ClampLine(ClampLine(n, nLines), nLines) == ClampLine(n, nLines)
  {
  }

  /** In an empty file a line number of at least 1 is clamped to 0, so the
      window is sent to line -1. */
  lemma ClampLineEmptyFile(n: int)
    requires n >= 1
    ensures ClampLine(n, 0) - 1 == -1
  {
  }

  /** What `open_file` does before the foreign window calls: the warnings it
      prints and the 0-based line `goto` is called with. */
  datatype OpenPlan = OpenPlan(warnings: seq<string>, gotoLine: int)

  /** `open_file`. `nLines` and `firstLine` are the window's `n_lines` and
      `first_line`; a missing path or a line number that is not an integer
      exits with status 1. */
  function OpenFile(path: Option<string>, lineNumber: Option<string>, nLines: int, firstLine: int)
    : (r: Result<OpenPlan, string>)
    ensures path.None? ==> r == Err(Exit1)
    ensures path.Some? && lineNumber.Some? && ParseInt(lineNumber.value).None? ==> r == Err(Exit1)
    ensures path.Some? && lineNumber.None? ==> r == Ok(OpenPlan([], firstLine - 1))
    ensures path.Some? && lineNumber.Some? && ParseInt(lineNumber.value).Some? ==>
              r.Ok? && r.value.gotoLine == ClampLine(ParseInt(lineNumber.value).value, nLines) - 1
    ensures r.Ok? && lineNumber.Some? ==>
              (|r.value.warnings| > 0 <==> ClampLine(ParseInt(lineNumber.value).value, nLines)
                                           != ParseInt(lineNumber.value).value)
  {
    if path.None? then Err(Exit1)
    else if lineNumber.None? then Ok(OpenPlan([], firstLine - 1))
    else
      match ParseInt(lineNumber.value)
      case None => Err(Exit1)
      case Some(n) =>
        if n > nLines then
          Ok(OpenPlan(["Warning: <line_number> (" + IntToString(n) + ") is greater than the number of lines in the file ("
                       + IntToString(nLines) + ")",
                       "Warning: Setting <line_number> to " + IntToString(nLines)], nLines - 1))
        else if n < 1 then
          Ok(OpenPlan(["Warning: <line_number> (" + IntToString(n) + ") is less than 1",
                       "Warning: Setting <line_number> to 1"], 0))
        else
          Ok(OpenPlan([], n - 1))
  }

  /** The agent state the file tools read and write. */
  datatype FileState = FileState(messages: seq<Message>, currFile: Value, currLine: Value)

  /** `update_file_vars_in_state`: an `open_file` tool message records the new
      file, a `goto_line` one the new line, both appending the message; any
      other message gives no new state (None). A missing argument raises KeyError. */
  function UpdateFileVars(state: FileState, message: Message): (r: Result<Option<FileState>, string>)
    ensures !message.ToolMsg? ==> r == Ok(None)
    ensures message.ToolMsg? && message.toolName != "open_file" && message.toolName != "goto_line" ==> r == Ok(None)
    ensures r.Ok? && r.value.Some? ==> r.value.value.messages == state.messages + [message]
    ensures message.ToolMsg? && message.toolName == "open_file" ==>
              (r.Ok? <==> "file" in message.args)
    ensures message.ToolMsg? && message.toolName == "open_file" && r.Ok? ==>
              r.value == Some(FileState(state.messages + [message], message.args["file"], state.currLine))
    ensures message.ToolMsg? && message.toolName == "goto_line" ==>
              (r.Ok? <==> "line" in message.args)
    ensures message.ToolMsg? && message.toolName == "goto_line" && r.Ok? ==>
              r.value == Some(FileState(state.messages + [message], state.currFile, message.args["line"]))
  {
    match message
    case ToolMsg(name, args, _) =>
      if name == "open_file" then
        if "file" in args then Ok(Some(FileState(state.messages + [message], args["file"], state.currLine)))
        else Err("KeyError: 'file'")
      else if name == "goto_line" then
        if "line" in args then Ok(Some(FileState(state.messages + [message], state.currFile, args["line"])))
        else Err("KeyError: 'line'")
      else Ok(None)
    case _ => Ok(None)
  }

  /** Opening a file and then jumping to a line keeps the file and the line,
      and both messages, in order. */
  lemma OpenThenGoto(state: FileState, open: Message, goto: Message)
    requires open.ToolMsg? && open.toolName == "open_file" && "file" in open.args
    requires goto.ToolMsg? && goto.toolName == "goto_line" && "line" in goto.args
    ensures var s1 := UpdateFileVars(state, open).value.value;
      && UpdateFileVars(s1, goto) == Ok(Some(FileState(state.messages + [open, goto], open.args["file"], goto.args["line"])))
  {
    var s1 := UpdateFileVars(state, open).value.value;
    assert s1.messages + [goto] == state.messages + [open, goto];
  }
}
