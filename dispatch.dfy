/** The `list_tools` and `call_tool` logic shared by the three servers, over a
    snapshot of the handler dict. `requireUserId` selects whether the
    `__user_id__` check runs (the Gmail and global servers) or not (the calendar server). */
module Dispatch {
  import opened Wrappers
  import opened McpTypes
  import opened ToolHandlers

  /** Prefix of every error `call_tool` re-raises. */
  const ErrorPrefix: string := "Caught Exception. Error: "
  const NotDictMessage: string := "arguments must be dictionary"
  const MissingUserIdMessage: string := "user_id argument is missing in dictionary."

  function UnknownToolMessage(name: string): string
  {
    "Unknown tool: " + name
  }

  /** The outcome of the checks before `run_tool`: the reason a check raised, or the
      handler and the arguments dict it is about to be run with. */
  datatype Checked =
    | Rejected(reason: string)
    | Accepted(handler: ToolHandler, args: map<string, Value>)

  /** The fixed chain of checks: dict arguments, then (optionally) `__user_id__`,
      then a registered name. */
  function Check(requireUserId: bool, handlers: map<string, ToolHandler>, name: string, arguments: Value): (c: Checked)
    ensures !arguments.Object? ==> c == Rejected(NotDictMessage)
    ensures arguments.Object? && requireUserId && UserIdArg !in arguments.fields ==>
              c == Rejected(MissingUserIdMessage)
    ensures arguments.Object? && (requireUserId ==> UserIdArg in arguments.fields) && name !in handlers ==>
              c == Rejected(UnknownToolMessage(name))
    ensures c.Accepted? <==>
              arguments.Object? && (requireUserId ==> UserIdArg in arguments.fields) && name in handlers
    ensures c.Accepted? ==> c.args == arguments.fields && c.handler == handlers[name]
  {
    if !arguments.Object? then Rejected(NotDictMessage)
    else if requireUserId && UserIdArg !in arguments.fields then Rejected(MissingUserIdMessage)
    else if name !in handlers then Rejected(UnknownToolMessage(name))
    else Accepted(handlers[name], arguments.fields)
  }

  /** The body of the `try` block: each check raises its own message, in order, and
      a call that passes them all gives whatever the stored handler's `run_tool` gives
      on the same dict. */
  function Attempt(requireUserId: bool, handlers: map<string, ToolHandler>, name: string, arguments: Value): (r: Result<seq<Content>>)
    ensures !arguments.Object? ==> r == Err(NotDictMessage)
    ensures arguments.Object? && requireUserId && UserIdArg !in arguments.fields ==>
              r == Err(MissingUserIdMessage)
    ensures arguments.Object? && (requireUserId ==> UserIdArg in arguments.fields) && name !in handlers ==>
              r == Err(UnknownToolMessage(name))
    ensures arguments.Object? && (requireUserId ==> UserIdArg in arguments.fields) && name in handlers ==>
              r == RunTool(handlers[name], arguments.fields)
  {
    match Check(requireUserId, handlers, name, arguments)
    case Rejected(m) => Err(m)
    case Accepted(h, args) => RunTool(h, args)
  }

  /** The `except Exception` clause: a result passes through unchanged, and every
      exception becomes one error carrying ErrorPrefix and the original message. */
  function Reraise(a: Result<seq<Content>>): (r: Result<seq<Content>>)
    ensures r.Ok? <==> a.Ok?
    ensures a.Ok? ==> r.value == a.value
    ensures a.Err? ==> r.msg == ErrorPrefix + a.msg
  {
    match a
    case Ok(_) => a
    case Err(m) => Err(ErrorPrefix + m)
  }

  /** `call_tool(name, arguments)` for either server kind: the checks fail in order
      with their messages behind ErrorPrefix; a call that passes them runs the stored
      handler on the same dict, returns its result unchanged and re-raises its
      exception behind ErrorPrefix. Every error the call raises starts with ErrorPrefix. */
  function CallTool(requireUserId: bool, handlers: map<string, ToolHandler>, name: string, arguments: Value): (r: Result<seq<Content>>)
    ensures !arguments.Object? ==> r == Err(ErrorPrefix + NotDictMessage)
    ensures arguments.Object? && requireUserId && UserIdArg !in arguments.fields ==>
              r == Err(ErrorPrefix + MissingUserIdMessage)
    ensures arguments.Object? && (requireUserId ==> UserIdArg in arguments.fields) && name !in handlers ==>
              r == Err(ErrorPrefix + UnknownToolMessage(name))
    ensures arguments.Object? && (requireUserId ==> UserIdArg in arguments.fields) && name in handlers ==>
              && (RunTool(handlers[name], arguments.fields).Ok? ==> r == RunTool(handlers[name], arguments.fields))
              && (RunTool(handlers[name], arguments.fields).Err? ==>
                    r == Err(ErrorPrefix + RunTool(handlers[name], arguments.fields).msg))
    ensures r.Err? ==> ErrorPrefix <= r.msg
  {
    Reraise(Attempt(requireUserId, handlers, name, arguments))
  }

  /** The list comprehension over the dict's values: every handler's descriptor, in
      order, when no `get_tool_description` raises; otherwise the exception of the
      first handler whose `get_tool_description` raises, with every earlier one
      succeeding. */
  function ListTools(values: seq<ToolHandler>): (r: Result<seq<Tool>>)
    ensures r.Ok? <==> forall i :: 0 <= i < |values| ==> GetToolDescription(values[i]).Ok?
    ensures r.Ok? ==> |r.value| == |values|
                      && forall i :: 0 <= i < |values| ==> GetToolDescription(values[i]) == Ok(r.value[i])
    ensures r.Err? ==> exists k :: 0 <= k < |values|
                                   && (forall i :: 0 <= i < k ==> GetToolDescription(values[i]).Ok?)
                                   && GetToolDescription(values[k]) == Err(r.msg)
  {
    if values == [] then Ok([])
    else
      match GetToolDescription(values[0])
      case Err(m) => Err(m)
      case Ok(t) =>
        match ListTools(values[1..])
        case Err(m) =>
          ghost var k :| 0 <= k < |values[1..]|
                         && (forall i :: 0 <= i < k ==> GetToolDescription(values[1..][i]).Ok?)
                         && GetToolDescription(values[1..][k]) == Err(m);
          assert forall i :: 0 <= i < k + 1 ==> GetToolDescription(values[i]).Ok? by {
            forall i | 0 <= i < k + 1
              ensures GetToolDescription(values[i]).Ok?
            {
              if i > 0 { assert values[i] == values[1..][i - 1]; }
            }
          }
          assert GetToolDescription(values[k + 1]) == Err(m);
          Err(m)
        case Ok(ts) => Ok([t] + ts)
  }

  /** A rejected call runs no handler: its result is the same for any two dicts with
      the same keys, whatever handlers they store. */
  lemma RejectionRunsNoHandler(requireUserId: bool, h1: map<string, ToolHandler>, h2: map<string, ToolHandler>,
                              name: string, arguments: Value)
    requires h1.Keys == h2.Keys
    requires Check(requireUserId, h1, name, arguments).Rejected?
    ensures Check(requireUserId, h2, name, arguments) == Check(requireUserId, h1, name, arguments)
    ensures CallTool(requireUserId, h2, name, arguments) == CallTool(requireUserId, h1, name, arguments)
  {
  }

  /** The three checks fail with pairwise different messages. */
  lemma CheckMessagesDistinct(name: string)
    ensures NotDictMessage != MissingUserIdMessage
    ensures UnknownToolMessage(name) != NotDictMessage
    ensures UnknownToolMessage(name) != MissingUserIdMessage
  {
    assert NotDictMessage[0] != MissingUserIdMessage[0];
    assert UnknownToolMessage(name)[0] != NotDictMessage[0];
    assert UnknownToolMessage(name)[0] != MissingUserIdMessage[0];
  }
}
