/** The handler base contract: the reserved argument keys and the ToolHandler base class. */
module ToolHandlers {
  import opened Wrappers
  import opened McpTypes

  /** Argument key carrying the caller's account e-mail. */
  const UserIdArg: string := "__user_id__"
  /** Argument key reserved for credentials. */
  const CredentialsArg: string := "credentials"

  /** `str(NotImplementedError())` is the empty string. */
  const NotImplementedMessage: string := ""

  /** What a concrete handler's `run_tool` does with the arguments dict. */
  type RunFn = map<string, Value> -> Result<seq<Content>>

  /** A tool handler: its name, and its overrides of the two abstract methods
      (`None` where the base class's method is inherited). An override of
      `get_tool_description` takes no argument, so it is its outcome: a descriptor,
      or the exception it raises. */
  datatype ToolHandler = ToolHandler(name: string, description: Option<Result<Tool>>, run: Option<RunFn>)

  /** `get_tool_description`: the override's outcome, or the base class's failure. */
  function GetToolDescription(h: ToolHandler): Result<Tool>
  {
    match h.description
    case None => Err(NotImplementedMessage)
    case Some(d) => d
  }

  /** `run_tool(args)`: the override's result, or the base class's failure. */
  function RunTool(h: ToolHandler, args: map<string, Value>): Result<seq<Content>>
  {
    match h.run
    case None => Err(NotImplementedMessage)
    case Some(f) => f(args)
  }

  /** `ToolHandler(tool_name)`: the base class instance, whose abstract methods both raise. */
  function NewToolHandler(toolName: string): (h: ToolHandler)
    ensures h.name == toolName
    ensures GetToolDescription(h) == Err(NotImplementedMessage)
    ensures forall args :: RunTool(h, args) == Err(NotImplementedMessage)
  {
    ToolHandler(toolName, None, None)
  }

  /** Whether `sub` occurs in `s` as a contiguous part. */
  predicate Contains(s: string, sub: string)
  {
    exists i :: 0 <= i <= |s| - |sub| && sub <= s[i..]
  }

  const SupportedEmailsLead: string := "This tool requires a authorized Google account email for "

  /** `get_supported_emails_tool_text`: the fixed hint naming the user-id argument. */
  function GetSupportedEmailsToolText(): (r: string)
    ensures Contains(r, UserIdArg)
    ensures SupportedEmailsLead <= r
  {
    var r := SupportedEmailsLead + UserIdArg + " argument.";
    assert UserIdArg <= r[|SupportedEmailsLead|..];
    r
  }

  /** `get_user_id_arg_schema`: the JSON schema of the user-id argument. */
  function GetUserIdArgSchema(): (r: map<string, Value>)
    ensures r.Keys == {"type", "description"}
    ensures r["type"] == Str("string")
    ensures r["description"].Str?
  {
    map[
      "type" := Str("string"),
      "description" := Str("The EMAIL of the Google account for which you are executing this action.")
    ]
  }

  /** The two reserved argument keys differ. */
  lemma ReservedKeysDistinct()
    ensures UserIdArg != CredentialsArg
  {
    assert UserIdArg[0] != CredentialsArg[0];
  }
}
