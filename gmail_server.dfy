/** The Gmail server: ten handlers, and `call_tool` with the `__user_id__` check. */
module GmailServer {
  import opened Wrappers
  import opened McpTypes
  import opened ToolHandlers
  import opened Registry
  import Dispatch

  /** `create_gmail_server`: a fresh dict, filled by ten `add_tool_handler` calls in this order.
      The handlers are, in call order: queryEmails, getEmailById, createDraft, deleteDraft, replyEmail, getAttachment, bulkGetEmailsByIds, bulkSaveAttachments, sendEmail, listDrafts.
      The straight-line calls are written as one loop over them. */
  method CreateGmailServer(hs: seq<ToolHandler>) returns (reg: ToolRegistry)
    requires |hs| == 10
    ensures fresh(reg) && reg.Valid()
    ensures reg.added == hs
  {
    reg := new ToolRegistry();
    for i := 0 to |hs|
      invariant fresh(reg) && reg.Valid()
      invariant reg.added == hs[..i]
    {
      reg.AddToolHandler(hs[i]);
    }
    assert hs[..|hs|] == hs;
  }

  /** `list_tools()`: one descriptor per dict entry, in the order the names were
      first added; the first handler whose `get_tool_description` raises makes the
      call raise that exception unchanged. */
  function ListTools(reg: ToolRegistry): (r: Result<seq<Tool>>)
    reads reg
    requires reg.Valid()
    ensures r.Ok? <==> forall i :: 0 <= i < |reg.Values()| ==> GetToolDescription(reg.Values()[i]).Ok?
    ensures r.Ok? ==> |r.value| == |Names(reg.added)|
                      && forall i :: 0 <= i < |r.value| ==> GetToolDescription(reg.Values()[i]) == Ok(r.value[i])
    ensures r.Err? ==> exists k :: 0 <= k < |reg.Values()|
                                   && (forall i :: 0 <= i < k ==> GetToolDescription(reg.Values()[i]).Ok?)
                                   && GetToolDescription(reg.Values()[k]) == Err(r.msg)
  {
    Dispatch.ListTools(reg.Values())
  }

  /** `call_tool(name, arguments)`: non-dict arguments fail first, then a missing
      `__user_id__` (whether or not the name is known), then an unknown name; otherwise
      the last handler added under `name` runs on the same dict, its result is
      returned unchanged and its exception re-raised with the common prefix. */
  function CallTool(reg: ToolRegistry, name: string, arguments: Value): (r: Result<seq<Content>>)
    reads reg
    requires reg.Valid()
    ensures !arguments.Object? ==> r == Err(Dispatch.ErrorPrefix + Dispatch.NotDictMessage)
    ensures arguments.Object? && UserIdArg !in arguments.fields ==>
              r == Err(Dispatch.ErrorPrefix + Dispatch.MissingUserIdMessage)
    ensures arguments.Object? && UserIdArg in arguments.fields && !Registered(reg.added, name) ==>
              r == Err(Dispatch.ErrorPrefix + Dispatch.UnknownToolMessage(name))
    ensures arguments.Object? && UserIdArg in arguments.fields && Registered(reg.added, name) ==>
              && reg.GetToolHandler(name).Some?
              && r == Dispatch.Reraise(RunTool(reg.GetToolHandler(name).value, arguments.fields))
  {
    TableAgrees(reg.added);
    LatestNoneIff(reg.added, name);
    Dispatch.CallTool(true, reg.handlers, name, arguments)
  }
}
