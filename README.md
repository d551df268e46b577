# mcp-gsuite tool registry and dispatcher, modelled in Dafny

mcp-gsuite exposes Gmail and Google Calendar operations ("tools") to an agent over the
Model Context Protocol. Three servers share one piece of logic:

- the Gmail server has ten handlers;
- the calendar server has four;
- the combined server has twelve.

Each server does three things:

- It fills a dict from tool name to handler with `add_tool_handler`. This is an
  insert-or-overwrite into a Python dict, which keeps the first-insertion order of keys.
- `list_tools` returns one descriptor per dict entry.
- `call_tool` runs a fixed chain of checks. The arguments must be a dict. The
  `__user_id__` key must be present, except on the calendar server. The name must be
  registered. It then returns the handler's result unchanged. Every exception is
  re-raised as `"Caught Exception. Error: "` followed by the original message.

Files and modules:

- `wrappers.dfy` (`Wrappers`): `Option`, and `Result`, where `Err(msg)` stands for a
  raised exception whose `str()` is `msg`.
- `mcp_types.dfy` (`McpTypes`): JSON-like argument values (`Value`), content items
  and tool descriptors. The dispatcher only passes these through.
- `toolhandler.py` → `toolhandler.dfy` (`ToolHandlers`): the reserved keys and the
  `ToolHandler` base class. A handler is a value: its name, plus its override of
  `get_tool_description` and of `run_tool` (`None` where the base method is
  inherited). An override of `get_tool_description` is its outcome, a descriptor or
  the exception it raises; an override of `run_tool` is a function of the arguments
  dict. The base methods raise `NotImplementedError()`, whose message is the empty
  string.
- `registry.dfy` (`Registry`): the handler dict. Pure functions describe the dict
  after a history of additions:
  - `Names`: the key order;
  - `Table`: the entries;
  - `Latest`: the entry for one name.

  Class `ToolRegistry` holds the real fields: `names`, the key order, and `handlers`, the
  map. A ghost field `added` records every handler added so far, and `Valid()` ties the
  real fields to `Names(added)` and `Table(added)`. Its `AddToolHandler`,
  `GetToolHandler` and `Values` model `add_tool_handler`, `get_tool_handler` (and
  `dict.get`) and `dict.values()`.
- `dispatch.dfy` (`Dispatch`): the shared `call_tool` and `list_tools` logic over a
  snapshot of the dict. `Check` is the chain of checks, and `Attempt` is the `try` body.
  `Reraise` is the `except` clause, and `ListTools` is the list comprehension. A flag
  `requireUserId` switches the `__user_id__` check on or off.
- `gmail_server.dfy` (`GmailServer`), `calendar_server.dfy` (`CalendarServer`) and
  `server.dfy` (`GsuiteServer`) hold each server's registration, `list_tools` and
  `call_tool`. Their contracts are stated in terms of the history of additions.

Three points about what the code does:

- Registering a name twice overwrites the earlier handler; it does not fail.
- The code never injects credentials and never resolves accounts.
- The calendar server performs no `__user_id__` check.

## Model

| member | source | states |
|---|---|---|
| ToolHandlers.NewToolHandler | src/mcp_gsuite/toolhandler.py:13-35 | the base handler's name is the constructor argument; the base `get_tool_description` and `run_tool` both fail with the empty `NotImplementedError` message, for every argument dict |
| ToolHandlers.GetSupportedEmailsToolText | src/mcp_gsuite/toolhandler.py:20-21 | the hint text is a fixed sentence that contains `__user_id__` |
| ToolHandlers.GetUserIdArgSchema | src/mcp_gsuite/toolhandler.py:23-27 | the schema has exactly the keys "type" and "description"; its type is "string" and its description is a string |
| ToolHandlers.ReservedKeysDistinct | src/mcp_gsuite/toolhandler.py:9-10 | the reserved keys `__user_id__` and `credentials` differ |
| Registry.LatestNoneIff | src/mcp_gsuite/server.py:35-37 | the lookup gives `None` exactly when no handler of that name was ever added |
| Registry.LatestIsLastAdded | src/mcp_gsuite/server.py:33 | a stored entry is a handler of that name that was added, and no later addition has that name (the last write wins) |
| Registry.NamesMember | src/mcp_gsuite/gmail_server.py:27-28 | a name is among the dict's keys exactly when some handler of that name was added |
| Registry.NamesDistinct | src/mcp_gsuite/gmail_server.py:25-28 | the dict's key order never holds one name twice, so there is never more than one handler per name |
| Registry.NamesInFirstAddedOrder | src/mcp_gsuite/calendar_server.py:24-27 | keys are ordered by the position of each name's first addition; overwriting does not move a key |
| Registry.TableAgrees | src/mcp_gsuite/server.py:29-33 | the entries' keys are exactly the key order's names, and each entry is the last handler added under its name |
| Registry.AddThenGet | src/mcp_gsuite/server.py:30-39 | after one more addition, that handler is stored under its name, and every other name's lookup is unchanged; the key order grows by the name only when the name is new |
| Registry.ToolRegistry.constructor | src/mcp_gsuite/server.py:29 | a new dict is empty and has no history |
| Registry.ToolRegistry.AddToolHandler | src/mcp_gsuite/server.py:30-33 | appends the handler to the history; the map is updated at the handler's name; a new name goes last in the key order and an existing one keeps its place; the invariant is kept |
| Registry.ToolRegistry.GetToolHandler | src/mcp_gsuite/server.py:35-39 | `None` exactly when no handler of that name was added; otherwise the handler last added under that name |
| Registry.ToolRegistry.Values | src/mcp_gsuite/gmail_server.py:45 | `values()` holds one handler per distinct added name, in first-addition order; each is the last handler added under its name |
| Dispatch.Check | src/mcp_gsuite/gmail_server.py:52-62 | non-dict arguments are rejected first, then a missing `__user_id__` (only when required), then an unknown name, each with its fixed message; otherwise the stored handler is selected and gets the same dict |
| Dispatch.Attempt | src/mcp_gsuite/gmail_server.py:51-62 | the `try` body: non-dict arguments raise first, then a missing `__user_id__` (only when required), then an unknown name, each with its fixed message; otherwise the result is the stored handler's `run_tool` on the same dict |
| Dispatch.Reraise | src/mcp_gsuite/gmail_server.py:64-67 | a result passes through unchanged; every exception becomes one error: the prefix followed by the original message |
| Dispatch.CallTool | src/mcp_gsuite/gmail_server.py:47-67 | `call_tool` for both server kinds: the same chain, each check's message behind the prefix; a call that passes runs the stored handler on the same dict, returns its result unchanged and re-raises its exception behind the prefix; every error starts with the prefix |
| Dispatch.ListTools | src/mcp_gsuite/server.py:59 | succeeds exactly when no `get_tool_description` raises; then it holds each handler's descriptor, one per handler, in order; otherwise it raises the exception of the first handler whose `get_tool_description` raises, unchanged |
| Dispatch.RejectionRunsNoHandler | src/mcp_gsuite/gmail_server.py:52-60 | a rejected call's result depends only on which names are registered, not on any handler, so no handler runs |
| Dispatch.CheckMessagesDistinct | src/mcp_gsuite/server.py:65-73 | the three check messages differ from each other for every tool name |
| GmailServer.CreateGmailServer | src/mcp_gsuite/gmail_server.py:22-39 | a fresh, consistent dict whose history is the ten handlers in call order |
| GmailServer.ListTools | src/mcp_gsuite/gmail_server.py:41-45 | one descriptor per dict entry, in the order names were first added, when no `get_tool_description` raises; otherwise the exception of the first entry (in that order) whose `get_tool_description` raises |
| GmailServer.CallTool | src/mcp_gsuite/gmail_server.py:47-67 | non-dict arguments fail first; a missing `__user_id__` fails next, whatever the name; then an unregistered name fails with "Unknown tool: name"; otherwise the last handler added under that name runs on the same dict; its result is returned unchanged and its exception is re-raised with the prefix |
| CalendarServer.CreateCalendarServer | src/mcp_gsuite/calendar_server.py:21-32 | a fresh, consistent dict whose history is the four handlers in call order |
| CalendarServer.ListTools | src/mcp_gsuite/calendar_server.py:34-38 | one descriptor per dict entry, in the order names were first added, when no `get_tool_description` raises; otherwise the exception of the first entry (in that order) whose `get_tool_description` raises |
| CalendarServer.CallTool | src/mcp_gsuite/calendar_server.py:40-57 | non-dict arguments fail first; an unregistered name fails with "Unknown tool: name"; there is no `__user_id__` check, so any dict reaches the last handler added under the name unchanged; its result is returned unchanged and its exception is re-raised with the prefix |
| GsuiteServer.LoadToolHandlers | src/mcp_gsuite/server.py:29-53 | a fresh, consistent module-level dict whose history is the twelve handlers in call order |
| GsuiteServer.ListTools | src/mcp_gsuite/server.py:55-59 | one descriptor per dict entry, in the order names were first added, when no `get_tool_description` raises; otherwise the exception of the first entry (in that order) whose `get_tool_description` raises |
| GsuiteServer.CallTool | src/mcp_gsuite/server.py:62-79 | the same chain as the Gmail server, with the lookup done by `get_tool_handler` |

## Left out

- The MCP `Server` object, its `list_tools`/`call_tool` decorators and `async`: these are framework wiring from a library that is not part of this model. Both entry points are plain functions.
- `logging` and `traceback.format_exc`: they are diagnostics only. The model keeps the message that is re-raised.
- `load_dotenv` in `server.py`: this is environment input.
- The concrete handler classes (`gmail_tools.*`, `tools_gmail.*`, `calendar_tools.*`, `tools_calendar.*`) and `GmailService`/`CalendarService` are not part of this model. The registration methods take the handler instances as a sequence in call order. A handler's `run_tool` is an uninterpreted function of the arguments dict.
- `Tool`, `TextContent`, `ImageContent`, `EmbeddedResource` come from the protocol library. They are plain datatypes here and are only passed through.
- Credential injection and account resolution: the code never uses `credentials` and never resolves an account.
- JSON floating-point values: `Value` has no float case. The dispatcher never inspects argument values.
- Exceptions outside `Exception` (such as `KeyboardInterrupt`) pass through `except Exception` uncaught. The model has no such exceptions.
- CreateGmailServer, CreateCalendarServer and LoadToolHandlers: the source makes one straight-line `add_tool_handler` call per handler. Each method writes these calls as one loop over the handler sequence, in the same order and with the same effect.
- GetSupportedEmailsToolText and GetUserIdArgSchema take no handler: the source methods never read `self`.
