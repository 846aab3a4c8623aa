# A Dafny model of the hiro8ma/mpc MCP tool-dispatch client and its servers

This project models the core of a Python system that lets a user drive MCP
(Model Context Protocol) tools in natural language, and proves properties of
that model.

The main part is the interactive client in `client/mcp_llm_client.py`:

- **`ToolCollector`** reads the `mcpServers` table of the configuration file.
  It turns each entry into a launch path `[command, *args]` and lists every
  server's tools.
- **`LLMIntegrationPrep`** renders that catalog as a prompt text block. It
  renders each tool's parameter schema as lines, and it recovers the LLM's
  JSON decision (strict parse first, then the greedy text from the first `{`
  to the last `}`).
- **`LLMClient`** keeps the conversation history and the `tool_calls` /
  `errors` counters. It builds the decision prompt from the last five turns,
  checks the chosen server before dispatch, normalises the tool result and
  runs the REPL command loop.

Around it sit the secondary cores:

- the MCP → LangChain adapter (`ai_platform/api/mcp_adapter/mcp_to_langchain.py`);
- the prompt-template store (`ai_platform/api/prompts/template_manager.py`);
- the OpenAPI proxy server (`openapi/openapi_server.py`);
- the design-system catalogue server (`design_system/server.py`);
- the message shaping and provider selection of the LLM provider module
  (`ai_platform/api/llm_providers.py`);
- the forecast grouping, key guards and limit clamping of the external-API
  server (`external_api/external_api_server.py`).

## Modelling approach

Everything the code cannot see is a parameter:

- the LLM, the JSON parser and `call_tool` are oracles;
- connecting, listing tools and the HTTP GETs are oracles too;
- environment variables are values;
- a file that may be missing is an `Option` of its decoded contents.

The decision LLM oracle is indexed by what is asked (`Ask`: the history, the
catalog and the query, or the interpretation inputs), not by the rendered
prompt text. `Render` gives the exact chat request for each `Ask`, and the
lemmas about the request state what the prompt contains.

Python dictionaries are insertion-ordered association lists (`Dicts`).
Assigning an existing key keeps its position; a new key goes at the end.
Decoded JSON is the `Json` datatype, with Python truthiness and an
approximation of `str()`.

Where the code updates state in place, the model does so as well:

- `ToolCollector`, `LLMClient`, `MCPServerConnection`,
  `MCPToolCollector`, `PromptTemplateManager` and the OpenAPI server's
  globals are Dafny classes.
- Their methods have loops with invariants.
- Each method is proved equal to a specification function. The properties
  are proved about that function.

The text-building tools of the design-system and external-API servers are
methods with loops, proved against recursive functions.

Points of the code that the model follows exactly:

- the user turn is appended only after the decision call has returned a
  parsed decision, so a failed decision leaves the history unchanged
  (client/mcp_llm_client.py:211-213);
- `tool_calls` is incremented before `call_tool`, so a failed call is still
  counted (client/mcp_llm_client.py:243-245);
- the JSON fallback takes the first `{` through the last `}`, without brace
  matching (client/mcp_llm_client.py:116-118);
- the interactive loop knows only `quit`/`exit`/`q`, `help`/`?` and
  `status`; any other non-blank line is a query
  (client/mcp_llm_client.py:288-302);
- the client prompt shows a missing property type as `any`
  (client/mcp_llm_client.py:104), while the adapter maps it to `str`
  (ai_platform/api/mcp_adapter/mcp_to_langchain.py:138-150).

## Model

| member | source | states |
|---|---|---|
| McpTypes.Normalize | client/mcp_llm_client.py:247-252 | the text of the first content item when `content` is a non-empty list whose first item has text; `str(result)` otherwise |
| ToolCollection.LoadEntriesOther | client/mcp_llm_client.py:42-48 | loading well-formed entries never aborts and leaves every name outside the configuration untouched |
| ToolCollection.ConfiguredLaunch | client/mcp_llm_client.py:42-56 | each configured server is stored under its name with path `[command] + args`, so `path[0]` is the command and `path[1:]` the args |
| ToolCollection.ToToolInfo | client/mcp_llm_client.py:66-71 | keeps the tool name; a missing description becomes "" and a missing input schema becomes `{}` |
| ToolCollection.ToolInfos | client/mcp_llm_client.py:66-72 | one tool entry per listed tool, in listing order |
| ToolCollection.CollectOther | client/mcp_llm_client.py:53-78 | collecting never changes the client or schema entry of a server outside the table |
| ToolCollection.CollectIsolation | client/mcp_llm_client.py:53-78 | per-server isolation: a listed server's schema is exactly its tool entries; a server that fails to connect keeps its old client and schema; a server that connects but fails to list keeps its old schema; other servers' failures do not matter |
| ToolCollection.ToolCollector.constructor | client/mcp_llm_client.py:27-29 | the server, client and schema tables start empty |
| ToolCollection.ToolCollector.LoadConfig | client/mcp_llm_client.py:32-48 | a missing file empties the server table; a file without `mcpServers` changes nothing; otherwise the entries are added in order, stopping with a `KeyError` message at the first entry lacking `command` or `args` |
| ToolCollection.ToolCollector.CollectAllTools | client/mcp_llm_client.py:50-78 | the new client and schema tables are those of the per-server collection fold; the server table is unchanged |
| LlmIntegrationPrep.ParamLines | client/mcp_llm_client.py:103-108 | exactly one line per property, in property order, 必須 iff the name is in `required` |
| LlmIntegrationPrep.FormatParameters | client/mcp_llm_client.py:95-110 | "パラメータ: なし" exactly when the schema has no `properties`; otherwise the text starts with the "パラメータ:" header |
| LlmIntegrationPrep.FormatParametersLines | client/mcp_llm_client.py:99-110 | split at newlines, the text is the header followed by exactly one line per property, in order |
| LlmIntegrationPrep.ToolBlocks | client/mcp_llm_client.py:87-91 | one non-empty block per (server, tool) pair |
| LlmIntegrationPrep.ToolBlockAt | client/mcp_llm_client.py:87-91 | the block for tool j of server i sits at position (tools of servers before i) + j: server-then-tool order |
| LlmIntegrationPrep.PrepareToolsForLlm | client/mcp_llm_client.py:84-93 | the catalog text is empty iff there are no tools |
| LlmIntegrationPrep.ExtractBracesSpec | client/mcp_llm_client.py:116-118 | the fallback exists iff some `{` precedes some `}`, and it is the text from the first `{` to the last `}` |
| LlmIntegrationPrep.ValidateRecoversEmbedded | client/mcp_llm_client.py:112-118 | when the whole answer is not JSON, an object surrounded by brace-free text is what gets parsed |
| LlmIntegrationPrep.ValidateNoBraces | client/mcp_llm_client.py:115-119 | an unparsable answer without `{` is the "cannot parse" error |
| LlmIntegrationPrep.RecentTurns | client/mcp_llm_client.py:166-167 | the last min(5, n) history entries, a suffix in chronological order |
| LlmIntegrationPrep.HistoryLines | client/mcp_llm_client.py:169-171 | one line per turn; role "user" is labelled ユーザー and every other role アシスタント |
| LlmIntegrationPrep.HistorySectionJoin | client/mcp_llm_client.py:165-178 | an empty history gives the （新しい会話） placeholder; otherwise the section is the last five turns' labelled lines, oldest first, joined by line breaks; it begins with the oldest recent turn's role label, so it is never the placeholder |
| LlmIntegrationPrep.HistorySectionLines | client/mcp_llm_client.py:165-178 | for turns whose contents hold no line break, splitting the section at line breaks gives back exactly the recent turns' lines |
| LlmIntegrationPrep.DecisionPromptCarries | client/mcp_llm_client.py:174-194 | the decision prompt contains the history section, the query and the tool catalog |
| LlmIntegrationPrep.DecisionRequest | client/mcp_llm_client.py:196-203 | model gpt-4o-mini, temperature 0, the JSON-only system message, then one user message |
| LlmIntegrationPrep.DecisionRequestShape | client/mcp_llm_client.py:163-206 | the request's user message carries the query, the history section and the rendered catalog |
| LlmClientSession.DispatchTool | client/mcp_llm_client.py:239-252 | a call is counted iff the server is a known client; a counted call's result is the normalised `call_tool` result or its error |
| LlmClientSession.FailShape | client/mcp_llm_client.py:235-237 | a failure adds exactly 1 to `errors`, changes nothing else and answers with the error prefix |
| LlmClientSession.ActOutcome | client/mcp_llm_client.py:215-233 | after the user turn: each counter grows by at most 1; success appends exactly the assistant answer; failure leaves the history alone |
| LlmClientSession.QueryOutcome | client/mcp_llm_client.py:208-237 | a failed decision appends nothing and adds exactly 1 error; success appends the user turn then the answer; a later failure keeps only the user turn |
| LlmClientSession.UnknownServerNotCalled | client/mcp_llm_client.py:240-241 | an unknown server is an error with `tool_calls` unchanged |
| LlmClientSession.FailedCallStillCounted | client/mcp_llm_client.py:243-245 | a known server's failing call still adds 1 to `tool_calls`, and 1 to `errors` |
| LlmClientSession.ToolRound | client/mcp_llm_client.py:218-229 | the tool path counts one call and answers with the interpretation of the normalised result |
| LlmClientSession.DirectAnswerDefault | client/mcp_llm_client.py:230-233 | a non-tool decision without `response` answers 回答を生成できませんでした。 |
| LlmClientSession.Classify | client/mcp_llm_client.py:286-302 | after stripping: blank input is skipped; quit iff the lower-cased line is `quit`, `exit` or `q`; help iff it is `help` or `?`; status iff it is `status`; a query iff it is none of these and not blank, and the query is the stripped line |
| LlmClientSession.Commands | client/mcp_llm_client.py:284-307 | each input event is classified independently, in order |
| LlmClientSession.AvailableTools | client/mcp_llm_client.py:155-160 | the tool summary has one line per server plus the total and a blank line |
| LlmClientSession.ConversationInvariant | client/mcp_llm_client.py:284-307 | over a REPL run: one answer per query before the first quit or interrupt; no query means no state change; the counters only grow, by at most one per query; the history only grows, by at most two turns per query |
| LlmClientSession.LlmClient.constructor | client/mcp_llm_client.py:125-135 | empty clients, empty history, both counters 0 |
| LlmClientSession.LlmClient.Initialize | client/mcp_llm_client.py:137-153 | collects every server's tools, connects every server independently and shows the tool summary |
| LlmClientSession.LlmClient.ExecuteTool | client/mcp_llm_client.py:239-252 | result as `DispatchTool`; `tool_calls` grows by 1 exactly when the server is known |
| LlmClientSession.LlmClient.InterpretResult | client/mcp_llm_client.py:254-274 | the answer is the interpretation oracle's, and it alone is appended to the history |
| LlmClientSession.LlmClient.ProcessQuery | client/mcp_llm_client.py:208-237 | the new session state and the reply are those of the query specification |
| LlmClientSession.LlmClient.InteractiveMode | client/mcp_llm_client.py:276-307 | the outputs and final state are those of the conversation specification |
| LlmClientSession.LlmClient.Cleanup | client/mcp_llm_client.py:316-321 | every client is closed, in table order, whatever the others do: one result per connection, pairing its server name with that connection's own close outcome |
| Templates.PromptTemplate.Render | ai_platform/api/prompts/template_manager.py:35-42 | the result is the declared variables substituted one at a time in declaration order; the stored template is unchanged |
| Templates.NewTemplate | ai_platform/api/prompts/template_manager.py:16-32 | missing `variables`/`tags` become [] and a missing `category` becomes "general" |
| Templates.RenderedAppend | ai_platform/api/prompts/template_manager.py:38-41 | substitution is sequential: rendering `a + b` renders `a` first, then `b` |
| Templates.SubstituteSupplied | ai_platform/api/prompts/template_manager.py:39-41 | a supplied variable replaces every `{var}` occurrence by `str(value)` |
| Templates.SubstituteUnsupplied | ai_platform/api/prompts/template_manager.py:40-41 | an unsupplied variable leaves the text verbatim |
| Templates.RenderedIgnoresUndeclared | ai_platform/api/prompts/template_manager.py:38-41 | only the declared variables' values matter; undeclared arguments are ignored |
| Templates.RenderedWithoutBraces | ai_platform/api/prompts/template_manager.py:35-42 | a template without `{` renders to itself |
| Templates.ToDict | ai_platform/api/prompts/template_manager.py:44-53 | every serialised field is present |
| Templates.ToDicts | ai_platform/api/prompts/template_manager.py:176-178 | one dict per template, in order |
| Templates.FromDict | ai_platform/api/prompts/template_manager.py:214-223 | a missing `id`, `name`, `description` or `template` is a `KeyError`; otherwise the id and template are taken over |
| Templates.FromDictDefaults | ai_platform/api/prompts/template_manager.py:214-223 | an entry with only the four required keys loads with [] variables, category "general" and [] tags |
| Templates.FromToDict | ai_platform/api/prompts/template_manager.py:44-53 | loading a serialised template gives it back |
| Templates.Entries | ai_platform/api/prompts/template_manager.py:165-166 | one entry per template, keyed by its id |
| Templates.PutKeyedById | ai_platform/api/prompts/template_manager.py:168-170 | registering keeps the store keyed by template id |
| Templates.LoadDictsKeyedById | ai_platform/api/prompts/template_manager.py:209-224 | loading from a file keeps the store keyed by template id |
| Templates.LoadToDicts | ai_platform/api/prompts/template_manager.py:209-224 | loading serialised templates registers each of them, in order, without error |
| Templates.ReloadListed | ai_platform/api/prompts/template_manager.py:201-224 | loading the saved list into an empty store gives the store back |
| Templates.BuiltinStore | ai_platform/api/prompts/template_manager.py:165-166 | the builtins have distinct ids, so registering them yields one entry each |
| Templates.FreshStore | ai_platform/api/prompts/template_manager.py:165-166 | registering templates with distinct ids yields one entry each, in order, keyed by id |
| Templates.BuiltinIds | ai_platform/api/prompts/template_manager.py:71-166 | exactly four builtins: design-system-helper, code-review, task-breakdown, slack-summary |
| Templates.PromptTemplateManager.constructor | ai_platform/api/prompts/template_manager.py:66-69 | a new manager holds exactly the builtins |
| Templates.PromptTemplateManager.Register | ai_platform/api/prompts/template_manager.py:168-170 | inserts or overwrites the entry for `template.id`; every other lookup is unchanged |
| Templates.PromptTemplateManager.Get | ai_platform/api/prompts/template_manager.py:172-174 | None iff the id is unknown; otherwise the stored template with that id |
| Templates.PromptTemplateManager.ListAll | ai_platform/api/prompts/template_manager.py:176-178 | one dict per stored template, in insertion order |
| Templates.PromptTemplateManager.ListByCategory | ai_platform/api/prompts/template_manager.py:180-185 | a template is listed iff it is stored and its category equals the argument; the listing is the dictionaries of exactly those stored templates, in insertion order |
| Templates.PromptTemplateManager.SearchByTag | ai_platform/api/prompts/template_manager.py:187-192 | a template is listed iff it is stored and its tags contain the argument; the listing is the dictionaries of exactly those stored templates, in insertion order |
| Templates.PromptTemplateManager.RenderTemplate | ai_platform/api/prompts/template_manager.py:194-199 | an unknown id is the "Template not found" error; otherwise it renders the stored template |
| Templates.PromptTemplateManager.LoadFromFile | ai_platform/api/prompts/template_manager.py:209-224 | registers the file's entries in order, stopping at the first malformed one; the store stays keyed by id |
| Templates.Listed | ai_platform/api/prompts/template_manager.py:180-192 | the filtered listing holds exactly the stored templates that pass the filter, as the dictionaries of the order-preserving filter of the store |
| Templates.ListedSnoc | ai_platform/api/prompts/template_manager.py:180-192 | listing follows store order: one more template at the end adds its dictionary at the end iff it passes the filter |
| Templates.ListedRegisterFresh | ai_platform/api/prompts/template_manager.py:168-192 | registering a template under a new id extends every filtered listing by that template alone, at the end, iff it passes |
| McpAdapter.TypeMap | ai_platform/api/mcp_adapter/mcp_to_langchain.py:138-150 | integer→int, number→float, boolean→bool, array→list, object→dict, each iff; every other name →str |
| McpAdapter.FieldOf | ai_platform/api/mcp_adapter/mcp_to_langchain.py:137-155 | a missing type is str; required as given; the description defaults to "" |
| McpAdapter.FieldEntries | ai_platform/api/mcp_adapter/mcp_to_langchain.py:137-155 | one field per property, in order, required iff listed in `required` |
| McpAdapter.ArgsModel | ai_platform/api/mcp_adapter/mcp_to_langchain.py:128-160 | no model iff `properties` is missing or empty |
| McpAdapter.ArgsModelFields | ai_platform/api/mcp_adapter/mcp_to_langchain.py:128-160 | a non-empty `properties` gives exactly the fields of its properties |
| McpAdapter.QualifiedName | ai_platform/api/mcp_adapter/mcp_to_langchain.py:178 | the name is the server name, then the separator `__`, then the tool name |
| McpAdapter.Wrap | ai_platform/api/mcp_adapter/mcp_to_langchain.py:170-184 | qualified name, server, tool and session kept; an empty description becomes "Tool from {server}"; the args model comes from the input schema |
| McpAdapter.WrapAll | ai_platform/api/mcp_adapter/mcp_to_langchain.py:170-186 | one wrapper per listed tool, in order |
| McpAdapter.Run | ai_platform/api/mcp_adapter/mcp_to_langchain.py:34-51 | no session is the "not initialized" error; otherwise the normalised result, or the failure wrapped as "MCP tool execution failed" |
| McpAdapter.ListToolsOf | ai_platform/api/mcp_adapter/mcp_to_langchain.py:84-90 | "Not connected" without a session; the listing otherwise |
| McpAdapter.ServerConnection.constructor | ai_platform/api/mcp_adapter/mcp_to_langchain.py:57-61 | the name, command and args are kept, and there is no session |
| McpAdapter.ServerConnection.Connect | ai_platform/api/mcp_adapter/mcp_to_langchain.py:65-77 | a spawn failure leaves the session; an initialise failure leaves the new session set and reports the error; success sets it |
| McpAdapter.ServerConnection.ListTools | ai_platform/api/mcp_adapter/mcp_to_langchain.py:84-90 | "Not connected" without a session; the listing otherwise |
| McpAdapter.ConnectEntry | ai_platform/api/mcp_adapter/mcp_to_langchain.py:111-118 | an entry connects iff it has `command` and `args` and its connection is ready |
| McpAdapter.ConnectOther | ai_platform/api/mcp_adapter/mcp_to_langchain.py:106-121 | names outside the configuration keep their connections |
| McpAdapter.ConnectIsolation | ai_platform/api/mcp_adapter/mcp_to_langchain.py:106-121 | a server is registered iff its own connect succeeds, whatever the other servers do |
| McpAdapter.ConnectFromConnected | ai_platform/api/mcp_adapter/mcp_to_langchain.py:106-121 | every registered connection has a session |
| McpAdapter.CollectedNames | ai_platform/api/mcp_adapter/mcp_to_langchain.py:177-184 | every collected tool is named `{server}__{tool}` and has a non-empty description |
| McpAdapter.CollectedRunnable | ai_platform/api/mcp_adapter/mcp_to_langchain.py:177-184 | collected tools of connected servers all carry a session |
| McpAdapter.ToolsOfServer | ai_platform/api/mcp_adapter/mcp_to_langchain.py:195-197 | filtering by server gives exactly that server's tools, in order |
| McpAdapter.FilterNoneOf | ai_platform/api/mcp_adapter/mcp_to_langchain.py:195-197 | an unknown server has no tools |
| McpAdapter.ToolCollector.constructor | ai_platform/api/mcp_adapter/mcp_to_langchain.py:96-99 | no connections and no tools |
| McpAdapter.ToolCollector.ConnectAll | ai_platform/api/mcp_adapter/mcp_to_langchain.py:106-121 | the connections are those of the isolated per-server connect fold |
| McpAdapter.ToolCollector.TryEntry | ai_platform/api/mcp_adapter/mcp_to_langchain.py:110-120 | one server: its connection is stored under its name exactly when the entry has `command` and `args` and the launch came up; otherwise the connections are unchanged |
| McpAdapter.ToolCollector.CollectTools | ai_platform/api/mcp_adapter/mcp_to_langchain.py:162-193 | resets the tool list to exactly the tools of every listable server, in server order |
| McpAdapter.ToolCollector.AppendServerTools | ai_platform/api/mcp_adapter/mcp_to_langchain.py:170-186 | appends one wrapper per listed tool |
| McpAdapter.ToolCollector.MakeWrapper | ai_platform/api/mcp_adapter/mcp_to_langchain.py:172-184 | builds the wrapper `Wrap` describes |
| McpAdapter.ToolCollector.CreateArgsSchema | ai_platform/api/mcp_adapter/mcp_to_langchain.py:128-160 | fills the field table to the model `ArgsModel` describes |
| McpAdapter.ToolCollector.GetToolsByServer | ai_platform/api/mcp_adapter/mcp_to_langchain.py:195-197 | exactly the tools whose server is the argument |
| OpenApi.StoredMethod | openapi/openapi_server.py:58-74 | a kept method is stored upper-cased as one of GET/POST/PUT/DELETE/PATCH |
| OpenApi.ParamType | openapi/openapi_server.py:68 | `type`, else `schema.type`, else "string" |
| OpenApi.ParamsOf | openapi/openapi_server.py:62-70 | one parameter entry per declared parameter, `required` defaulting to false |
| OpenApi.PathEndpoints | openapi/openapi_server.py:57-80 | the path's endpoints carry that path and a stored method |
| OpenApi.EndpointsOf | openapi/openapi_server.py:55-80 | every endpoint has a stored method and a declared path |
| OpenApi.PathEndpointsComplete | openapi/openapi_server.py:57-80 | every get/post/put/delete/patch operation of a path (any case) yields its endpoint |
| OpenApi.EndpointsComplete | openapi/openapi_server.py:56-80 | every such operation of the document yields its endpoint |
| OpenApi.DocBaseUrl | openapi/openapi_server.py:46-52 | an empty `servers` or `schemes` list is an index error; the scheme defaults to https; no servers and no host gives "" |
| OpenApi.BaseUrlFor | openapi/openapi_server.py:43-52 | a configured base URL wins; otherwise the document's |
| OpenApi.MatchedLinesFilter | openapi/openapi_server.py:104-116 | the listing lines are the lines of exactly the matching endpoints, in order |
| OpenApi.ListingAll | openapi/openapi_server.py:98-121 | an empty query lists every endpoint, with the header counting them all |
| OpenApi.MatchedLinesIgnoreQueryCase | openapi/openapi_server.py:102-108 | the search ignores the query's case |
| OpenApi.FindFrom | openapi/openapi_server.py:138-139 | the first endpoint with equal path and method, or none |
| OpenApi.DetailOfOtherMethod | openapi/openapi_server.py:136-159 | a method outside the stored five is never found |
| OpenApi.FillPathRendered | openapi/openapi_server.py:189-192 | path filling replaces each `{key}` with `str(value)`, in key order, the same substitution as template rendering |
| OpenApi.FillPathWithoutBraces | openapi/openapi_server.py:189-192 | a path without `{` is unchanged |
| OpenApi.HeaderLookup | openapi/openapi_server.py:197-204 | `Authorization` from the token wins, then the caller's headers, then `Content-Type: application/json` |
| OpenApi.RequestFor | openapi/openapi_server.py:185-204 | an error iff the base URL is empty; otherwise the URL is the base URL stripped of trailing `/` followed by the path, with its placeholders filled only when path parameters are given and non-empty; the method is upper-cased; the headers are `RequestHeaders` of the given headers and token; the query is passed on; a body is sent iff a non-empty one is given |
| OpenApi.OpenApiServer.constructor | openapi/openapi_server.py:22-24 | empty document, empty base URL, no endpoints |
| OpenApi.OpenApiServer.Load | openapi/openapi_server.py:27-80 | no spec path or an unreadable file changes nothing; otherwise the document is stored, the base URL derived and the endpoint table rebuilt from scratch |
| OpenApi.OpenApiServer.ListEndpoints | openapi/openapi_server.py:88-121 | the listing the specification function describes |
| OpenApi.OpenApiServer.GetEndpointDetail | openapi/openapi_server.py:125-159 | the detail of the first endpoint with equal path and upper-cased method, or the not-found message |
| OpenApi.OpenApiServer.CallApi | openapi/openapi_server.py:163-204 | the request (or the missing-base-URL message) `RequestFor` describes |
| OpenApi.BuildPathEndpoints | openapi/openapi_server.py:57-80 | the endpoint loop builds `PathEndpoints` |
| OpenApi.BuildParams | openapi/openapi_server.py:62-70 | the parameter loop builds `ParamsOf` |
| DesignSystem.ShownByCategory | design_system/server.py:57-58 | a component is shown iff its category equals the filter exactly |
| DesignSystem.UnknownComponentCategory | design_system/server.py:57-61 | no matching component gives the not-found message naming the category |
| DesignSystem.PropLinesText | design_system/server.py:70-72 | the prop loop builds one line per prop: 必須 iff `required` is truthy, type defaulting to `any` |
| DesignSystem.ComponentBlockText | design_system/server.py:65-75 | the block text of one component |
| DesignSystem.GetComponents | design_system/server.py:40-77 | a missing or empty file gives "not defined"; the filtered components' blocks otherwise |
| DesignSystem.PlainStyleItems | design_system/server.py:101-106 | plain list items render as bare bulleted values |
| DesignSystem.StyleItemsText | design_system/server.py:102-106 | dict items render as `name: description`, others as bare values |
| DesignSystem.EntriesText | design_system/server.py:108-109 | dict values render as `key: value` lines |
| DesignSystem.GetStyleTypes | design_system/server.py:84-112 | the style listing text |
| DesignSystem.KnownTokenType | design_system/server.py:137-157 | a known token type renders only that category |
| DesignSystem.UnknownTokenTypeListsAll | design_system/server.py:137-140 | an unknown token type gives the message, and it names every token key |
| DesignSystem.InnerTokensText | design_system/server.py:151-152 | nested token values render as indented lines |
| DesignSystem.TokenLinesText | design_system/server.py:148-154 | one entry per token, nested values expanded |
| DesignSystem.GetDesignTokens | design_system/server.py:119-157 | the token listing text |
| DesignSystem.FirstAppearances | design_system/server.py:190-197 | reference definition: each group name once, and exactly the names that occur |
| DesignSystem.GroupedGet | design_system/server.py:190-195 | a group holds exactly the icons of that category (default "other"), in input order; other names have no group |
| DesignSystem.GroupedKeys | design_system/server.py:190-197 | groups appear in order of first appearance |
| DesignSystem.IconLinesText | design_system/server.py:199-200 | one line per icon of a group |
| DesignSystem.GroupIcons | design_system/server.py:190-195 | the grouping loop builds `Grouped` |
| DesignSystem.GetIconList | design_system/server.py:164-203 | the icon list text, grouped as above |
| DesignSystem.FindIcon | design_system/server.py:226 | the first icon with the name, or none |
| DesignSystem.ExampleNames | design_system/server.py:229 | at most the first 10 icon names, in order |
| DesignSystem.IconDetail | design_system/server.py:210-245 | the not-found message iff no icon has the name |
| LlmProviders.NewOpenAi | ai_platform/api/llm_providers.py:40-51 | an error iff neither the argument nor the environment gives a key; an explicit key wins |
| LlmProviders.NewVertexAi | ai_platform/api/llm_providers.py:85-96 | an error iff neither the argument nor the environment gives a project |
| LlmProviders.NewAnthropic | ai_platform/api/llm_providers.py:141-152 | an error iff neither the argument nor the environment gives a key |
| LlmProviders.Create | ai_platform/api/llm_providers.py:190-203 | the client class matches the provider; any other provider is the "Unknown provider" error |
| LlmProviders.CreateFromEnv | ai_platform/api/llm_providers.py:206-220 | OpenAI, then Anthropic, then Vertex AI, each iff the earlier ones are unconfigured; none is an error |
| LlmProviders.CreateFromEnvIsCreate | ai_platform/api/llm_providers.py:209-215 | the choice equals the factory call for the chosen provider without arguments |
| LlmProviders.PromptPartsKnown | ai_platform/api/llm_providers.py:115-124 | the parts are one prefixed part per system/user/assistant message, in order; other roles are dropped; the role defaults to "user" |
| LlmProviders.ConvertMessages | ai_platform/api/llm_providers.py:112-126 | the conversion loop builds the "\n"-joined prompt |
| LlmProviders.SplitSystemFails | ai_platform/api/llm_providers.py:160-166 | the split fails iff some message lacks `role`, or is a system message without `content` |
| LlmProviders.SplitSystemChat | ai_platform/api/llm_providers.py:160-166 | after a successful split the chat list is every non-system message, in order |
| LlmProviders.SplitSystemText | ai_platform/api/llm_providers.py:160-166 | after a successful split the system text is the last system message's content, or "" when there is none |
| LlmProviders.AnthropicRequestOf | ai_platform/api/llm_providers.py:154-173 | the split loop builds the request `AnthropicRequestFor` describes, with 4096 max tokens |
| ExternalApi.CurrentWeather | external_api/external_api_server.py:35-62 | a missing key is an error before any request; request errors pass through; visibility is reported in kilometres |
| ExternalApi.DailyGroups | external_api/external_api_server.py:88-111 | reference grouping: at most one group per item; the last group has the last item's date |
| ExternalApi.GroupsDates | external_api/external_api_server.py:88-111 | every item lands in the group of its own date: the groups' dates, repeated once per entry they hold, are the items' dates in order |
| ExternalApi.GroupsFlatten | external_api/external_api_server.py:88-111 | every considered item appears exactly once, in order, across the groups |
| ExternalApi.GroupsShape | external_api/external_api_server.py:88-111 | groups are non-empty, and neighbouring groups have different dates |
| ExternalApi.NewDayStep | external_api/external_api_server.py:91-100 | a date change flushes the open group and opens a new one |
| ExternalApi.SameDayStep | external_api/external_api_server.py:100-105 | an item of the open date joins the open group |
| ExternalApi.TakeDays | external_api/external_api_server.py:116 | at most `days` groups, a prefix of the groups |
| ExternalApi.Considered | external_api/external_api_server.py:88 | only the first `days*8` items are considered |
| ExternalApi.WeatherForecast | external_api/external_api_server.py:66-117 | a missing key is an error before the `days` check; `days` outside 1..5 is an error; success holds at most `days` day groups, a prefix of the grouping |
| ExternalApi.GroupByDay | external_api/external_api_server.py:84-111 | the grouping loop, with its final flush, builds `DailyGroups` |
| ExternalApi.GetWeatherForecast | external_api/external_api_server.py:66-117 | the tool result `WeatherForecast` describes |
| ExternalApi.ClampLimit | external_api/external_api_server.py:126-127 | a limit above 20 becomes 20; smaller limits pass unchanged |
| ExternalApi.Headlines | external_api/external_api_server.py:139-148 | one summary per article, in order |
| ExternalApi.Hits | external_api/external_api_server.py:179-187 | one summary per article, in order |
| ExternalApi.LatestNews | external_api/external_api_server.py:121-156 | a missing key is an error before any request; success reports every article of the response |
| ExternalApi.SearchNews | external_api/external_api_server.py:160-195 | a missing key is an error before any request; success reports every article of the response |
| ExternalApi.GetLatestNews | external_api/external_api_server.py:121-156 | the headline loop, with the clamped page size, builds `LatestNews` |
| ExternalApi.SearchNewsLoop | external_api/external_api_server.py:160-195 | the search loop, with the clamped page size, builds `SearchNews` |
| ExternalApi.IpUrl | external_api/external_api_server.py:201-204 | the address-specific URL iff an address is given |
| ExternalApi.IpLookup | external_api/external_api_server.py:199-223 | a response with status `fail` is an error carrying its message (default "Unknown error"), and only then |

## Left out

- All I/O is left out. The LLM, JSON/YAML parsing, the stdio/MCP
  transport, HTTP requests, `os.getenv`, file reads, `print`/`input` and the
  clock are oracles or parameters. `save_to_file`, `disconnect`/
  `disconnect_all`, `ping` and the async enter/exit are not modelled beyond
  the close outcomes `Cleanup` records.
- `get_langchain_llm` and each provider's `chat` network call are left out.
  Of the `chat` methods, only the Anthropic system/chat split and the
  Vertex AI message conversion are modelled.
- Floats (temperatures, `pop * 100`, visibility / 1000) are JSON payloads or
  exact reals. Float rounding is not modelled.
- `str()` of floats, lists and dicts follows Python's `repr` only
  approximately (`Json.Show`).
- Case mapping and whitespace stripping are ASCII-only.
- The session duration shown by `status` is not modelled. It is built from
  `datetime.now`.
- Decoded documents are typed records. A field holding a value of an
  unexpected JSON type (a `TypeError` or `AttributeError` in Python) is not
  modelled. `KeyError` on a missing required field is modelled where the
  code can raise it for a missing key: configuration entries, template
  files, message roles. External-API responses are assumed to carry the
  fields the tools read.
- `datetime.fromtimestamp(...).date()` is an oracle from the timestamp to
  the ISO date string. Dates are compared as those strings, since
  `isoformat` is injective.
- `pydantic.create_model` is modelled as the map from field name to
  (type, required, description) that is passed to it.
- ExternalApi.LatestNews: does not state that the request's `pageSize` is
  the clamped limit. The body passes `ClampLimit(limit)`, and `ClampLimit`
  states the clamp.
- ExternalApi.SearchNews: same as `LatestNews`.
