/** What a tool server advertises and returns, shared by the interactive
    client (client/mcp_llm_client.py) and the LangChain adapter
    (ai_platform/api/mcp_adapter/mcp_to_langchain.py).

    A tool's `inputSchema` is a JSON-Schema object. Only the keys both
    consumers read are kept: `properties` (name -> {type, description}, in
    declaration order) and `required`. A schema with neither key stands for
    both the empty dict and any dict without `properties`, which the source
    treats alike. */
module McpTypes {
  import opened Wrappers
  import opened Dicts

  datatype PropSpec = PropSpec(typ: Option<string>, description: Option<string>)

  datatype InputSchema = InputSchema(
    properties: Option<Dict<string, PropSpec>>,
    required: Option<seq<string>>)

  /** `{}`: what a tool without an `inputSchema` attribute is given. */
  const EmptySchema := InputSchema(None, None)

  /** `schema.get('required', [])` */
  function RequiredNames(s: InputSchema): seq<string> {
    s.required.GetOr([])
  }

  /** One entry of a server's `list_tools()` answer. */
  datatype RemoteTool = RemoteTool(
    name: string,
    description: Option<string>,
    inputSchema: Option<InputSchema>)

  /** One item of a `call_tool` result's `content` list; `text` is absent for
      items without a `text` attribute (images, embedded resources). */
  datatype ContentItem = ContentItem(text: Option<string>)

  /** The `content` attribute of a `call_tool` result: missing, a list, or a
      value of some other type. */
  datatype ContentField = NoContent | ListContent(items: seq<ContentItem>) | OtherContent

  /** A `call_tool` result envelope; `repr` is `str(result)`, which the
      transport library decides. */
  datatype CallResult = CallResult(content: ContentField, repr: string)

  /** The envelope carries a text the source unwraps: a non-empty content
      list whose first item has `text`. */
  predicate HasLeadingText(r: CallResult) {
    r.content.ListContent? && |r.content.items| > 0 && r.content.items[0].text.Some?
  }

  /** The canonical single-string form of a tool result, used by both
      consumers: the first content item's text when there is one, the
      envelope's `str()` otherwise. */
  function Normalize(r: CallResult): (t: string)
    ensures HasLeadingText(r) ==> t == r.content.items[0].text.value
    ensures !HasLeadingText(r) ==> t == r.repr
  {
    match r.content
    case ListContent(items) =>
      if |items| > 0 && items[0].text.Some? then items[0].text.value else r.repr
    case _ => r.repr
  }
}
