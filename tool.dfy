/** The one tool the server registers: its name, derived from the bound lune
    name, and the handler that maps a normalised retrieval result and the
    user's query to the single text item of the reply. */
module Tool {
  import opened Wrappers
  import opened Text
  import opened LuneClient

  const ToolPrefix := "lookup_context_for_"

  const ToolDescription :=
    "Look up up-to-date technical context for specific APIs, libraries, packages, and more via Lune, from documentation, discussions, code repositories, and more."

  /** `lookup_context_for_${lune_name}` */
  function ToolName(luneName: string): string
  {
    ToolPrefix + luneName
  }

  /** The lune name a tool name was derived from, if it has the tool prefix. */
  function LuneNameOf(toolName: string): Option<string>
  {
    if StartsWith(toolName, ToolPrefix) then Some(toolName[|ToolPrefix|..]) else None
  }

  /** The registered name carries the lune name after the fixed prefix and
      nothing else: it can be read back exactly. */
  lemma ToolNameRoundTrip(luneName: string)
    ensures LuneNameOf(ToolName(luneName)) == Some(luneName)
  {
    assert ToolName(luneName)[..|ToolPrefix|] == ToolPrefix;
  }

  /** Every name with the prefix is the tool name of exactly the lune name
      that follows the prefix. */
  lemma LuneNameOfIsInverse(toolName: string)
    requires LuneNameOf(toolName).Some?
    ensures ToolName(LuneNameOf(toolName).value) == toolName
  {
    assert toolName == toolName[..|ToolPrefix|] + toolName[|ToolPrefix|..];
  }

  /** Distinct lunes get distinct tool names. */
  lemma ToolNameInjective(a: string, b: string)
    requires ToolName(a) == ToolName(b)
    ensures a == b
  {
    ToolNameRoundTrip(a);
    ToolNameRoundTrip(b);
  }

  /** What `server.tool` is given: the name, the description and the
      description of the one string parameter `user_query`. */
  datatype ToolDescriptor = ToolDescriptor(name: string, description: string, queryDescription: string)

  function Describe(luneName: string): (d: ToolDescriptor)
    ensures LuneNameOf(d.name) == Some(luneName)
    ensures d.description == ToolDescription
  {
    ToolNameRoundTrip(luneName);
    ToolDescriptor(
      ToolName(luneName),
      ToolDescription,
      "A user's query, used to get relevant context on " + luneName
        + " pulling from docs, relevant repositories, forum discussions, and more.")
  }

  /** `{type: "text", text}` */
  datatype TextItem = TextContent(text: string)

  /** `{content: [...]}`, the value the handler resolves to. */
  datatype ToolReply = ToolReply(content: seq<TextItem>)

  const RetrievalFailed := "Failed to retrieve context from Lune API"
  const QuotaExceeded :=
    "Error, you have exceeded your free quota. "
      + "Please upgrade to a paid plan at https://www.lune.dev/profile/plan for more MCP requests."
  const HttpErrorPrefix := "Failed to retrieve context from Lune API: HTTP error "

  /** `if (result.statusCode)`: present and not zero. */
  predicate TruthyStatus(statusCode: Option<int>)
  {
    statusCode.Some? && statusCode.value != 0
  }

  function ContextReply(query: string, content: string): string
  {
    "Context for \"" + query + "\":\n\n" + content
  }

  /** The handler's decision chain, checked in order: no result, status 402,
      any other truthy status, and otherwise the context. */
  function ReplyText(query: string, result: Option<LuneResult>): string
  {
    if result.None? then RetrievalFailed
    else if result.value.statusCode == Some(402) then QuotaExceeded
    else if TruthyStatus(result.value.statusCode) then HttpErrorPrefix + IntToString(result.value.statusCode.value)
    else ContextReply(query, result.value.content)
  }

  /** The handler never throws: it always answers with exactly one text item. */
  function Reply(query: string, result: Option<LuneResult>): (r: ToolReply)
    ensures |r.content| == 1
    ensures r.content[0].text == ReplyText(query, result)
  {
    ToolReply([TextContent(ReplyText(query, result))])
  }

  /** One tool call from the HTTP outcome of its retrieval request. */
  function HandleToolCall(query: string, outcome: HttpOutcome): ToolReply
  {
    Reply(query, MakeLuneRequest(outcome))
  }

  /** A network failure, an unparsable body or a missing `chunks` array all
      reach the caller as the generic failure message, never as an error. */
  lemma FailureReply(query: string, outcome: HttpOutcome)
    requires outcome.NetworkError? || (IsOk(outcome.status) && !outcome.body.Chunks?)
    ensures HandleToolCall(query, outcome) == ToolReply([TextContent(RetrievalFailed)])
  {
  }

  /** Status 402 yields the quota message whatever the query and the body. */
  lemma QuotaReply(query: string, body: Body)
    ensures HandleToolCall(query, Response(402, body)) == ToolReply([TextContent(QuotaExceeded)])
  {
  }

  /** Any other non-ok, non-zero status S yields the HTTP error message with S
      written in decimal, and S can be read back from the reply. */
  lemma HttpErrorReply(query: string, status: int, body: Body)
    requires !IsOk(status) && status != 402 && status != 0
    ensures HandleToolCall(query, Response(status, body)).content[0].text
            == HttpErrorPrefix + IntToString(status)
    ensures ParseInt(HandleToolCall(query, Response(status, body)).content[0].text[|HttpErrorPrefix|..])
            == Some(status)
  {
    ParseIntRoundTrip(status);
    var text := HttpErrorPrefix + IntToString(status);
    assert text[|HttpErrorPrefix|..] == IntToString(status);
  }

  /** Two different error statuses never produce the same reply. */
  lemma HttpErrorReplyInjective(q1: string, q2: string, s1: int, s2: int, b1: Body, b2: Body)
    requires !IsOk(s1) && s1 != 402 && s1 != 0
    requires !IsOk(s2) && s2 != 402 && s2 != 0
    requires HandleToolCall(q1, Response(s1, b1)) == HandleToolCall(q2, Response(s2, b2))
    ensures s1 == s2
  {
    HttpErrorReply(q1, s1, b1);
    HttpErrorReply(q2, s2, b2);
    var t1, t2 := HttpErrorPrefix + IntToString(s1), HttpErrorPrefix + IntToString(s2);
    assert t1[|HttpErrorPrefix|..] == IntToString(s1);
    assert t2[|HttpErrorPrefix|..] == IntToString(s2);
    IntToStringInjective(s1, s2);
  }

  /** A 2xx response with a `chunks` array is answered with the query quoted
      and the formatted chunks, or "No relevant context found" when there are
      none. */
  lemma ContextReplyFor(query: string, status: int, cs: seq<Chunk>)
    requires IsOk(status)
    ensures HandleToolCall(query, Response(status, Chunks(cs))) ==
            ToolReply([TextContent(ContextReply(query, if cs == [] then NoContext else FormatChunks(cs)))])
  {
    NoContextIffEmpty(status, cs);
  }

  /** The context reply starts with the fixed header around the query, so it
      is never confused with one of the three failure messages. */
  lemma ContextReplyDistinct(query: string, content: string)
    ensures ContextReply(query, content) != RetrievalFailed
    ensures ContextReply(query, content) != QuotaExceeded
    ensures !StartsWith(ContextReply(query, content), HttpErrorPrefix)
  {
    var r := ContextReply(query, content);
    assert r[0] == 'C';
    assert RetrievalFailed[0] == 'F';
    assert QuotaExceeded[0] == 'E';
    assert HttpErrorPrefix[0] == 'F';
  }

  /** Two chunks, the second without a source, through the whole handler. */
  lemma TwoChunksExample(query: string, status: int)
    requires IsOk(status)
    ensures HandleToolCall(query, Response(status, Chunks([Chunk("A", Some("doc1")), Chunk("B", None)])))
            == ToolReply([TextContent("Context for \"" + query + "\":\n\n" + "A\nSource: doc1" + "\n\n" + "B\nSource: Unknown")])
  {
    var c0, c1 := Chunk("A", Some("doc1")), Chunk("B", None);
    assert [c0, c1] == [c0] + [c1];
    FormatAppend([c0], [c1]);
    FormatSingle(c0);
    FormatSingle(c1);
    assert RenderChunk(c0) == "A\nSource: doc1";
    assert RenderChunk(c1) == "B\nSource: Unknown";
    ContextReplyFor(query, status, [c0, c1]);
    var head := "Context for \"" + query + "\":\n\n";
    assert head + ("A\nSource: doc1" + "\n\n" + "B\nSource: Unknown")
        == head + "A\nSource: doc1" + "\n\n" + "B\nSource: Unknown";
  }

  /** An empty `chunks` array through the whole handler. */
  lemma NoChunksExample(query: string, status: int)
    requires IsOk(status)
    ensures HandleToolCall(query, Response(status, Chunks([])))
            == ToolReply([TextContent("Context for \"" + query + "\":\n\n" + "No relevant context found")])
  {
    ContextReplyFor(query, status, []);
  }
}
