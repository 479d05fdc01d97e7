/** The retrieval call `makeLuneRequest`: how one HTTP outcome of the
    `/chat/get_chunks_from_lunes` endpoint is normalised into the result the
    tool handler consumes. The request itself (URL, headers, JSON body) is
    not modelled: the outcome of `fetch` and of `response.json()` is an input. */
module LuneClient {
  import opened Wrappers
  import opened Text

  /** One retrieved passage: `{content: string, source?: string}`. */
  datatype Chunk = Chunk(content: string, source: Option<string>)

  /** The parsed body of a 2xx response. `ChunksMissing` covers a `chunks`
      field that is absent, falsy or not an array; `Unparsable` a body on
      which `response.json()` throws. */
  datatype Body = Unparsable | ChunksMissing | Chunks(chunks: seq<Chunk>)

  /** What `fetch` produced: a rejected promise, or a response with its status. */
  datatype HttpOutcome = NetworkError | Response(status: int, body: Body)

  /** `{content: string; statusCode?: number}` */
  datatype LuneResult = LuneResult(content: string, statusCode: Option<int>)

  const SourceSeparator := "\nSource: "
  const ChunkSeparator := "\n\n"
  const UnknownSource := "Unknown"
  const NoContext := "No relevant context found"

  /** `response.ok` */
  predicate IsOk(status: int)
  {
    200 <= status <= 299
  }

  /** `chunk.source || 'Unknown'`: an absent or empty source reads "Unknown". */
  function SourceLabel(source: Option<string>): string
  {
    if source.Some? && source.value != "" then source.value else UnknownSource
  }

  /** The template `${chunk.content}\nSource: ${chunk.source || 'Unknown'}`. */
  function RenderChunk(c: Chunk): string
  {
    c.content + SourceSeparator + SourceLabel(c.source)
  }

  /** `chunks.map(render)` */
  function RenderAll(cs: seq<Chunk>): (rs: seq<string>)
    ensures |rs| == |cs|
    ensures forall i :: 0 <= i < |cs| ==> rs[i] == RenderChunk(cs[i])
  {
    if cs == [] then [] else [RenderChunk(cs[0])] + RenderAll(cs[1..])
  }

  /** `chunks.map(render).join('\n\n')` */
  function FormatChunks(cs: seq<Chunk>): string
  {
    Join(RenderAll(cs), ChunkSeparator)
  }

  /** The whole of `makeLuneRequest` after the request is sent. A non-ok
      response becomes `{content: "", statusCode: status}` without its body
      being read; a network failure, an unparsable body and a missing
      `chunks` array are caught and become `null`; otherwise the formatted
      chunks, or "No relevant context found" when they format to nothing. */
  function MakeLuneRequest(outcome: HttpOutcome): (r: Option<LuneResult>)
    ensures r.None? <==>
      outcome.NetworkError? || (IsOk(outcome.status) && !outcome.body.Chunks?)
    ensures r.Some? && r.value.statusCode.Some? <==>
      outcome.Response? && !IsOk(outcome.status)
    ensures r.Some? && r.value.statusCode.Some? ==>
      r.value.statusCode.value == outcome.status && r.value.content == ""
    ensures r.Some? && r.value.statusCode.None? ==> r.value.content != ""
  {
    match outcome
    case NetworkError => None
    case Response(status, body) =>
      if !IsOk(status) then Some(LuneResult("", Some(status)))
      else match body
        case Unparsable => None
        case ChunksMissing => None
        case Chunks(cs) =>
          var formatted := FormatChunks(cs);
          Some(LuneResult(if formatted == "" then NoContext else formatted, None))
  }

  /** A non-ok response is normalised the same way whatever its body. */
  lemma NotOkIgnoresBody(status: int, b1: Body, b2: Body)
    requires !IsOk(status)
    ensures MakeLuneRequest(Response(status, b1)) == MakeLuneRequest(Response(status, b2))
            == Some(LuneResult("", Some(status)))
  {
  }

  /** Formatting two runs of chunks one after the other is formatting each run
      and putting one blank line between them: the chunks keep the order in
      which the API returned them. */
  lemma FormatAppend(a: seq<Chunk>, b: seq<Chunk>)
    requires a != [] && b != []
    ensures FormatChunks(a + b) == FormatChunks(a) + ChunkSeparator + FormatChunks(b)
  {
    assert RenderAll(a + b) == RenderAll(a) + RenderAll(b);
    JoinAppend(RenderAll(a), RenderAll(b), ChunkSeparator);
  }

  /** One chunk formats to exactly its own rendering. */
  lemma FormatSingle(c: Chunk)
    ensures FormatChunks([c]) == RenderChunk(c)
    ensures FormatChunks([c]) == c.content + "\nSource: " + SourceLabel(c.source)
  {
    assert RenderAll([c]) == [RenderChunk(c)];
  }

  /** Every formatted non-empty list of chunks contains a line break. */
  lemma {:induction false} FormatHasNewline(cs: seq<Chunk>)
    requires cs != []
    ensures '\n' in FormatChunks(cs)
  {
    var r := RenderChunk(cs[0]);
    assert r[|cs[0].content|] == '\n';
    if |cs| == 1 {
      FormatSingle(cs[0]);
    } else {
      assert cs == [cs[0]] + cs[1..];
      FormatAppend([cs[0]], cs[1..]);
      FormatSingle(cs[0]);
      assert FormatChunks(cs)[|cs[0].content|] == '\n';
    }
  }

  /** The substitution: a 2xx response with a `chunks` array yields
      "No relevant context found" exactly when the array is empty, and
      otherwise the formatted chunks unchanged. */
  lemma NoContextIffEmpty(status: int, cs: seq<Chunk>)
    requires IsOk(status)
    ensures MakeLuneRequest(Response(status, Chunks(cs))) ==
            Some(LuneResult(if cs == [] then NoContext else FormatChunks(cs), None))
    ensures MakeLuneRequest(Response(status, Chunks(cs))).value.content == NoContext
            <==> cs == []
  {
    if cs != [] {
      FormatHasNewline(cs);
      assert '\n' !in NoContext;
    }
  }

  /** Where the i-th chunk starts in the formatted text: after every earlier
      rendering and the blank line that follows each of them. */
  function Offset(cs: seq<Chunk>, i: nat): nat
    requires i <= |cs|
  {
    if i == 0 then 0 else Offset(cs, i - 1) + |RenderChunk(cs[i - 1])| + |ChunkSeparator|
  }

  lemma {:induction false} OffsetPrefix(cs: seq<Chunk>, k: nat, i: nat)
    requires i <= k <= |cs|
    ensures Offset(cs[..k], i) == Offset(cs, i)
  {
    if i > 0 {
      OffsetPrefix(cs, k, i - 1);
    }
  }

  lemma {:induction false} FormatLength(cs: seq<Chunk>)
    requires cs != []
    ensures |FormatChunks(cs)| + |ChunkSeparator| == Offset(cs, |cs|)
  {
    var n := |cs|;
    if n == 1 {
      FormatSingle(cs[0]);
    } else {
      var init := cs[..n - 1];
      assert cs == init + [cs[n - 1]];
      FormatAppend(init, [cs[n - 1]]);
      FormatSingle(cs[n - 1]);
      FormatLength(init);
      OffsetPrefix(cs, n - 1, n - 1);
    }
  }

  /** The formatted text of a non-empty list starts with the rendering of
      its first chunk, followed by a blank line when more chunks follow. */
  lemma FormatHead(cs: seq<Chunk>)
    requires cs != []
    ensures |RenderChunk(cs[0])| <= |FormatChunks(cs)|
    ensures FormatChunks(cs)[..|RenderChunk(cs[0])|] == RenderChunk(cs[0])
    ensures |cs| > 1 ==>
      |RenderChunk(cs[0])| + |ChunkSeparator| <= |FormatChunks(cs)| &&
      FormatChunks(cs)[|RenderChunk(cs[0])|..|RenderChunk(cs[0])| + |ChunkSeparator|] == ChunkSeparator
  {
    FormatSingle(cs[0]);
    if |cs| > 1 {
      assert cs == [cs[0]] + cs[1..];
      FormatAppend([cs[0]], cs[1..]);
    }
  }

  /** From the offset of chunk i on, the formatted text is the formatting of
      the chunks from i on. */
  lemma FormatSuffix(cs: seq<Chunk>, i: nat)
    requires i < |cs|
    ensures Offset(cs, i) <= |FormatChunks(cs)|
    ensures FormatChunks(cs)[Offset(cs, i)..] == FormatChunks(cs[i..])
  {
    if i > 0 {
      var before, from := cs[..i], cs[i..];
      assert cs == before + from;
      FormatAppend(before, from);
      FormatLength(before);
      OffsetPrefix(cs, i, i);
    }
  }

  /** Every chunk's rendering sits in the formatted text at the position
      determined by the chunks before it, followed by a blank line unless it
      is the last: no chunk is moved, dropped or merged. */
  lemma ChunkAt(cs: seq<Chunk>, i: nat)
    requires i < |cs|
    ensures Offset(cs, i) + |RenderChunk(cs[i])| <= |FormatChunks(cs)|
    ensures FormatChunks(cs)[Offset(cs, i)..Offset(cs, i) + |RenderChunk(cs[i])|] == RenderChunk(cs[i])
    ensures i + 1 < |cs| ==>
      Offset(cs, i + 1) <= |FormatChunks(cs)| &&
      FormatChunks(cs)[Offset(cs, i) + |RenderChunk(cs[i])|..Offset(cs, i + 1)] == ChunkSeparator
  {
    var f, start, r := FormatChunks(cs), Offset(cs, i), RenderChunk(cs[i]);
    FormatSuffix(cs, i);
    FormatHead(cs[i..]);
    assert cs[i..][0] == cs[i];
    assert f[start..start + |r|] == f[start..][..|r|];
    if i + 1 < |cs| {
      assert |cs[i..]| > 1;
      assert f[start + |r|..Offset(cs, i + 1)] == f[start..][|r|..|r| + |ChunkSeparator|];
    }
  }
}
