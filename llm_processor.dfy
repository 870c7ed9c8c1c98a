/** The single entry point through which every stage talks to the model:
    the system prompt comes from the prompt manager, the request text is the
    stage's content with its optional context, and the reply text and token
    count come back from the Gemini client. */
module Llm {
  import opened Wrappers
  import opened Json
  import opened Py
  import Text
  import Prompts

  // ---------------------------------------------------------------------
  // The Gemini client

  /** One `generate(prompt, system_instruction, temperature)` request. */
  datatype Request = Request(prompt: string, systemInstruction: string, temperature: real)

  /** What the service finally answers a request with, after the client's
      retries: the response text and, when the response carries usage
      metadata, its total token count; or the error of the last attempt. */
  datatype Reply = Reply(text: string, tokenCount: Option<int>) | Failure(message: string)

  /** The model service as the program sees it: its answer to the n-th
      request (counting from 0) of the process. */
  type Service = (Request, nat) -> Reply

  /** `GeminiClient`: every request it sends is logged, and
      `last_token_count` keeps the count of the last response that had
      one. */
  class GeminiClient {
    const service: Service
    var requests: seq<Request>
    var lastTokenCount: int

    constructor(service: Service)
      ensures this.service == service && requests == [] && lastTokenCount == 0
    {
      this.service := service;
      requests := [];
      lastTokenCount := 0;
    }

    /** The answer the next request gets. */
    function NextReply(req: Request): Reply
      reads this
    {
      service(req, |requests|)
    }

    /** `generate(prompt, system_instruction, temperature)`: the response
        text, or the error raised once the retries are spent. */
    method Generate(prompt: string, systemInstruction: string, temperature: real) returns (r: Result<string>)
      modifies this`requests, this`lastTokenCount
      ensures var req := Request(prompt, systemInstruction, temperature);
        var reply := old(NextReply(req));
        && requests == old(requests) + [req]
        && (reply.Failure? ==> r == Err(Error(GenerationError, reply.message)) && lastTokenCount == old(lastTokenCount))
        && (reply.Reply? ==> r == Ok(reply.text) && lastTokenCount == reply.tokenCount.GetOr(old(lastTokenCount)))
    {
      var req := Request(prompt, systemInstruction, temperature);
      var reply := NextReply(req);
      requests := requests + [req];
      if reply.Failure? {
        return Err(Error(GenerationError, reply.message));
      }
      if reply.tokenCount.Some? {
        lastTokenCount := reply.tokenCount.value;
      }
      return Ok(reply.text);
    }
  }

  // ---------------------------------------------------------------------
  // _build_prompt

  /** A context heading: `## ` and the key with '_' turned into spaces,
      title-cased. */
  function Heading(key: string): string {
    "## " + Text.Title(Text.ReplaceChar(key, '_', ' '))
  }

  /** The context entries `_build_prompt` keeps: those with a truthy
      value, in mapping order. */
  function Kept(ctx: Fields): (kept: seq<(string, Json)>)
    ensures forall j :: 0 <= j < |kept| ==> Truthy(kept[j].1)
    decreases ctx
  {
    if ctx.NoFields? then []
    else if Truthy(ctx.val) then [(ctx.key, ctx.val)] + Kept(ctx.rest)
    else Kept(ctx.rest)
  }

  /** The parts the context loop appends: heading, `str(value)` and an
      empty line for every entry with a truthy value. */
  function ContextParts(codec: Codec, ctx: Fields): seq<string>
    decreases ctx
  {
    if ctx.NoFields? then []
    else if Truthy(ctx.val) then [Heading(ctx.key), Str(codec, ctx.val), ""] + ContextParts(codec, ctx.rest)
    else ContextParts(codec, ctx.rest)
  }

  /** The heading of the main content. */
  const MainHeading := "## Main Content"

  /** `_build_prompt(user_content, extra_context)`. */
  function PromptOf(codec: Codec, userContent: string, extra: Option<Fields>): string {
    if extra.None? || extra.value.NoFields? then userContent
    else Text.Join("\n", ContextParts(codec, extra.value) + [MainHeading, userContent])
  }

  /** Each kept entry gives three consecutive parts, in order: its heading,
      its value, an empty line. */
  lemma {:induction false} ContextPartsLayout(codec: Codec, ctx: Fields)
    ensures var parts := ContextParts(codec, ctx);
      var kept := Kept(ctx);
      && |parts| == 3 * |kept|
      && forall j :: 0 <= j < |kept| ==>
           parts[3 * j] == Heading(kept[j].0) && parts[3 * j + 1] == Str(codec, kept[j].1) && parts[3 * j + 2] == ""
    decreases ctx
  {
    if ctx.Field? {
      ContextPartsLayout(codec, ctx.rest);
      if Truthy(ctx.val) {
        var parts := ContextParts(codec, ctx);
        var rest := ContextParts(codec, ctx.rest);
        var kept := Kept(ctx);
        forall j | 0 <= j < |kept|
          ensures parts[3 * j] == Heading(kept[j].0) && parts[3 * j + 1] == Str(codec, kept[j].1) && parts[3 * j + 2] == ""
        {
          if j > 0 {
            assert kept[j] == Kept(ctx.rest)[j - 1];
            assert parts[3 * j] == rest[3 * (j - 1)];
            assert parts[3 * j + 1] == rest[3 * (j - 1) + 1];
            assert parts[3 * j + 2] == rest[3 * (j - 1) + 2];
          }
        }
      }
    }
  }

  /** Without context, or with an empty one, the prompt is the content
      itself; with a context, the kept entries come first and the content
      comes last under `## Main Content`. */
  lemma PromptLayout(codec: Codec, userContent: string, extra: Option<Fields>)
    ensures extra.None? || extra.value.NoFields? ==> PromptOf(codec, userContent, extra) == userContent
    ensures extra.Some? && extra.value.Field? && Kept(extra.value) == [] ==>
      PromptOf(codec, userContent, extra) == MainHeading + "\n" + userContent
    ensures extra.Some? && extra.value.Field? && Kept(extra.value) != [] ==>
      PromptOf(codec, userContent, extra) ==
        Text.Join("\n", ContextParts(codec, extra.value)) + "\n" + MainHeading + "\n" + userContent
  {
    if extra.Some? && extra.value.Field? {
      var parts := ContextParts(codec, extra.value);
      ContextPartsLayout(codec, extra.value);
      var tail := [MainHeading, userContent];
      Text.JoinPair("\n", MainHeading, userContent);
      if Kept(extra.value) == [] {
        assert parts + tail == tail;
      } else {
        Text.JoinAppend("\n", parts, tail);
      }
    }
  }

  /** The loop of `_build_prompt`: the parts of the kept entries, then the
      main content, joined by newlines. */
  method BuildPrompt(codec: Codec, userContent: string, extra: Option<Fields>) returns (prompt: string)
    ensures prompt == PromptOf(codec, userContent, extra)
  {
    if extra.None? || extra.value.NoFields? {
      return userContent;
    }
    var parts: seq<string> := [];
    var rest := extra.value;
    while rest.Field?
      invariant parts + ContextParts(codec, rest) == ContextParts(codec, extra.value)
      decreases rest
    {
      if Truthy(rest.val) {
        parts := parts + [Heading(rest.key)];
        parts := parts + [Str(codec, rest.val)];
        parts := parts + [""];
      }
      rest := rest.rest;
    }
    assert parts == ContextParts(codec, extra.value);
    parts := parts + [MainHeading];
    parts := parts + [userContent];
    assert parts == ContextParts(codec, extra.value) + [MainHeading, userContent];
    return Text.Join("\n", parts);
  }

  // ---------------------------------------------------------------------
  // process

  /** `LLMResult`. */
  datatype LlmResult = LlmResult(content: string, tokensUsed: int, stage: string, promptSource: string)

  /** The default temperature of `process`. */
  const DefaultTemperature: real := 0.7

  /** The request `process` sends at the default temperature, once the
      prompt has resolved to `info`. */
  function RequestFor(codec: Codec, info: Prompts.PromptInfo, userContent: string, extra: Option<Fields>): Request {
    Request(PromptOf(codec, userContent, extra), info.content, DefaultTemperature)
  }

  /** What `process` returns for the reply it got: the generation error,
      or the text with the client's token count after the call, which is
      the previous count when the reply carries none. */
  function Answered(reply: Reply, lastCount: int, stageName: string, info: Prompts.PromptInfo): (r: Result<LlmResult>)
    ensures reply.Failure? <==> r.Err?
    ensures r.Err? ==> r.error == Error(GenerationError, reply.message)
    ensures r.Ok? ==>
      && r.value.content == reply.text && r.value.tokensUsed == reply.tokenCount.GetOr(lastCount)
      && r.value.stage == stageName && r.value.promptSource == info.source.Name()
  {
    match reply
    case Failure(m) => Err(Error(GenerationError, m))
    case Reply(text, count) => Ok(LlmResult(text, count.GetOr(lastCount), stageName, info.source.Name()))
  }

  /** `LLMProcessor`: resolves the stage's system prompt, builds the request
      and sends it. */
  class LlmProcessor {
    const client: GeminiClient
    const prompts: Prompts.PromptManager
    const codec: Codec

    constructor(client: GeminiClient, prompts: Prompts.PromptManager, codec: Codec)
      ensures this.client == client && this.prompts == prompts && this.codec == codec
    {
      this.client := client;
      this.prompts := prompts;
      this.codec := codec;
    }

    /** `process(stage_name, user_content, extra_context, temperature)`. A
        prompt that cannot be resolved raises before any request is sent;
        otherwise exactly one request goes out, carrying the built prompt
        and the resolved prompt's text as system instruction, and the
        result reports the reply, the client's token count after the call
        and the prompt's source. */
    method Process(stageName: string, userContent: string, extra: Option<Fields>, temperature: real)
      returns (r: Result<LlmResult>)
      modifies prompts`cache, client`requests, client`lastTokenCount
      ensures prompts.cache == Prompts.Remember(old(prompts.cache), stageName, old(prompts.Current(stageName)))
      ensures forall q :: prompts.Current(q) == old(prompts.Current(q))
      ensures old(prompts.Current(stageName)).Err? ==>
        r == Err(old(prompts.Current(stageName)).error)
        && client.requests == old(client.requests) && client.lastTokenCount == old(client.lastTokenCount)
      ensures old(prompts.Current(stageName)).Ok? ==>
        var info := old(prompts.Current(stageName)).value;
        var req := Request(PromptOf(codec, userContent, extra), info.content, temperature);
        var reply := old(client.NextReply(req));
        && client.requests == old(client.requests) + [req]
        && (reply.Failure? ==> r == Err(Error(GenerationError, reply.message))
                               && client.lastTokenCount == old(client.lastTokenCount))
        && (reply.Reply? ==> client.lastTokenCount == reply.tokenCount.GetOr(old(client.lastTokenCount))
                             && r == Ok(LlmResult(reply.text, client.lastTokenCount, stageName, info.source.Name())))
    {
      var info :- prompts.GetPromptInfo(stageName);
      var fullPrompt := BuildPrompt(codec, userContent, extra);
      var response :- client.Generate(fullPrompt, info.content, temperature);
      return Ok(LlmResult(response, client.lastTokenCount, stageName, info.source.Name()));
    }
  }
}
