/**
  Call dispatch (insightai/models.py, lines 129-204): `llm_call` and `llm_stream`.

  A call resolves the agent's configuration, admits the provider only if it is in the
  closed provider table, invokes that provider's transport, applies the "SQL Generator"
  cleanup (blocking calls only), writes its own log record and returns the content.

  The provider transports and the log-and-call manager are outside this model: a
  transport is a function argument from provider and request to either the 7-tuple it
  returns or the exception it raises, and the effects of a call are reported as a trace
  of events (transport invocations and the call's own log writes) beside its outcome. What a
  streaming transport writes to the sink it receives is not part of the trace.
 */
module Dispatch {
  import opened Wrappers
  import opened LlmConfig
  import SqlCleanup
  import Scraper

  /** The keys of `provider_function_map`. */
  datatype Provider = Groq | OpenAI | Gemini

  function ProviderName(p: Provider): string {
    match p
    case Groq => "groq"
    case OpenAI => "openai"
    case Gemini => "gemini"
  }

  /** `provider in provider_function_map`: the table admits exactly three names. */
  function SupportedProvider(name: string): (p: Option<Provider>)
    ensures p.Some? <==> name == "groq" || name == "openai" || name == "gemini"
    ensures p.Some? ==> ProviderName(p.value) == name
  {
    if name == "groq" then Some(Groq)
    else if name == "openai" then Some(OpenAI)
    else if name == "gemini" then Some(Gemini)
    else None
  }

  /** Every table entry is admitted under its own name. */
  lemma ProviderTableRoundTrip(p: Provider)
    ensures SupportedProvider(ProviderName(p)) == Some(p)
  {
  }

  /** The log-and-call manager object a call receives. */
  datatype Sink = Sink(id: nat)

  /**
    The 7-tuple a transport returns: `(content, messages, prompt_tokens, completion_tokens,
    total_tokens, elapsed_time, tokens_per_second)`.
   */
  datatype Reply = Reply(
    content: string,
    messages: string,
    promptTokens: int,
    completionTokens: int,
    totalTokens: int,
    elapsedTime: real,
    tokensPerSecond: real)

  datatype TransportResult = Returned(reply: Reply) | Raised(error: string)

  /**
    The positional arguments a transport function receives, in the source's order:
    `llm_call(messages, model, temperature, max_tokens)` and
    `llm_stream(log_and_call_manager, chain_id, messages, model, temperature, max_tokens, tools)`.
   */
  datatype Request =
    | Blocking(messages: string, model: string, temperature: real, maxTokens: int)
    | Streaming(sink: Sink, chainId: Option<string>, messages: string, model: string,
                temperature: real, maxTokens: int, tools: Option<string>)

  /** A transport: the `llm_call`/`llm_stream` functions of the provider modules. */
  type Transport = (Provider, Request) -> TransportResult

  /** The arguments of `write_to_log`, in order. */
  datatype LogRecord = LogRecord(
    agent: Option<string>,
    chainId: Option<string>,
    timestamp: string,
    model: string,
    messages: string,
    content: string,
    promptTokens: int,
    completionTokens: int,
    totalTokens: int,
    elapsedTime: real,
    tokensPerSecond: real)

  datatype Event =
    | TransportCalled(provider: Provider, request: Request)
    | LogWritten(sink: Sink, record: LogRecord)

  /** What the caller sees: the content, or the exception that escaped. */
  datatype Outcome =
    | Content(text: string)
    | UnsupportedProvider(provider: string)
    | TransportFailed(error: string)

  datatype Dispatched = Dispatched(outcome: Outcome, trace: seq<Event>)

  /** Number of log writes in a trace. */
  function LogWrites(trace: seq<Event>): nat
    decreases |trace|
  {
    if |trace| == 0 then 0
    else LogWrites(trace[..|trace| - 1]) + (if trace[|trace| - 1].LogWritten? then 1 else 0)
  }

  /** Number of transport invocations in a trace. */
  function TransportCalls(trace: seq<Event>): nat
    decreases |trace|
  {
    if |trace| == 0 then 0
    else TransportCalls(trace[..|trace| - 1]) + (if trace[|trace| - 1].TransportCalled? then 1 else 0)
  }

  function RecordOf(agent: Option<string>, chainId: Option<string>, timestamp: string,
                    model: string, reply: Reply, content: string): LogRecord
  {
    LogRecord(agent, chainId, timestamp, model, reply.messages, content,
              reply.promptTokens, reply.completionTokens, reply.totalTokens,
              reply.elapsedTime, reply.tokensPerSecond)
  }

  /**
    The common shape of both call kinds: an unknown provider raises before anything
    happens; otherwise the transport runs once, and only if it returns is exactly one
    record logged, to the call's sink, carrying the resolved model and the returned content.
   */
  predicate WellFormedCall(d: AgentDetails, sink: Sink, r: Dispatched) {
    && (SupportedProvider(d.provider).None? <==> r.outcome.UnsupportedProvider?)
    && (r.outcome.UnsupportedProvider? ==> r.outcome.provider == d.provider && r.trace == [])
    && (SupportedProvider(d.provider).Some? ==>
          |r.trace| >= 1 && r.trace[0].TransportCalled?
          && r.trace[0].provider == SupportedProvider(d.provider).value)
    && TransportCalls(r.trace) == (if r.outcome.UnsupportedProvider? then 0 else 1)
    && LogWrites(r.trace) == (if r.outcome.Content? then 1 else 0)
    && (r.outcome.Content? ==>
          && |r.trace| == 2 && r.trace[1].LogWritten? && r.trace[1].sink == sink
          && r.trace[1].record.model == d.model
          && r.trace[1].record.content == r.outcome.text)
  }

  /**
    The record `write_to_log` receives carries the call's own agent, chain id and timestamp,
    and the echoed messages, token counts and timings of the transport's reply.
   */
  predicate LogsReply(rec: LogRecord, agent: Option<string>, chainId: Option<string>, timestamp: string, reply: Reply) {
    && rec.agent == agent && rec.chainId == chainId && rec.timestamp == timestamp
    && rec.messages == reply.messages
    && rec.promptTokens == reply.promptTokens && rec.completionTokens == reply.completionTokens
    && rec.totalTokens == reply.totalTokens
    && rec.elapsedTime == reply.elapsedTime && rec.tokensPerSecond == reply.tokensPerSecond
  }

  /**
    How a call's outcome follows the transport's result for an admitted provider `p` and
    request `req`: a raised error escapes with nothing logged; a reply is logged once.
   */
  predicate FollowsTransport(p: Provider, req: Request, res: TransportResult, agent: Option<string>,
                             chainId: Option<string>, timestamp: string, r: Dispatched) {
    && (res.Raised? ==> r == Dispatched(TransportFailed(res.error), [TransportCalled(p, req)]))
    && (res.Returned? ==>
          && r.outcome.Content? && |r.trace| == 2 && r.trace[1].LogWritten?
          && LogsReply(r.trace[1].record, agent, chainId, timestamp, res.reply))
  }

  /** `llm_call`: a blocking call. */
  function LlmCall(src: Sources, sink: Sink, messages: string, agent: Option<string>,
                   chainId: Option<string>, timestamp: string, transport: Transport): (r: Dispatched)
    ensures WellFormedCall(Init(src, agent), sink, r)
    ensures SupportedProvider(Init(src, agent).provider).Some? ==>
      var d := Init(src, agent);
      r.trace[0].request == Blocking(messages, d.model, d.temperature, d.maxTokens)
    ensures SupportedProvider(Init(src, agent).provider).Some? ==>
      var d := Init(src, agent);
      var p := SupportedProvider(d.provider).value;
      var req := Blocking(messages, d.model, d.temperature, d.maxTokens);
      FollowsTransport(p, req, transport(p, req), agent, chainId, timestamp, r)
  {
    var d := Init(src, agent);
    match SupportedProvider(d.provider)
    case None => Dispatched(UnsupportedProvider(d.provider), [])
    case Some(p) =>
      var request := Blocking(messages, d.model, d.temperature, d.maxTokens);
      match transport(p, request)
      case Raised(e) => Dispatched(TransportFailed(e), [TransportCalled(p, request)])
      case Returned(reply) =>
        var content := if agent == Some("SQL Generator") then SqlCleanup.Clean(reply.content) else reply.content;
        var record := RecordOf(agent, chainId, timestamp, d.model, reply, content);
        Dispatched(Content(content), [TransportCalled(p, request), LogWritten(sink, record)])
  }

  /** `llm_stream`: a streaming call; the transport also gets the sink, the chain id and the tools. */
  function LlmStream(src: Sources, sink: Sink, messages: string, agent: Option<string>,
                     chainId: Option<string>, tools: Option<string>, timestamp: string,
                     transport: Transport): (r: Dispatched)
    ensures WellFormedCall(Init(src, agent), sink, r)
    ensures SupportedProvider(Init(src, agent).provider).Some? ==>
      var d := Init(src, agent);
      r.trace[0].request == Streaming(sink, chainId, messages, d.model, d.temperature, d.maxTokens, tools)
    ensures SupportedProvider(Init(src, agent).provider).Some? ==>
      var d := Init(src, agent);
      var p := SupportedProvider(d.provider).value;
      var req := Streaming(sink, chainId, messages, d.model, d.temperature, d.maxTokens, tools);
      FollowsTransport(p, req, transport(p, req), agent, chainId, timestamp, r)
  {
    var d := Init(src, agent);
    match SupportedProvider(d.provider)
    case None => Dispatched(UnsupportedProvider(d.provider), [])
    case Some(p) =>
      var request := Streaming(sink, chainId, messages, d.model, d.temperature, d.maxTokens, tools);
      match transport(p, request)
      case Raised(e) => Dispatched(TransportFailed(e), [TransportCalled(p, request)])
      case Returned(reply) =>
        var record := RecordOf(agent, chainId, timestamp, d.model, reply, reply.content);
        Dispatched(Content(reply.content), [TransportCalled(p, request), LogWritten(sink, record)])
  }

  /** The transport's reply to the request a blocking call makes, when the provider is admitted. */
  function BlockingReply(src: Sources, messages: string, agent: Option<string>, transport: Transport): Option<TransportResult> {
    var d := Init(src, agent);
    match SupportedProvider(d.provider)
    case None => None
    case Some(p) => Some(transport(p, Blocking(messages, d.model, d.temperature, d.maxTokens)))
  }

  /**
    Content handling of a blocking call: the "SQL Generator" gets the cleaned text, every
    other agent exactly what the transport returned.
   */
  lemma BlockingContent(src: Sources, sink: Sink, messages: string, agent: Option<string>,
                        chainId: Option<string>, timestamp: string, transport: Transport)
    ensures var reply := BlockingReply(src, messages, agent, transport);
            reply.Some? && reply.value.Returned? ==>
              var raw := reply.value.reply.content;
              var r := LlmCall(src, sink, messages, agent, chainId, timestamp, transport);
              && r.outcome == Content(if agent == Some("SQL Generator") then SqlCleanup.Clean(raw) else raw)
              && r.trace[1].record.content == r.outcome.text
  {
  }

  /** A streaming call never alters the content: it returns and logs what the transport returned. */
  lemma StreamingContentUntouched(src: Sources, sink: Sink, messages: string, agent: Option<string>,
                                  chainId: Option<string>, tools: Option<string>, timestamp: string,
                                  transport: Transport)
    ensures var d := Init(src, agent);
            SupportedProvider(d.provider).Some? ==>
              var result := transport(SupportedProvider(d.provider).value,
                                      Streaming(sink, chainId, messages, d.model, d.temperature, d.maxTokens, tools));
              var r := LlmStream(src, sink, messages, agent, chainId, tools, timestamp, transport);
              result.Returned? ==> r.outcome == Content(result.reply.content)
  {
  }

  /**
    The provider name the catalog builder produces for "Google AI Studio" is not in the
    table, so a configuration naming it can never be dispatched.
   */
  lemma GoogleGeminiUnsupported(src: Sources, sink: Sink, messages: string, agent: Option<string>,
                                chainId: Option<string>, timestamp: string, transport: Transport)
    ensures Init(src, agent).provider == "google-gemini" ==>
            LlmCall(src, sink, messages, agent, chainId, timestamp, transport)
            == Dispatched(UnsupportedProvider("google-gemini"), [])
  {
  }

  /** The provider chosen by the key priority is always one the table admits. */
  lemma BestProviderDispatchable(keys: ApiKeys)
    ensures SupportedProvider(BestProvider(keys).provider).Some?
  {
  }

  /**
    Of the three providers the catalog builder names, the configuration table admits
    "openai" and "groq" but not "google-gemini".
   */
  lemma CatalogProvidersDispatchable()
    ensures SupportedProvider(Scraper.NormaliseProvider("OpenAI")) == Some(OpenAI)
    ensures SupportedProvider(Scraper.NormaliseProvider("Groq")) == Some(Groq)
    ensures SupportedProvider(Scraper.NormaliseProvider("Google AI Studio")).None?
  {
    Scraper.OpenAIName();
    Scraper.GroqName();
    Scraper.GoogleAiStudioName();
  }
}
