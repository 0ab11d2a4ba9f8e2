/** The language-model service: which provider it settles on at start-up,
    when a reply counts as an error, how `generate` falls back from Gemini,
    and the OpenRouter retry with the second free model. Provider replies
    and HTTP answers are inputs. */
module AiService {
  import opened Wrappers
  import opened Text

  /** The free OpenRouter models, in order. */
  const FREE_MODELS: seq<string> := [
    "deepseek/deepseek-chat",
    "meta-llama/llama-3.1-8b-instruct:free",
    "qwen/qwen-2-7b-instruct:free",
    "mistralai/mistral-7b-instruct:free"
  ]

  /** The OpenRouter model tried when the configured one answers non-200. */
  const FALLBACK_MODEL: string := FREE_MODELS[1]

  const AI_ERROR: string := "AI Error:"
  const THINKING_ERROR: string := "Thinking Error:"
  const STOPWATCH: string := "\U{23F1}\U{FE0F}"
  const GROQ_UNAVAILABLE: string := "Groq not available."
  const OPENROUTER_UNCONFIGURED: string := "OpenRouter not configured."
  const GEMINI_UNCONFIGURED: string := "Gemini is not configured."
  const CROSS_MARK: string := "\U{274C}"

  /** The prefixes that mark a reply as one of the service's own errors. */
  const ERROR_PREFIXES: seq<string> := [
    AI_ERROR, THINKING_ERROR, STOPWATCH, GROQ_UNAVAILABLE,
    OPENROUTER_UNCONFIGURED, GEMINI_UNCONFIGURED, CROSS_MARK
  ]

  const TIMED_OUT: string := STOPWATCH + TIMED_OUT_TEXT
  const TIMED_OUT_TEXT: string := " Request timed out. Try again."
  const NOT_INITIALISED: string := CROSS_MARK + NOT_INITIALISED_TEXT
  const NOT_INITIALISED_TEXT: string :=
    " AI not initialized. Set GEMINI_API_KEY, OPENROUTER_API_KEY, or GROQ_API_KEY."
  const NO_PROVIDER: string := "AI provider not found."

  /** A provider's reply: a string, or `None` for any other value. */
  type Reply = Option<string>

  /** `_is_error_response`: anything that is not a string, a blank string,
      or a string whose stripped form starts with an error prefix. */
  predicate IsErrorResponse(r: Reply)
  {
    r.None? || Strip(r.value) == [] || StartsWithAny(Strip(r.value), ERROR_PREFIXES)
  }

  /** `s.startswith(prefixes)` for a tuple of prefixes. */
  predicate StartsWithAny(s: string, prefixes: seq<string>)
  {
    prefixes != [] && (StartsWith(s, prefixes[0]) || StartsWithAny(s, prefixes[1..]))
  }

  lemma {:induction false} StartsWithAnyAt(s: string, prefixes: seq<string>, k: nat)
    requires k < |prefixes| && StartsWith(s, prefixes[k])
    ensures StartsWithAny(s, prefixes)
    decreases k
  {
    if k > 0 {
      StartsWithAnyAt(s, prefixes[1..], k - 1);
    }
  }

  /** Whatever follows an error prefix, the reply is an error. */
  lemma StartsWithPrefixIsError(p: string, rest: string, k: nat)
    requires k < |ERROR_PREFIXES| && ERROR_PREFIXES[k] == p
    requires p != [] && !IsSpace(p[0]) && !IsSpace(p[|p| - 1])
    ensures IsErrorResponse(Some(p + rest))
  {
    assert (p + rest)[..|p|] == p;
    StripKeepsLeadingWord(p + rest, p);
    StartsWithAnyAt(Strip(p + rest), ERROR_PREFIXES, k);
  }

  lemma BarePrefixIsError(p: string, k: nat)
    requires k < |ERROR_PREFIXES| && ERROR_PREFIXES[k] == p
    requires p != [] && !IsSpace(p[0]) && !IsSpace(p[|p| - 1])
    ensures IsErrorResponse(Some(p))
  {
    assert p[..|p|] == p;
    StripKeepsLeadingWord(p, p);
    StartsWithAnyAt(Strip(p), ERROR_PREFIXES, k);
  }

  lemma StripOfTrimmed(s: string)
    requires s != [] && !IsSpace(s[0]) && !IsSpace(s[|s| - 1])
    ensures Strip(s) == s
  {
    assert StripLeft(s) == s;
  }

  /** The fixed failure messages are recognised as errors. */
  lemma FixedMessagesAreErrors()
    ensures IsErrorResponse(Some(NOT_INITIALISED))
    ensures IsErrorResponse(Some(TIMED_OUT))
  {
    StartsWithPrefixIsError(CROSS_MARK, NOT_INITIALISED_TEXT, 6);
    StartsWithPrefixIsError(STOPWATCH, TIMED_OUT_TEXT, 2);
  }

  /** A trimmed, non-empty answer without an error prefix is not an error;
      blank and non-string replies are. */
  lemma PlainAnswerIsNotError(answer: string)
    requires answer != [] && !IsSpace(answer[0]) && !IsSpace(answer[|answer| - 1])
    requires !StartsWithAny(answer, ERROR_PREFIXES)
    ensures !IsErrorResponse(Some(answer))
    ensures IsErrorResponse(None) && IsErrorResponse(Some(" "))
  {
    StripOfTrimmed(answer);
  }

  // ---------------------------------------------------------------- set-up

  datatype Provider = NoProvider | Gemini | OpenRouter | Groq

  /** What the environment offers: the raw `AI_PROVIDER` setting, which keys
      are set and non-empty, whether the SDKs are installed, and whether
      building their clients succeeds. */
  datatype Env = Env(
    aiProvider: string,
    geminiKey: bool, genaiInstalled: bool, geminiClientBuilds: bool,
    openrouterKey: bool,
    groqKey: bool, groqInstalled: bool, groqClientBuilds: bool)

  /** The Gemini client exists when the key is set and the SDK builds one. */
  predicate HasGeminiClient(env: Env)
  {
    env.geminiKey && env.genaiInstalled && env.geminiClientBuilds
  }

  /** Whether each provider's `_init_*` succeeds. */
  predicate Available(env: Env, p: Provider)
  {
    match p
    case Gemini => HasGeminiClient(env)
    case OpenRouter => env.openrouterKey
    case Groq => env.groqKey && env.groqInstalled && env.groqClientBuilds
    case NoProvider => false
  }

  /** The order in which providers are tried for a `preferred_provider`
      (stripped and lower-cased); anything unrecognised is auto mode. */
  function InitOrder(preferred: string): (order: seq<Provider>)
    ensures order != [] && NoProvider !in order
  {
    if preferred == "openrouter" || preferred == "or" then [OpenRouter, Groq, OpenRouter]
    else if preferred == "groq" then [Groq, OpenRouter]
    else [Gemini, Groq, OpenRouter]
  }

  /** The service state the start-up leaves behind. */
  datatype Setup = Setup(enabled: bool, provider: Provider, groqClient: bool)

  /** The first provider of `order` that is available. */
  function FirstAvailable(env: Env, order: seq<Provider>): (r: Option<Provider>)
    ensures r.Some? ==> r.value in order && Available(env, r.value)
    ensures r.None? <==> forall i :: 0 <= i < |order| ==> !Available(env, order[i])
  {
    if order == [] then None
    else if Available(env, order[0]) then Some(order[0])
    else FirstAvailable(env, order[1..])
  }

  lemma FirstAvailableOfThree(env: Env, a: Provider, b: Provider, c: Provider)
    ensures FirstAvailable(env, [a, b, c]) ==
      if Available(env, a) then Some(a)
      else if Available(env, b) then Some(b)
      else if Available(env, c) then Some(c)
      else None
  {
    assert [a, b, c][1..] == [b, c];
    FirstAvailableOfTwo(env, b, c);
  }

  lemma FirstAvailableOfTwo(env: Env, a: Provider, b: Provider)
    ensures FirstAvailable(env, [a, b]) ==
      if Available(env, a) then Some(a)
      else if Available(env, b) then Some(b)
      else None
  {
    assert [a, b][1..] == [b];
    assert [b][1..] == [];
  }

  /** Reference start-up: the first available provider of the order is
      chosen, and the Groq client exists only when Groq was chosen. */
  function Selection(env: Env): Setup
  {
    Choose(env, InitOrder(Lower(Strip(env.aiProvider))))
  }

  /** The set-up trying the providers of `order`. */
  function Choose(env: Env, order: seq<Provider>): Setup
  {
    match FirstAvailable(env, order)
    case Some(p) => Setup(true, p, p == Groq)
    case None => Setup(false, NoProvider, false)
  }

  /** The service is enabled exactly when it has a provider, and it has one
      exactly when some provider of the order is available. */
  lemma SelectionEnablesNamedProvider(env: Env)
    ensures var s := Selection(env);
      && (s.enabled <==> s.provider != NoProvider)
      && (s.enabled <==> exists p :: p in InitOrder(Lower(Strip(env.aiProvider))) && Available(env, p))
      && (s.enabled ==> Available(env, s.provider))
  {
    var order := InitOrder(Lower(Strip(env.aiProvider)));
    if FirstAvailable(env, order).None? {
      forall p | p in order ensures !Available(env, p) {
        var i :| 0 <= i < |order| && order[i] == p;
      }
    }
  }

  /** Auto mode and `gemini` settle on Gemini whenever its client exists,
      and otherwise on Groq before OpenRouter. */
  lemma GeminiFirstThenGroq(env: Env)
    requires InitOrder(Lower(Strip(env.aiProvider))) == [Gemini, Groq, OpenRouter]
    ensures HasGeminiClient(env) ==> Selection(env).provider == Gemini
    ensures !HasGeminiClient(env) && Available(env, Groq) ==> Selection(env).provider == Groq
    ensures !HasGeminiClient(env) && !Available(env, Groq) ==>
      Selection(env).enabled == env.openrouterKey
  {
    FirstAvailableOfThree(env, Gemini, Groq, OpenRouter);
  }

  /** `openrouter` tries OpenRouter, then Groq, and never Gemini. */
  lemma OpenRouterPreferred(env: Env)
    requires Lower(Strip(env.aiProvider)) == "openrouter"
    ensures Selection(env).provider != Gemini
    ensures env.openrouterKey ==> Selection(env).provider == OpenRouter
    ensures !env.openrouterKey ==> Selection(env).enabled == Available(env, Groq)
  {
    FirstAvailableOfThree(env, OpenRouter, Groq, OpenRouter);
  }

  /** Once Gemini is chosen, no Groq client was built. */
  lemma GeminiSetupHasNoGroqClient(env: Env)
    ensures Selection(env).provider == Gemini ==> !Selection(env).groqClient
  {
  }

  /** The service object; `_init_*` set its three fields step by step. */
  class Service {
    const env: Env
    var enabled: bool
    var provider: Provider
    var groqClient: bool

    function State(): Setup
      reads this
    {
      Setup(enabled, provider, groqClient)
    }

    /** Start-up: the chain for the preferred provider leaves exactly the
        reference selection. */
    constructor (e: Env)
      ensures env == e
      ensures State() == Selection(e)
    {
      env := e;
      enabled := false;
      provider := NoProvider;
      groqClient := false;
      new;
      var preferred := Lower(Strip(e.aiProvider));
      assert Selection(e) == Choose(e, InitOrder(preferred));
      if preferred == "gemini" || preferred == "google" {
        InitGeminiOrFallback();
      } else if preferred == "openrouter" || preferred == "or" {
        InitOpenRouterOrFallback();
      } else if preferred == "groq" {
        InitGroqOrFallback();
      } else {
        InitGeminiOrFallback();
      }
    }

    /** The settings no `_init_*` has touched yet. */
    predicate Untouched()
      reads this
    {
      State() == Setup(false, NoProvider, false)
    }

    method InitGemini() returns (ok: bool)
      modifies this
      ensures ok == Available(env, Gemini)
      ensures ok ==> enabled && provider == Gemini && groqClient == old(groqClient)
      ensures !ok ==> State() == old(State())
    {
      if env.geminiKey && HasGeminiClient(env) {
        enabled := true;
        provider := Gemini;
        ok := true;
      } else {
        ok := false;
      }
    }

    method InitOpenRouter() returns (ok: bool)
      modifies this
      ensures ok == Available(env, OpenRouter)
      ensures ok ==> enabled && provider == OpenRouter && groqClient == old(groqClient)
      ensures !ok ==> State() == old(State())
    {
      if env.openrouterKey {
        enabled := true;
        provider := OpenRouter;
        ok := true;
      } else {
        ok := false;
      }
    }

    method InitGroq() returns (ok: bool)
      modifies this
      ensures ok == Available(env, Groq)
      ensures ok ==> State() == Setup(true, Groq, true)
      ensures !ok ==> State() == old(State())
    {
      if env.groqKey && env.groqInstalled && env.groqClientBuilds {
        groqClient := true;
        enabled := true;
        provider := Groq;
        ok := true;
      } else {
        ok := false;
      }
    }

    method InitGeminiOrFallback()
      requires Untouched()
      modifies this
      ensures State() == Choose(env, [Gemini, Groq, OpenRouter])
    {
      FirstAvailableOfThree(env, Gemini, Groq, OpenRouter);
      var ok := InitGemini();
      if ok {
        return;
      }
      ok := InitGroq();
      if ok {
        return;
      }
      ok := InitOpenRouter();
    }

    method InitOpenRouterOrFallback()
      requires Untouched()
      modifies this
      ensures State() == Choose(env, [OpenRouter, Groq, OpenRouter])
    {
      FirstAvailableOfThree(env, OpenRouter, Groq, OpenRouter);
      var ok := InitOpenRouter();
      if ok {
        return;
      }
      InitGroqThenOpenRouter();
    }

    method InitGroqOrFallback()
      requires Untouched()
      modifies this
      ensures State() == Choose(env, [Groq, OpenRouter])
    {
      FirstAvailableOfTwo(env, Groq, OpenRouter);
      InitGroqThenOpenRouter();
    }

    /** The body of `_init_groq_or_fallback`. */
    method InitGroqThenOpenRouter()
      requires Untouched()
      modifies this
      ensures Available(env, Groq) ==> State() == Setup(true, Groq, true)
      ensures !Available(env, Groq) && Available(env, OpenRouter) ==> State() == Setup(true, OpenRouter, false)
      ensures !Available(env, Groq) && !Available(env, OpenRouter) ==> Untouched()
    {
      var ok := InitGroq();
      if ok {
        return;
      }
      ok := InitOpenRouter();
    }
  }

  // ------------------------------------------------------- provider calls

  /** How one SDK call ends. */
  datatype CallOutcome = Answer(reply: Reply) | CallTimedOut | CallRaised(message: string)

  /** The service's `AI Error: …` and `Thinking Error: …` texts. */
  function AiError(detail: string): string
  {
    AI_ERROR + (" " + detail)
  }

  function ThinkingError(detail: string): string
  {
    THINKING_ERROR + (" " + detail)
  }

  lemma DetailedErrorsAreErrors(detail: string)
    ensures IsErrorResponse(Some(AiError(detail)))
    ensures IsErrorResponse(Some(ThinkingError(detail)))
  {
    StartsWithPrefixIsError(AI_ERROR, " " + detail, 0);
    StartsWithPrefixIsError(THINKING_ERROR, " " + detail, 1);
  }

  /** `generate_gemini` with the default model. */
  function GeminiReply(env: Env, outcome: CallOutcome): Reply
  {
    if !env.geminiKey then Some(GEMINI_UNCONFIGURED)
    else if !HasGeminiClient(env) then Some(AiError("Gemini SDK client unavailable."))
    else match outcome
      case Answer(r) => r
      case CallTimedOut => Some(TIMED_OUT)
      case CallRaised(m) => Some(AiError(m))
  }

  /** Gemini's reply is its answer when it has a client and answers;
      otherwise it is an error reply. */
  lemma GeminiFailuresAreErrors(env: Env, outcome: CallOutcome)
    ensures HasGeminiClient(env) && outcome.Answer? ==> GeminiReply(env, outcome) == outcome.reply
    ensures !(HasGeminiClient(env) && outcome.Answer?) ==> IsErrorResponse(GeminiReply(env, outcome))
  {
    if !env.geminiKey {
      BarePrefixIsError(GEMINI_UNCONFIGURED, 5);
    } else if !HasGeminiClient(env) {
      DetailedErrorsAreErrors("Gemini SDK client unavailable.");
    } else if outcome.CallTimedOut? {
      FixedMessagesAreErrors();
    } else if outcome.CallRaised? {
      DetailedErrorsAreErrors(outcome.message);
    }
  }

  /** `generate_groq`: a timeout is one more exception here, with an empty
      message. */
  function GroqReply(groqClient: bool, outcome: CallOutcome): Reply
  {
    if !groqClient then Some(GROQ_UNAVAILABLE)
    else match outcome
      case Answer(r) => r
      case CallTimedOut => Some(ThinkingError(""))
      case CallRaised(m) => Some(ThinkingError(m))
  }

  /** Groq's reply is its answer when it has a client and answers;
      otherwise it is an error reply. */
  lemma GroqFailuresAreErrors(groqClient: bool, outcome: CallOutcome)
    ensures groqClient && outcome.Answer? ==> GroqReply(groqClient, outcome) == outcome.reply
    ensures !(groqClient && outcome.Answer?) ==> IsErrorResponse(GroqReply(groqClient, outcome))
  {
    if !groqClient {
      BarePrefixIsError(GROQ_UNAVAILABLE, 3);
    } else if outcome.CallTimedOut? {
      DetailedErrorsAreErrors("");
    } else if outcome.CallRaised? {
      DetailedErrorsAreErrors(outcome.message);
    }
  }

  /** How one OpenRouter request ends. */
  datatype HttpOutcome =
    | Ok(content: Reply)
    | NotOk(status: int, body: string)
    | HttpTimedOut
    | HttpRaised(message: string)

  /** The error text of a failed request, cut to 100 characters. */
  function BodyError(body: string): string
  {
    AiError(body[..Min(100, |body|)])
  }

  /** `generate_openrouter` AS WRITTEN, asking `model` (or the configured
      one) and retrying with the second free model whenever the model asked
      is the configured one. A request costs one unit of `fuel`; `None` means
      the fuel ran out first. The server's answer depends only on the model. */
  function OpenRouterAsWritten(env: Env, configured: string, model: Option<string>,
                               server: string -> HttpOutcome, fuel: nat): Option<Reply>
    decreases fuel
  {
    if !env.openrouterKey then Some(Some(OPENROUTER_UNCONFIGURED))
    else if fuel == 0 then None
    else
      var m := if model.Some? && model.value != [] then model.value else configured;
      match server(m)
      case Ok(c) => Some(c)
      case NotOk(_, body) =>
        if m == configured && |FREE_MODELS| > 1 then
          OpenRouterAsWritten(env, configured, Some(FALLBACK_MODEL), server, fuel - 1)
        else Some(Some(BodyError(body)))
      case HttpTimedOut => Some(Some(TIMED_OUT))
      case HttpRaised(msg) => Some(Some(AiError(msg)))
  }

  /** When the configured model is the fallback model and it keeps failing,
      the retry asks the same model again without bound: no amount of fuel
      yields an answer. */
  lemma {:induction false} OpenRouterRetryNeverEnds(env: Env, server: string -> HttpOutcome, fuel: nat)
    requires env.openrouterKey
    requires server(FALLBACK_MODEL).NotOk?
    ensures OpenRouterAsWritten(env, FALLBACK_MODEL, None, server, fuel).None?
    ensures OpenRouterAsWritten(env, FALLBACK_MODEL, Some(FALLBACK_MODEL), server, fuel).None?
    decreases fuel
  {
    if fuel > 0 {
      OpenRouterRetryNeverEnds(env, server, fuel - 1);
    }
  }

  /** One request to `m`, with no retry. */
  function OpenRouterOnce(m: string, server: string -> HttpOutcome): Reply
  {
    match server(m)
    case Ok(c) => c
    case NotOk(_, body) => Some(BodyError(body))
    case HttpTimedOut => Some(TIMED_OUT)
    case HttpRaised(msg) => Some(AiError(msg))
  }

  /** `generate_openrouter` as intended: a failing configured model is
      retried once with the fallback model, and that retry is final. It
      returns the reply and the models asked. */
  function OpenRouterReply(env: Env, configured: string, model: Option<string>,
                           server: string -> HttpOutcome): (r: (Reply, seq<string>))
    ensures !env.openrouterKey ==> r == (Some(OPENROUTER_UNCONFIGURED), [])
    ensures env.openrouterKey ==> 1 <= |r.1| <= 2
    ensures |r.1| == 2 ==> r.1[1] == FALLBACK_MODEL && server(r.1[0]).NotOk?
  {
    if !env.openrouterKey then (Some(OPENROUTER_UNCONFIGURED), [])
    else
      var m := if model.Some? && model.value != [] then model.value else configured;
      if server(m).NotOk? && m == configured && m != FALLBACK_MODEL then
        (OpenRouterOnce(FALLBACK_MODEL, server), [m, FALLBACK_MODEL])
      else (OpenRouterOnce(m, server), [m])
  }

  /** Except for the one configuration that loops, the intended retry gives
      exactly the reply of the code as written, which needs at most two
      requests. */
  lemma OpenRouterReplyAgrees(env: Env, configured: string, model: Option<string>,
                              server: string -> HttpOutcome, fuel: nat)
    requires configured != FALLBACK_MODEL
    requires fuel >= 2
    ensures OpenRouterAsWritten(env, configured, model, server, fuel) ==
      Some(OpenRouterReply(env, configured, model, server).0)
  {
  }

  // ------------------------------------------------------------- generate

  /** What `generate` answered and the providers it called, in order. */
  datatype Generated = Generated(text: Reply, called: seq<Provider>)

  /** The replies each provider would give to this prompt. */
  datatype Replies = Replies(gemini: Reply, groq: Reply, openrouter: Reply)

  function ReplyOf(p: Provider, rs: Replies): Reply
  {
    match p
    case Gemini => rs.gemini
    case Groq => rs.groq
    case OpenRouter => rs.openrouter
    case NoProvider => None
  }

  /** `generate` on a service in state `s`. */
  function Generate(s: Setup, openrouterKey: bool, rs: Replies): Generated
  {
    if !s.enabled then Generated(Some(NOT_INITIALISED), [])
    else match s.provider
      case Gemini =>
        if !IsErrorResponse(rs.gemini) then Generated(rs.gemini, [Gemini])
        else if s.groqClient && !IsErrorResponse(rs.groq) then Generated(rs.groq, [Gemini, Groq])
        else
          var tried := [Gemini] + (if s.groqClient then [Groq] else []);
          if openrouterKey && !IsErrorResponse(rs.openrouter) then Generated(rs.openrouter, tried + [OpenRouter])
          else Generated(rs.gemini, tried + (if openrouterKey then [OpenRouter] else []))
      case OpenRouter => Generated(rs.openrouter, [OpenRouter])
      case Groq => Generated(rs.groq, [Groq])
      case NoProvider => Generated(Some(NO_PROVIDER), [])
  }

  /** The providers the Gemini path may call, in order. */
  function GeminiChain(s: Setup, openrouterKey: bool): seq<Provider>
  {
    [Gemini] + ((if s.groqClient then [Groq] else []) + (if openrouterKey then [OpenRouter] else []))
  }

  /** The providers whose reply is an error. */
  function Failing(rs: Replies): (f: set<Provider>)
    ensures forall p :: p != NoProvider ==> (p in f <==> IsErrorResponse(ReplyOf(p, rs)))
  {
    set p | p in [Gemini, Groq, OpenRouter] && IsErrorResponse(ReplyOf(p, rs))
  }

  /** The position of the first provider of `chain` not in `failing`. */
  function FirstWorking(chain: seq<Provider>, failing: set<Provider>): (k: nat)
    ensures k <= |chain|
    ensures forall i :: 0 <= i < k ==> chain[i] in failing
    ensures k < |chain| ==> chain[k] !in failing
  {
    if chain == [] || chain[0] !in failing then 0
    else 1 + FirstWorking(chain[1..], failing)
  }

  /** A service that is not enabled answers its fixed message, itself an
      error reply, and calls no provider. */
  lemma DisabledCallsNoProvider(s: Setup, openrouterKey: bool, rs: Replies)
    requires !s.enabled
    ensures Generate(s, openrouterKey, rs) == Generated(Some(NOT_INITIALISED), [])
    ensures IsErrorResponse(Generate(s, openrouterKey, rs).text)
  {
    FixedMessagesAreErrors();
  }

  /** Reference fallback: call the providers of `chain` in order until one
      is not failing, and answer its reply; when all fail, answer `default`. */
  function Fallback(chain: seq<Provider>, rs: Replies, failing: set<Provider>, default: Reply): Generated
  {
    if chain == [] then Generated(default, [])
    else if chain[0] !in failing then Generated(ReplyOf(chain[0], rs), [chain[0]])
    else
      var g := Fallback(chain[1..], rs, failing, default);
      Generated(g.text, [chain[0]] + g.called)
  }

  lemma FallbackCons(p: Provider, rest: seq<Provider>, rs: Replies, failing: set<Provider>, default: Reply)
    ensures Fallback([p] + rest, rs, failing, default) ==
      if p !in failing then Generated(ReplyOf(p, rs), [p])
      else Generated(Fallback(rest, rs, failing, default).text, [p] + Fallback(rest, rs, failing, default).called)
  {
    assert ([p] + rest)[1..] == rest;
  }

  /** The fallback calls the chain up to its first working provider and
      answers that provider's reply. */
  lemma {:induction false} FallbackFindsWorking(chain: seq<Provider>, rs: Replies,
                                                failing: set<Provider>, default: Reply)
    requires FirstWorking(chain, failing) < |chain|
    ensures var k := FirstWorking(chain, failing);
      Fallback(chain, rs, failing, default) == Generated(ReplyOf(chain[k], rs), chain[..k + 1])
    decreases |chain|
  {
    if chain[0] in failing {
      var tail := chain[1..];
      FallbackFindsWorking(tail, rs, failing, default);
      var k := FirstWorking(tail, failing);
      assert [chain[0]] + tail[..k + 1] == chain[..k + 2];
    } else {
      assert chain[..1] == [chain[0]];
    }
  }

  /** When every provider fails, the fallback calls the whole chain and
      answers `default`. */
  lemma {:induction false} FallbackAllFail(chain: seq<Provider>, rs: Replies,
                                           failing: set<Provider>, default: Reply)
    requires FirstWorking(chain, failing) == |chain|
    ensures Fallback(chain, rs, failing, default) == Generated(default, chain)
    decreases |chain|
  {
    if chain != [] {
      var tail := chain[1..];
      FallbackAllFail(tail, rs, failing, default);
      assert [chain[0]] + tail == chain;
    }
  }

  /** With Gemini, `generate` is the fallback over Gemini, Groq when it has
      a client, and OpenRouter when it has a key, answering Gemini's reply
      when all fail. */
  lemma GeminiGenerateIsFallback(s: Setup, openrouterKey: bool, rs: Replies)
    requires s.enabled && s.provider == Gemini
    ensures Generate(s, openrouterKey, rs) == Fallback(GeminiChain(s, openrouterKey), rs, Failing(rs), rs.gemini)
  {
    if s.groqClient && openrouterKey {
      assert GeminiChain(s, openrouterKey) == [Gemini, Groq, OpenRouter];
      GeminiGroqOpenRouter(s, rs);
    } else if s.groqClient {
      assert GeminiChain(s, openrouterKey) == [Gemini, Groq];
      GeminiGroq(s, rs);
    } else if openrouterKey {
      assert GeminiChain(s, openrouterKey) == [Gemini, OpenRouter];
      GeminiOpenRouter(s, rs);
    } else {
      assert GeminiChain(s, openrouterKey) == [Gemini];
      GeminiAlone(s, rs);
    }
  }

  lemma GeminiGroqOpenRouter(s: Setup, rs: Replies)
    requires s.enabled && s.provider == Gemini && s.groqClient
    ensures Generate(s, true, rs) == Fallback([Gemini, Groq, OpenRouter], rs, Failing(rs), rs.gemini)
  {
    FallbackOfThree(Gemini, Groq, OpenRouter, rs, Failing(rs), rs.gemini);
  }

  lemma GeminiGroq(s: Setup, rs: Replies)
    requires s.enabled && s.provider == Gemini && s.groqClient
    ensures Generate(s, false, rs) == Fallback([Gemini, Groq], rs, Failing(rs), rs.gemini)
  {
    FallbackOfTwo(Gemini, Groq, rs, Failing(rs), rs.gemini);
  }

  lemma GeminiOpenRouter(s: Setup, rs: Replies)
    requires s.enabled && s.provider == Gemini && !s.groqClient
    ensures Generate(s, true, rs) == Fallback([Gemini, OpenRouter], rs, Failing(rs), rs.gemini)
  {
    FallbackOfTwo(Gemini, OpenRouter, rs, Failing(rs), rs.gemini);
  }

  lemma GeminiAlone(s: Setup, rs: Replies)
    requires s.enabled && s.provider == Gemini && !s.groqClient
    ensures Generate(s, false, rs) == Fallback([Gemini], rs, Failing(rs), rs.gemini)
  {
    FallbackOfOne(Gemini, rs, Failing(rs), rs.gemini);
  }

  lemma FallbackOfOne(a: Provider, rs: Replies, f: set<Provider>, d: Reply)
    ensures Fallback([a], rs, f, d) ==
      if a !in f then Generated(ReplyOf(a, rs), [a]) else Generated(d, [a])
  {
    FallbackCons(a, [], rs, f, d);
    assert [a] + [] == [a];
  }

  lemma FallbackOfTwo(a: Provider, b: Provider, rs: Replies, f: set<Provider>, d: Reply)
    ensures Fallback([a, b], rs, f, d) ==
      if a !in f then Generated(ReplyOf(a, rs), [a])
      else if b !in f then Generated(ReplyOf(b, rs), [a, b])
      else Generated(d, [a, b])
  {
    FallbackCons(a, [b], rs, f, d);
    assert [a] + [b] == [a, b];
    FallbackOfOne(b, rs, f, d);
  }

  lemma FallbackOfThree(a: Provider, b: Provider, c: Provider, rs: Replies, f: set<Provider>, d: Reply)
    ensures Fallback([a, b, c], rs, f, d) ==
      if a !in f then Generated(ReplyOf(a, rs), [a])
      else if b !in f then Generated(ReplyOf(b, rs), [a, b])
      else if c !in f then Generated(ReplyOf(c, rs), [a, b, c])
      else Generated(d, [a, b, c])
  {
    FallbackCons(a, [b, c], rs, f, d);
    assert [a] + [b, c] == [a, b, c];
    FallbackOfTwo(b, c, rs, f, d);
  }

  /** With Gemini, `generate` calls the chain up to the first provider whose
      reply is not an error and answers that reply; when every reply is an
      error it calls the whole chain and answers Gemini's. */
  lemma GeminiFallsBackInOrder(s: Setup, openrouterKey: bool, rs: Replies)
    requires s.enabled && s.provider == Gemini
    ensures var chain := GeminiChain(s, openrouterKey);
      var k := FirstWorking(chain, Failing(rs));
      var g := Generate(s, openrouterKey, rs);
      && (k < |chain| ==> g == Generated(ReplyOf(chain[k], rs), chain[..k + 1]))
      && (k == |chain| ==> g == Generated(rs.gemini, chain))
  {
    GeminiGenerateIsFallback(s, openrouterKey, rs);
    var chain := GeminiChain(s, openrouterKey);
    if FirstWorking(chain, Failing(rs)) < |chain| {
      FallbackFindsWorking(chain, rs, Failing(rs), rs.gemini);
    } else {
      FallbackAllFail(chain, rs, Failing(rs), rs.gemini);
    }
  }

  /** OpenRouter and Groq make a single call and answer its reply as is. */
  lemma SingleProviderNoFallback(s: Setup, openrouterKey: bool, rs: Replies)
    requires s.enabled && (s.provider == OpenRouter || s.provider == Groq)
    ensures Generate(s, openrouterKey, rs) == Generated(ReplyOf(s.provider, rs), [s.provider])
  {
  }

  /** As started up, a Gemini service never falls back to Groq, whatever
      Groq would answer: the Groq client is built only when Groq is chosen. */
  lemma GeminiNeverReachesGroq(env: Env, rs: Replies)
    requires Selection(env).provider == Gemini
    ensures Groq !in Generate(Selection(env), env.openrouterKey, rs).called
  {
    var s := Selection(env);
    GeminiSetupHasNoGroqClient(env);
    SelectionEnablesNamedProvider(env);
    NoGroqClientNoGroqCall(s, env.openrouterKey, rs);
  }

  lemma NoGroqClientNoGroqCall(s: Setup, openrouterKey: bool, rs: Replies)
    requires s.enabled && s.provider == Gemini && !s.groqClient
    ensures Groq !in Generate(s, openrouterKey, rs).called
  {
  }

  /** The intended start-up: the same choice of provider, but the Groq
      client is built whenever Groq is usable, so it can serve as Gemini's
      fallback. */
  function SelectionWithGroqFallback(env: Env): (s: Setup)
    ensures s.enabled == Selection(env).enabled && s.provider == Selection(env).provider
    ensures s.groqClient == Available(env, Groq)
  {
    Setup(Selection(env).enabled, Selection(env).provider, Available(env, Groq))
  }

  /** With the intended start-up, a failing Gemini reply is replaced by a
      good Groq reply whenever Groq is usable. */
  lemma GeminiFallsBackToGroq(env: Env, rs: Replies)
    requires SelectionWithGroqFallback(env).provider == Gemini
    requires Available(env, Groq)
    requires IsErrorResponse(rs.gemini) && !IsErrorResponse(rs.groq)
    ensures Generate(SelectionWithGroqFallback(env), env.openrouterKey, rs) == Generated(rs.groq, [Gemini, Groq])
  {
  }
}
