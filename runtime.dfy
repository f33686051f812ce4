/** The host environment the orchestration layer runs against: which AI capabilities
    the global object exposes, how each of them behaves, and what the models answer.
    The host is an oracle; the model records the calls made to it in a ghost log so
    that the orchestration's contracts can say what was sent, in what order, and how
    many sessions were created. The query `LanguageModel.availability()` is the one
    host call left out of the log: its answer is part of the environment. */
module Runtime {

  datatype Option<+T> = None | Some(value: T)

  /** The failures an operation can end with. The first four are thrown by the
      orchestration layer itself, with the message given beside each. */
  datatype Error =
    | PromptApiNotAvailable      // "Prompt API not available"
    | PromptApiUnavailable       // "Prompt API is unavailable on this device/browser"
    | NoAiApi                    // "No AI API available. Please ensure Chrome's built-in AI features are enabled."
    | SummarizerApiNotAvailable  // "Summarizer API not available. Please ensure Chrome's built-in AI features are enabled."
    | TypeError                  // `.create` called on an undefined global
    | HostError                  // an exception thrown by the host's own API

  /** A returned value or a thrown exception. */
  datatype Result<+T> = Ok(value: T) | Err(error: Error)

  /** The option objects the source passes: none (`options ?? {}`), the summarizer's
      `{type: "key-points", format: "markdown"}`, or a prompt temperature, written in
      tenths (0.1, 0.2, 0.3 become 1, 2, 3). */
  datatype Options = NoOptions | KeyPointsMarkdown | Temperature(tenths: nat)

  /** What an instance's optional `destroy` method is: missing, a call that returns, or a
      call that throws. */
  datatype Teardown = NoDestroy | Destroys | DestroyThrows

  /** How the global Summarizer behaves: `create` throws, `summarize` throws, or both
      succeed and the instance is torn down as `teardown` says. */
  datatype SummarizerBehaviour = CreateThrows | SummarizeThrows | Summarizes(teardown: Teardown)

  /** Names of the globals the source probes. */
  const LanguageModelGlobal := "LanguageModel"
  const SummarizerGlobal := "Summarizer"
  const PromptGlobal := "Prompt"

  /** The host's AI surface at one moment. `globals` holds the names of the truthy
      properties of the global object (`self`, which is `window` in the side panel);
      `windowAiPrompt` says whether `window.ai.prompt` is truthy; `availability` is the
      value `LanguageModel.availability()` resolves to, or None when it throws;
      `createFails` and `promptFails` say whether creating a prompt session and prompting
      it throw; `sessionTeardown` describes a prompt session's `destroy`. */
  datatype Environment = Environment(
    globals: set<string>,
    windowAiPrompt: bool,
    availability: Option<string>,
    createFails: bool,
    promptFails: bool,
    sessionTeardown: Teardown,
    summarizer: SummarizerBehaviour)

  /** What the models answer: the summary a summarizer created with the given options
      produces for a text, and the reply a prompt session gives to an input. */
  datatype Oracle = Oracle(summary: (Options, string) -> string, reply: (string, Options) -> string)

  /** One call into the host. Sessions are named by the number the host gave them. */
  datatype Call =
    | LanguageModelCreate                                   // LanguageModel.create()
    | PromptCreate                                          // Prompt.create(), reached through ensureTask
    | SessionPrompt(session: nat, input: string, options: Options)
    | SessionDestroy(session: nat)
    | SummarizerCreate(options: Options)
    | SummarizerSummarize(input: string, options: Options)
    | SummarizerDestroy

  /** The abstract state an orchestration module and its host share: the number of the
      session held in `sharedPromptSession`, if any, and the number the next session
      created will get. */
  datatype State = State(shared: Option<nat>, next: nat)

  /** What one operation does: the host calls it makes, its outcome, and the state after. */
  datatype Effect<T> = Effect(calls: seq<Call>, result: Result<T>, after: State)

  /** Runs `second` after `first`; the outcome is the second's. */
  function Then<T, U>(first: Effect<T>, second: Effect<U>): Effect<U>
  {
    Effect(first.calls + second.calls, second.result, second.after)
  }

  /** What `session.prompt(input, options)` resolves to. */
  function Reply(env: Environment, oracle: Oracle, input: string, options: Options): Result<string>
  {
    if env.promptFails then Err(HostError) else Ok(oracle.reply(input, options))
  }

  /** The number of `LanguageModel.create()` calls in a log. */
  function CreateCount(calls: seq<Call>): nat
  {
    if calls == [] then 0
    else (if calls[0] == LanguageModelCreate then 1 else 0) + CreateCount(calls[1..])
  }

  lemma {:induction false} CreateCountAppend(a: seq<Call>, b: seq<Call>)
    ensures CreateCount(a + b) == CreateCount(a) + CreateCount(b)
  {
    if a != [] {
      assert (a + b)[0] == a[0] && (a + b)[1..] == a[1..] + b;
      CreateCountAppend(a[1..], b);
    } else {
      assert a + b == b;
    }
  }

  lemma {:induction false} CreateCountWithout(calls: seq<Call>)
    requires forall i :: 0 <= i < |calls| ==> calls[i] != LanguageModelCreate
    ensures CreateCount(calls) == 0
  {
    if calls != [] {
      CreateCountWithout(calls[1..]);
    }
  }

  /** A prompt session created by the host. */
  class Session {
    ghost const id: nat
    const fromLanguageModel: bool

    constructor(ghost id: nat, fromLanguageModel: bool)
      ensures this.id == id && this.fromLanguageModel == fromLanguageModel
    {
      this.id := id;
      this.fromLanguageModel := fromLanguageModel;
    }
  }

  /** The host: its current environment, its models, the log of calls made to it and the
      number of prompt sessions it has created. */
  class Host {
    var env: Environment
    const oracle: Oracle
    ghost var log: seq<Call>
    ghost var sessionCount: nat

    constructor(env: Environment, oracle: Oracle)
      ensures this.env == env && this.oracle == oracle && log == [] && sessionCount == 0
    {
      this.env := env;
      this.oracle := oracle;
      log := [];
      sessionCount := 0;
    }

    /** `LanguageModel.create()` (fromLanguageModel) or `Prompt.create()`: a fresh session
        numbered sessionCount, or a thrown exception. */
    method CreateSession(fromLanguageModel: bool) returns (r: Result<Session>)
      modifies this`log, this`sessionCount
      ensures log == old(log) + [if fromLanguageModel then LanguageModelCreate else PromptCreate]
      ensures env.createFails ==> r == Err(HostError) && sessionCount == old(sessionCount)
      ensures !env.createFails ==>
        && r.Ok? && fresh(r.value)
        && r.value.id == old(sessionCount) && r.value.fromLanguageModel == fromLanguageModel
        && sessionCount == old(sessionCount) + 1
    {
      log := log + [if fromLanguageModel then LanguageModelCreate else PromptCreate];
      if env.createFails {
        r := Err(HostError);
      } else {
        var s := new Session(sessionCount, fromLanguageModel);
        sessionCount := sessionCount + 1;
        r := Ok(s);
      }
    }

    /** `session.prompt(input, options)`. */
    method Prompt(s: Session, input: string, options: Options) returns (r: Result<string>)
      modifies this`log
      ensures log == old(log) + [SessionPrompt(s.id, input, options)]
      ensures r == Reply(env, oracle, input, options)
    {
      log := log + [SessionPrompt(s.id, input, options)];
      r := if env.promptFails then Err(HostError) else Ok(oracle.reply(input, options));
    }

    /** `session.destroy?.()`: nothing when the method is missing. */
    method Destroy(s: Session) returns (r: Result<()>)
      modifies this`log
      ensures log == old(log) + (if env.sessionTeardown == NoDestroy then [] else [SessionDestroy(s.id)])
      ensures r == if env.sessionTeardown == DestroyThrows then Err(HostError) else Ok(())
    {
      if env.sessionTeardown != NoDestroy {
        log := log + [SessionDestroy(s.id)];
      }
      r := if env.sessionTeardown == DestroyThrows then Err(HostError) else Ok(());
    }

    /** `Summarizer.create(options)`. */
    method SummarizerCreate(options: Options) returns (r: Result<()>)
      modifies this`log
      ensures log == old(log) + [Call.SummarizerCreate(options)]
      ensures r == if env.summarizer == CreateThrows then Err(HostError) else Ok(())
    {
      log := log + [Call.SummarizerCreate(options)];
      r := if env.summarizer == CreateThrows then Err(HostError) else Ok(());
    }

    /** `instance.summarize(input)` on an instance created with `created`. */
    method SummarizerSummarize(created: Options, input: string, options: Options) returns (r: Result<string>)
      modifies this`log
      ensures log == old(log) + [Call.SummarizerSummarize(input, options)]
      ensures r == if env.summarizer.Summarizes? then Ok(oracle.summary(created, input)) else Err(HostError)
    {
      log := log + [Call.SummarizerSummarize(input, options)];
      r := if env.summarizer.Summarizes? then Ok(oracle.summary(created, input)) else Err(HostError);
    }

    /** `instance.destroy?.()` on a summarizer instance. */
    method SummarizerDestroy() returns (r: Result<()>)
      requires env.summarizer.Summarizes?
      modifies this`log
      ensures log == old(log) + (if env.summarizer.teardown == NoDestroy then [] else [Call.SummarizerDestroy])
      ensures r == if env.summarizer.teardown == DestroyThrows then Err(HostError) else Ok(())
    {
      if env.summarizer.teardown != NoDestroy {
        log := log + [Call.SummarizerDestroy];
      }
      r := if env.summarizer.teardown == DestroyThrows then Err(HostError) else Ok(());
    }
  }
}
