/** The logic that src/lib/ai/tasks.ts and src/utils/aiService.ts define identically:
    the availability mapping, ensureTask, the life cycle of the shared prompt session,
    the LanguageModel path of `prompt` and the global-Summarizer path of `summarize`.
    Each of these is a function from the host environment and the shared state to the
    calls made, the outcome and the new state; the classes of both modules are proved
    against them. */
module Common {
  import opened Text
  import opened Runtime

  /** The tri-state availability, with the pending state split as the source splits it. */
  datatype Availability = Ready | Downloadable | Downloading | Unavailable

  /** ensureLanguageModelAvailability: maps whether the LanguageModel global exists and
      what `availability()` resolved to (None: it threw) to an Availability. It never
      fails: every host answer, a missing global and a throwing query all land on a state. */
  function Classify(present: bool, reply: Option<string>): (a: Availability)
    ensures a == Ready <==> present && reply == Some("available")
    ensures a == Downloadable <==> present && reply == Some("downloadable")
    ensures a == Downloading <==> present && reply == Some("downloading")
    ensures a == Unavailable <==>
      !present || reply.None? || reply.value !in {"available", "downloadable", "downloading"}
  {
    if !present then Unavailable
    else match reply
      case None => Unavailable
      case Some(status) =>
        if status == "available" then Ready
        else if status == "downloadable" then Downloadable
        else if status == "downloading" then Downloading
        else Unavailable
  }

  function LanguageModelAvailability(env: Environment): Availability
  {
    Classify(LanguageModelGlobal in env.globals, env.availability)
  }

  /** ensureTask: the global named by the task key with its first letter capitalized. */
  function EnsureTask(globals: set<string>, taskKey: string): bool
  {
    CapitalizeFirst(taskKey) in globals
  }

  /** The two lookups the source makes through ensureTask: "summarizer" reads the global
      Summarizer, the very one `summarize` tests first, and "prompt" reads the global Prompt. */
  lemma EnsureTaskLookups(globals: set<string>)
    ensures EnsureTask(globals, "summarizer") <==> SummarizerGlobal in globals
    ensures EnsureTask(globals, "prompt") <==> PromptGlobal in globals
  {
    CapitalizedTaskKeys();
  }

  /** The optional `meta` argument: page title and URL. */
  datatype Meta = Meta(title: Option<string>, url: Option<string>)

  /** `x ?? ""` */
  function OrEmpty(x: Option<string>): string
  {
    if x.Some? then x.value else ""
  }

  /** The blog categories the generation prompt is framed by. */
  datatype BlogCategory = EducationalHowTo | UseCase | ProblemSolution | BestPractices | CaseStudies
  {
    function Label(): string
    {
      match this
      case EducationalHowTo => "Educational/How-to Content"
      case UseCase => "Use Case Articles"
      case ProblemSolution => "Problem-Solution Articles"
      case BestPractices => "Best Practices and Tips"
      case CaseStudies => "Case Studies and Success Stories"
    }
  }

  predicate StartsWith(s: string, prefix: string)
  {
    |prefix| <= |s| && s[..|prefix|] == prefix
  }

  predicate EndsWith(s: string, suffix: string)
  {
    |suffix| <= |s| && s[|s| - |suffix|..] == suffix
  }

  /** Every `session.prompt` call in `calls` sends `input` with `options`. */
  predicate PromptsCarry(calls: seq<Call>, input: string, options: Options)
  {
    forall i :: 0 <= i < |calls| && calls[i].SessionPrompt? ==>
      calls[i].input == input && calls[i].options == options
  }

  /** Every `summarize` call in `calls` sends `input`. */
  predicate SummariesCarry(calls: seq<Call>, input: string)
  {
    forall i :: 0 <= i < |calls| && calls[i].SummarizerSummarize? ==> calls[i].input == input
  }

  /** No `session.prompt` call is in `calls`. */
  predicate NoPrompt(calls: seq<Call>)
  {
    forall i :: 0 <= i < |calls| ==> !calls[i].SessionPrompt?
  }

  lemma CarryAppend(a: seq<Call>, b: seq<Call>, summaryInput: string, input: string, options: Options)
    requires SummariesCarry(a, summaryInput) && SummariesCarry(b, summaryInput)
    requires PromptsCarry(a, input, options) && PromptsCarry(b, input, options)
    ensures SummariesCarry(a + b, summaryInput) && PromptsCarry(a + b, input, options)
  {
    forall i | |a| <= i < |a + b| ensures (a + b)[i] == b[i - |a|] {
    }
  }

  /** getPromptSession: the presence check comes first, so without the LanguageModel
      global it throws even when a session is stored; a stored session is returned without
      any call; otherwise `create()` is called once and, when it succeeds, its session is
      stored and returned. */
  function GetPromptSessionSpec(env: Environment, st: State): (e: Effect<nat>)
    ensures LanguageModelGlobal !in env.globals ==> e == Effect([], Err(PromptApiNotAvailable), st)
    ensures LanguageModelGlobal in env.globals && st.shared.Some? ==> e == Effect([], Ok(st.shared.value), st)
    ensures LanguageModelGlobal in env.globals && st.shared.None? ==>
      && e.calls == [LanguageModelCreate]
      && (e.result.Ok? <==> !env.createFails)
      && (e.result.Ok? ==> e.after == State(Some(e.result.value), st.next + 1) && e.result.value == st.next)
      && (e.result.Err? ==> e.after == st)
    ensures e.result.Ok? ==> e.after.shared == Some(e.result.value)
  {
    if LanguageModelGlobal !in env.globals then Effect([], Err(PromptApiNotAvailable), st)
    else if st.shared.Some? then Effect([], Ok(st.shared.value), st)
    else if env.createFails then Effect([LanguageModelCreate], Err(HostError), st)
    else Effect([LanguageModelCreate], Ok(st.next), State(Some(st.next), st.next + 1))
  }

  /** destroyPromptSession: `destroy?.()` on the stored session, if any, then the
      reference is cleared in a `finally`. With nothing stored it is a no-op; a throwing
      `destroy` still clears the reference, and its exception propagates. */
  function DestroyPromptSessionSpec(env: Environment, st: State): (e: Effect<()>)
    ensures e.after == State(None, st.next)
    ensures st.shared.None? ==> e.calls == [] && e.result == Ok(())
    ensures st.shared.Some? ==>
      && e.calls == (if env.sessionTeardown == NoDestroy then [] else [SessionDestroy(st.shared.value)])
      && (e.result.Err? <==> env.sessionTeardown == DestroyThrows)
  {
    var cleared := State(None, st.next);
    if st.shared.None? then Effect([], Ok(()), cleared)
    else match env.sessionTeardown
      case NoDestroy => Effect([], Ok(()), cleared)
      case Destroys => Effect([SessionDestroy(st.shared.value)], Ok(()), cleared)
      case DestroyThrows => Effect([SessionDestroy(st.shared.value)], Err(HostError), cleared)
  }

  /** After a destroy, the next getPromptSession calls `create()` again. */
  lemma DestroyThenGetCreates(env: Environment, st: State)
    requires LanguageModelGlobal in env.globals
    ensures GetPromptSessionSpec(env, DestroyPromptSessionSpec(env, st).after).calls == [LanguageModelCreate]
  {
  }

  /** A prompt through the shared session: the stored session, or else one `create()`
      whose session is stored, receives the input once, and its reply is the outcome. When
      no session is stored and `create()` throws, that exception is the outcome and
      nothing is stored. */
  predicate ThroughSharedSession(env: Environment, oracle: Oracle, st: State, input: string, options: Options, e: Effect<string>)
  {
    if st.shared.None? && env.createFails then e == Effect([LanguageModelCreate], Err(HostError), st)
    else
      var id := if st.shared.Some? then st.shared.value else st.next;
      && e.calls == (if st.shared.None? then [LanguageModelCreate] else []) + [SessionPrompt(id, input, options)]
      && e.result == Reply(env, oracle, input, options)
      && e.after == State(Some(id), if st.shared.None? then st.next + 1 else st.next)
  }

  /** A prompt through a throwaway session: `create()` on the global Prompt, then one
      prompt of the input to the new session, whose reply is the outcome; the shared
      session is not touched. */
  predicate ThroughThrowawaySession(env: Environment, oracle: Oracle, st: State, input: string, options: Options, e: Effect<string>)
  {
    if env.createFails then e == Effect([PromptCreate], Err(HostError), st)
    else e == Effect([PromptCreate, SessionPrompt(st.next, input, options)], Reply(env, oracle, input, options),
                     State(st.shared, st.next + 1))
  }

  /** The LanguageModel path of `prompt`: an "unavailable" answer throws before anything
      is created; otherwise the shared session is obtained and prompted once. */
  function LanguageModelPromptSpec(env: Environment, oracle: Oracle, st: State, input: string, options: Options): (e: Effect<string>)
    requires LanguageModelGlobal in env.globals
    ensures LanguageModelAvailability(env) == Unavailable <==> e == Effect([], Err(PromptApiUnavailable), st)
    ensures LanguageModelAvailability(env) != Unavailable ==> ThroughSharedSession(env, oracle, st, input, options, e)
    ensures e.after.shared == st.shared || st.shared.None?
    ensures PromptsCarry(e.calls, input, options)
    ensures CreateCount(e.calls) <= 1 && (st.shared.Some? ==> CreateCount(e.calls) == 0)
  {
    if LanguageModelAvailability(env) == Unavailable then Effect([], Err(PromptApiUnavailable), st)
    else
      var g := GetPromptSessionSpec(env, st);
      if g.result.Err? then Effect(g.calls, Err(g.result.error), g.after)
      else
        var sent := [SessionPrompt(g.result.value, input, options)];
        CreateCountWithout(sent);
        CreateCountAppend(g.calls, sent);
        Effect(g.calls + [SessionPrompt(g.result.value, input, options)], Reply(env, oracle, input, options), g.after)
  }

  /** A model still downloadable or downloading does not stop `prompt`: it goes on
      through the shared session like a ready one. */
  lemma PendingStatesProceed(env: Environment, oracle: Oracle, st: State, input: string, options: Options)
    requires LanguageModelGlobal in env.globals
    requires env.availability in {Some("downloadable"), Some("downloading")}
    ensures var e := LanguageModelPromptSpec(env, oracle, st, input, options);
      e.result != Err(PromptApiUnavailable) && ThroughSharedSession(env, oracle, st, input, options, e)
  {
    assert LanguageModelAvailability(env) in {Downloadable, Downloading};
  }

  /** The ensureTask("prompt") path of `prompt`: a throwaway session from the global
      Prompt, prompted once; `sharedPromptSession` is not touched. Without that global,
      `.create` is called on undefined. */
  function EnsureTaskPromptSpec(env: Environment, oracle: Oracle, st: State, input: string, options: Options): (e: Effect<string>)
    ensures e.after.shared == st.shared && CreateCount(e.calls) == 0
    ensures PromptsCarry(e.calls, input, options)
    ensures PromptGlobal !in env.globals ==> e == Effect([], Err(TypeError), st)
    ensures PromptGlobal in env.globals ==> ThroughThrowawaySession(env, oracle, st, input, options, e)
  {
    EnsureTaskLookups(env.globals);
    CreateCountWithout([PromptCreate, SessionPrompt(st.next, input, options)]);
    if !EnsureTask(env.globals, "prompt") then Effect([], Err(TypeError), st)
    else if env.createFails then Effect([PromptCreate], Err(HostError), st)
    else Effect([PromptCreate, SessionPrompt(st.next, input, options)], Reply(env, oracle, input, options),
                State(st.shared, st.next + 1))
  }

  /** The global-Summarizer path of `summarize`: create with the options, summarize the
      input, then `destroy?.()` the instance; any of the three may throw. */
  function GlobalSummarizerSpec(env: Environment, oracle: Oracle, st: State, input: string, options: Options): (e: Effect<string>)
    ensures e.after == st && NoPrompt(e.calls) && CreateCount(e.calls) == 0
    ensures SummariesCarry(e.calls, input)
    ensures e.result.Ok? <==> env.summarizer.Summarizes? && env.summarizer.teardown != DestroyThrows
    ensures e.result.Ok? ==> e.result.value == oracle.summary(options, input)
    ensures e.calls == [Call.SummarizerCreate(options)]
      + (if env.summarizer.CreateThrows? then [] else [Call.SummarizerSummarize(input, NoOptions)])
      + (if env.summarizer.Summarizes? && env.summarizer.teardown != NoDestroy then [Call.SummarizerDestroy] else [])
  {
    CreateCountWithout([Call.SummarizerCreate(options), Call.SummarizerSummarize(input, NoOptions), Call.SummarizerDestroy]);
    CreateCountWithout([Call.SummarizerCreate(options), Call.SummarizerSummarize(input, NoOptions)]);
    CreateCountWithout([Call.SummarizerCreate(options)]);
    match env.summarizer
    case CreateThrows => Effect([Call.SummarizerCreate(options)], Err(HostError), st)
    case SummarizeThrows =>
      Effect([Call.SummarizerCreate(options), Call.SummarizerSummarize(input, NoOptions)], Err(HostError), st)
    case Summarizes(teardown) =>
      var made := [Call.SummarizerCreate(options), Call.SummarizerSummarize(input, NoOptions)];
      match teardown
      case NoDestroy => Effect(made, Ok(oracle.summary(options, input)), st)
      case Destroys => Effect(made + [Call.SummarizerDestroy], Ok(oracle.summary(options, input)), st)
      case DestroyThrows => Effect(made + [Call.SummarizerDestroy], Err(HostError), st)
  }
}
