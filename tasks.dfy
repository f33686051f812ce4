/** src/lib/ai/tasks.ts, the orchestration module the side panel loads: `summarize`
    (global Summarizer, else ensureTask), `prompt` (LanguageModel with the shared
    session, else ensureTask), and the pipelines summarizeWebContent,
    generateSeoMarkdown and generateKeywords. Page text and summaries are sent whole;
    this module does no windowing. */
module Tasks {
  import opened Text
  import opened Runtime
  import opened Common

  /** The instruction of the fallback summary prompt. */
  const SummarySystem :=
    "Summarize the following web page HTML into concise, factual key points.\n"
    + "Avoid marketing fluff. Output in markdown bullet points."

  /** The system part of the blog prompt. */
  const SeoSystem :=
    "You are an expert technical copywriter. Create a high-quality markdown blog post optimized for SEO.\n"
    + "Requirements:\n"
    + "- Start with an H1 title.\n"
    + "- Include a compelling meta description (as a comment).\n"
    + "- Use clear H2/H3 sections with descriptive headings.\n"
    + "- Weave primary/secondary keywords naturally.\n"
    + "- Include a short intro, actionable body, and a conclusion with CTA.\n"
    + "- Avoid hallucinating product features; stick to the provided summary.\n"
    + "- Use markdown only.\n"
    + "- Directly write the markdown content, don't include any other text or comments.\n"

  /** The instruction of the keyword prompt. */
  const KeywordsInstruction :=
    "Extract 15-25 high-intent SEO keywords and keyphrases from this summary.\n"
    + "Return as a simple comma-separated list.\n"

  /** The closing line of the blog prompt. */
  const SeoClosing := "\n\"\"\"\n\nWrite the complete markdown article now."

  /** Temperatures, in tenths. */
  const SummaryTemperature := 1
  const KeywordsTemperature := 2
  const SeoTemperature := 3

  /** `p + c + s` gives `c` back from between `p` and `s`. */
  lemma Unwrap(p: string, c: string, s: string)
    ensures (p + c + s)[|p|..|p + c + s| - |s|] == c
  {
    assert (p + c + s)[|p|..|p| + |c|] == c;
  }

  /** The fallback summary prompt: instruction, title and URL, then the content, whole,
      between triple quotes. */
  function SummaryFallbackInput(content: string, meta: Meta): (r: string)
    ensures StartsWith(r, SummarySystem + "\nPage: " + OrEmpty(meta.title) + " " + OrEmpty(meta.url))
    ensures EndsWith(r, "\"\"\"Web content:\n" + content + "\n\"\"\"")
  {
    var head := SummarySystem + "\nPage: " + OrEmpty(meta.title) + " " + OrEmpty(meta.url) + "\n\n";
    var r := head + "\"\"\"Web content:\n" + content + "\n\"\"\"";
    assert r == head + ("\"\"\"Web content:\n" + content + "\n\"\"\"");
    r
  }

  /** The content reaches the fallback prompt untruncated: it can be read back from it. */
  lemma SummaryFallbackKeepsContent(c1: string, c2: string, meta: Meta)
    requires SummaryFallbackInput(c1, meta) == SummaryFallbackInput(c2, meta)
    ensures c1 == c2
  {
    var p := SummarySystem + "\nPage: " + OrEmpty(meta.title) + " " + OrEmpty(meta.url) + "\n\n\"\"\"Web content:\n";
    var s := "\n\"\"\"";
    assert SummaryFallbackInput(c1, meta) == p + c1 + s;
    assert SummaryFallbackInput(c2, meta) == p + c2 + s;
    Unwrap(p, c1, s);
    Unwrap(p, c2, s);
  }

  /** The blog prompt: the system part, the category label verbatim, the target page, and
      the summary, whole, between triple quotes. */
  function SeoInput(summary: string, category: BlogCategory, meta: Meta): (r: string)
    ensures StartsWith(r, SeoSystem + "\n\nCategory: " + category.Label() + "\n")
    ensures EndsWith(r, "\"\"\"\n" + summary + SeoClosing)
  {
    var head := SeoSystem + "\n\nCategory: " + category.Label() + "\n"
      + "Target page: " + OrEmpty(meta.title) + " " + OrEmpty(meta.url) + "\n\n"
      + "Page summary (facts to rely on):\n";
    var r := head + "\"\"\"\n" + summary + SeoClosing;
    assert r == head + ("\"\"\"\n" + summary + SeoClosing);
    r
  }

  /** The summary reaches the blog prompt untruncated: it can be read back from it. */
  lemma SeoInputKeepsSummary(s1: string, s2: string, category: BlogCategory, meta: Meta)
    requires SeoInput(s1, category, meta) == SeoInput(s2, category, meta)
    ensures s1 == s2
  {
    var p := SeoSystem + "\n\nCategory: " + category.Label() + "\n"
      + "Target page: " + OrEmpty(meta.title) + " " + OrEmpty(meta.url) + "\n\n"
      + "Page summary (facts to rely on):\n" + "\"\"\"\n";
    assert SeoInput(s1, category, meta) == p + s1 + SeoClosing;
    assert SeoInput(s2, category, meta) == p + s2 + SeoClosing;
    Unwrap(p, s1, SeoClosing);
    Unwrap(p, s2, SeoClosing);
  }

  /** The keyword prompt: the instruction, then the summary, whole, between triple quotes. */
  function KeywordsInput(summary: string): (r: string)
    ensures StartsWith(r, KeywordsInstruction)
    ensures EndsWith(r, "\"\"\"\n" + summary + "\n\"\"\"")
    ensures |r| == |KeywordsInstruction| + |summary| + 8
  {
    var r := KeywordsInstruction + "\"\"\"\n" + summary + "\n\"\"\"";
    assert r == KeywordsInstruction + ("\"\"\"\n" + summary + "\n\"\"\"");
    r
  }

  /** summarize: the global Summarizer when it exists. Otherwise ensureTask("summarizer")
      reads the global Summarizer again, finds nothing, and `.create` on undefined throws;
      so this path never reaches a summarizer instance. */
  function SummarizeSpec(env: Environment, oracle: Oracle, st: State, input: string, options: Options): (e: Effect<string>)
    ensures e.after == st && NoPrompt(e.calls) && SummariesCarry(e.calls, input) && CreateCount(e.calls) == 0
    ensures SummarizerGlobal !in env.globals ==> e == Effect([], Err(TypeError), st)
    ensures e.result.Ok? ==> e.result.value == oracle.summary(options, input)
    ensures SummarizerGlobal in env.globals ==> e == GlobalSummarizerSpec(env, oracle, st, input, options)
  {
    if SummarizerGlobal in env.globals then GlobalSummarizerSpec(env, oracle, st, input, options)
    else
      EnsureTaskLookups(env.globals);
      assert !EnsureTask(env.globals, "summarizer");
      Effect([], Err(TypeError), st)
  }

  /** prompt: through the shared session when the LanguageModel global exists, else
      through a throwaway session from ensureTask("prompt"). */
  function PromptSpec(env: Environment, oracle: Oracle, st: State, input: string, options: Options): (e: Effect<string>)
    ensures e.result == Err(PromptApiUnavailable) <==>
      LanguageModelGlobal in env.globals && LanguageModelAvailability(env) == Unavailable
    ensures LanguageModelGlobal !in env.globals ==> e.after.shared == st.shared && CreateCount(e.calls) == 0
    ensures e.after.shared == st.shared || st.shared.None?
    ensures PromptsCarry(e.calls, input, options)
    ensures CreateCount(e.calls) <= 1 && (st.shared.Some? ==> CreateCount(e.calls) == 0)
    ensures LanguageModelGlobal in env.globals && LanguageModelAvailability(env) != Unavailable ==>
      ThroughSharedSession(env, oracle, st, input, options, e)
    ensures LanguageModelGlobal !in env.globals && PromptGlobal in env.globals ==>
      ThroughThrowawaySession(env, oracle, st, input, options, e)
    ensures LanguageModelGlobal !in env.globals && PromptGlobal !in env.globals ==>
      e == Effect([], Err(TypeError), st)
  {
    if LanguageModelGlobal in env.globals then LanguageModelPromptSpec(env, oracle, st, input, options)
    else EnsureTaskPromptSpec(env, oracle, st, input, options)
  }

  /** summarizeWebContent: nothing is called for empty or whitespace-only content;
      otherwise the summarizer gets the content first, and only if it throws is the
      fallback prompt sent, at temperature 0.1. */
  function SummarizeWebContentSpec(env: Environment, oracle: Oracle, st: State, content: string, meta: Meta): (e: Effect<string>)
    ensures Blank(content) ==> e == Effect([], Ok(""), st)
    ensures !Blank(content) ==>
      && SummariesCarry(e.calls, content)
      && PromptsCarry(e.calls, SummaryFallbackInput(content, meta), Temperature(SummaryTemperature))
    ensures !Blank(content) ==>
      var s := SummarizeSpec(env, oracle, st, content, KeyPointsMarkdown);
      && |s.calls| <= |e.calls| && e.calls[..|s.calls|] == s.calls
      && (s.result.Ok? ==> e == s)
      && (s.result.Err? ==>
            var p := PromptSpec(env, oracle, st, SummaryFallbackInput(content, meta), Temperature(SummaryTemperature));
            e.calls[|s.calls|..] == p.calls && e.result == p.result && e.after == p.after)
  {
    if Blank(content) then Effect([], Ok(""), st)
    else
      var s := SummarizeSpec(env, oracle, st, content, KeyPointsMarkdown);
      if s.result.Ok? then s
      else
        var p := PromptSpec(env, oracle, s.after, SummaryFallbackInput(content, meta), Temperature(SummaryTemperature));
        CarryAppend(s.calls, p.calls, content, SummaryFallbackInput(content, meta), Temperature(SummaryTemperature));
        Then(s, p)
  }

  /** generateSeoMarkdown: one prompt at temperature 0.3; its failure is not caught. */
  function GenerateSeoMarkdownSpec(env: Environment, oracle: Oracle, st: State, summary: string, category: BlogCategory, meta: Meta): Effect<string>
  {
    PromptSpec(env, oracle, st, SeoInput(summary, category, meta), Temperature(SeoTemperature))
  }

  /** generateKeywords: one prompt at temperature 0.2; its failure is not caught. */
  function GenerateKeywordsSpec(env: Environment, oracle: Oracle, st: State, summary: string): Effect<string>
  {
    PromptSpec(env, oracle, st, KeywordsInput(summary), Temperature(KeywordsTemperature))
  }

  /** A run of prompts with nothing in between, each starting where the last one left the
      shared session; the calls of all of them and the final state. */
  function PromptRun(env: Environment, oracle: Oracle, st: State, inputs: seq<string>, options: Options): (seq<Call>, State)
    decreases |inputs|
  {
    if inputs == [] then ([], st)
    else
      var e := PromptSpec(env, oracle, st, inputs[0], options);
      var rest := PromptRun(env, oracle, e.after, inputs[1..], options);
      (e.calls + rest.0, rest.1)
  }

  /** Until the next destroy, `create()` is called at most once however many prompts are
      made, and never when a session is already stored: the first successful creation is
      kept and reused. */
  lemma {:induction false} PromptRunCreatesAtMostOnce(env: Environment, oracle: Oracle, st: State, inputs: seq<string>, options: Options)
    requires !env.createFails
    ensures CreateCount(PromptRun(env, oracle, st, inputs, options).0) <= 1
    ensures st.shared.Some? ==>
      CreateCount(PromptRun(env, oracle, st, inputs, options).0) == 0
      && PromptRun(env, oracle, st, inputs, options).1.shared == st.shared
    decreases |inputs|
  {
    if inputs != [] {
      var e := PromptSpec(env, oracle, st, inputs[0], options);
      PromptRunCreatesAtMostOnce(env, oracle, e.after, inputs[1..], options);
      var rest := PromptRun(env, oracle, e.after, inputs[1..], options);
      CreateCountAppend(e.calls, rest.0);
      if CreateCount(e.calls) == 1 {
        assert LanguageModelGlobal in env.globals && st.shared.None?;
        assert e.after.shared.Some?;
      }
    }
  }

  /** When creation keeps failing, a run of prompts that starts with nothing stored
      never stores a session. */
  lemma {:induction false} PromptRunStoresNothingOnFailure(env: Environment, oracle: Oracle, st: State, inputs: seq<string>, options: Options)
    requires env.createFails && st.shared.None?
    ensures PromptRun(env, oracle, st, inputs, options).1.shared.None?
    decreases |inputs|
  {
    if inputs != [] {
      var e := PromptSpec(env, oracle, st, inputs[0], options);
      assert e.after.shared.None?;
      PromptRunStoresNothingOnFailure(env, oracle, e.after, inputs[1..], options);
    }
  }

  /** The module's mutable part: its `sharedPromptSession` and the host it talks to. */
  class Tasks {
    const host: Host
    var shared: Session?

    /** Only a LanguageModel session is ever stored. */
    ghost predicate Valid()
      reads this
    {
      shared != null ==> shared.fromLanguageModel
    }

    ghost function Current(): State
      reads this, host
    {
      State(if shared == null then None else Some(shared.id), host.sessionCount)
    }

    constructor(host: Host)
      ensures this.host == host && shared == null && Valid()
    {
      this.host := host;
      shared := null;
    }

    /** ensureLanguageModelAvailability */
    method EnsureLanguageModelAvailability() returns (a: Availability)
      ensures a == LanguageModelAvailability(host.env)
    {
      a := Classify(LanguageModelGlobal in host.env.globals, host.env.availability);
    }

    /** getPromptSession */
    method GetPromptSession() returns (r: Result<Session>)
      requires Valid()
      modifies this, host
      ensures Valid() && host.env == old(host.env)
      ensures var e := GetPromptSessionSpec(host.env, old(Current()));
        && host.log == old(host.log) + e.calls && Current() == e.after
        && r.Ok? == e.result.Ok? && (r.Ok? ==> r.value == shared && r.value.id == e.result.value)
        && (r.Err? ==> r.error == e.result.error)
      ensures shared == old(shared) || (old(shared) == null && shared != null && fresh(shared))
    {
      if LanguageModelGlobal !in host.env.globals {
        return Err(PromptApiNotAvailable);
      }
      if shared != null {
        return Ok(shared);
      }
      var created := host.CreateSession(true);
      if created.Err? {
        return Err(created.error);
      }
      shared := created.value;
      r := Ok(shared);
    }

    /** destroyPromptSession */
    method DestroyPromptSession() returns (r: Result<()>)
      modifies this, host
      ensures Valid() && shared == null && host.env == old(host.env)
      ensures var e := DestroyPromptSessionSpec(host.env, old(Current()));
        host.log == old(host.log) + e.calls && r == e.result && Current() == e.after
    {
      r := Ok(());
      if shared != null {
        r := host.Destroy(shared);
      }
      shared := null;
    }

    /** summarize */
    method Summarize(input: string, options: Options) returns (r: Result<string>)
      modifies host
      ensures host.env == old(host.env) && host.sessionCount == old(host.sessionCount)
      ensures var e := SummarizeSpec(host.env, host.oracle, old(Current()), input, options);
        host.log == old(host.log) + e.calls && r == e.result
    {
      if SummarizerGlobal in host.env.globals {
        var created := host.SummarizerCreate(options);
        if created.Err? {
          return Err(created.error);
        }
        var text := host.SummarizerSummarize(options, input, NoOptions);
        if text.Err? {
          return text;
        }
        var destroyed := host.SummarizerDestroy();
        if destroyed.Err? {
          return Err(destroyed.error);
        }
        return text;
      }
      // ensureTask("summarizer") names the global just found missing
      EnsureTaskLookups(host.env.globals);
      r := Err(TypeError);
    }

    /** prompt */
    method Prompt(input: string, options: Options) returns (r: Result<string>)
      requires Valid()
      modifies this, host
      ensures Valid() && host.env == old(host.env)
      ensures var e := PromptSpec(host.env, host.oracle, old(Current()), input, options);
        host.log == old(host.log) + e.calls && r == e.result && Current() == e.after
      ensures shared == old(shared) || (old(shared) == null && shared != null && fresh(shared))
    {
      if LanguageModelGlobal in host.env.globals {
        var avail := EnsureLanguageModelAvailability();
        if avail == Unavailable {
          return Err(PromptApiUnavailable);
        }
        var session := GetPromptSession();
        if session.Err? {
          return Err(session.error);
        }
        r := host.Prompt(session.value, input, options);
      } else {
        EnsureTaskLookups(host.env.globals);
        if !EnsureTask(host.env.globals, "prompt") {
          return Err(TypeError);
        }
        var session := host.CreateSession(false);
        if session.Err? {
          return Err(session.error);
        }
        r := host.Prompt(session.value, input, options);
      }
    }

    /** summarizeWebContent */
    method SummarizeWebContent(content: string, meta: Meta) returns (r: Result<string>)
      requires Valid()
      modifies this, host
      ensures Valid() && host.env == old(host.env)
      ensures var e := SummarizeWebContentSpec(host.env, host.oracle, old(Current()), content, meta);
        host.log == old(host.log) + e.calls && r == e.result && Current() == e.after
    {
      if Blank(content) {
        return Ok("");
      }
      ghost var st, log0 := Current(), host.log;
      r := Summarize(content, KeyPointsMarkdown);
      ghost var s := SummarizeSpec(host.env, host.oracle, st, content, KeyPointsMarkdown);
      assert host.log == log0 + s.calls && Current() == st;
      if r.Ok? {
        return r;
      }
      r := Prompt(SummaryFallbackInput(content, meta), Temperature(SummaryTemperature));
      ghost var p := PromptSpec(host.env, host.oracle, st, SummaryFallbackInput(content, meta), Temperature(SummaryTemperature));
      assert host.log == log0 + (s.calls + p.calls);
    }

    /** generateSeoMarkdown */
    method GenerateSeoMarkdown(summary: string, category: BlogCategory, meta: Meta) returns (r: Result<string>)
      requires Valid()
      modifies this, host
      ensures Valid() && host.env == old(host.env)
      ensures var e := GenerateSeoMarkdownSpec(host.env, host.oracle, old(Current()), summary, category, meta);
        host.log == old(host.log) + e.calls && r == e.result && Current() == e.after
    {
      r := Prompt(SeoInput(summary, category, meta), Temperature(SeoTemperature));
    }

    /** generateKeywords */
    method GenerateKeywords(summary: string) returns (r: Result<string>)
      requires Valid()
      modifies this, host
      ensures Valid() && host.env == old(host.env)
      ensures var e := GenerateKeywordsSpec(host.env, host.oracle, old(Current()), summary);
        host.log == old(host.log) + e.calls && r == e.result && Current() == e.after
    {
      r := Prompt(KeywordsInput(summary), Temperature(KeywordsTemperature));
    }
  }
}
