/** src/utils/aiService.ts, the later copy of the orchestration module: the same shared
    prompt session, a `prompt` whose fallback is guarded by `window.ai.prompt` and that
    reports a missing backend, a `summarize` that reports a missing Summarizer, and
    pipelines that window their inputs: page text is trimmed and truncated to 12000
    characters, summaries are capped at 4000 or 3000 characters. */
module AiService {
  import opened Text
  import opened Windowing
  import opened Runtime
  import opened Common

  /** The instruction of the fallback summary prompt. */
  const SummarySystem := "Summarize the web page into concise key points. Output markdown bullets only."

  /** The system part of the blog prompt (`prompt2`). */
  const BlogSystem :=
    "You are a blog writing assistant. \nWrite a complete SEO-optimized markdown article with the following structure:\n- H1: Compelling, keyword-rich title\n- Engaging intro summarizing the topic and reader benefit.\n- Use clear H2 and H3 headings.\n- Explain key points naturally using keywords from context.\n- Summarize and end with a short call to action (CTA).\nRules:\n- Output markdown only (no explanations or comments)\n- Be factual; use only info from summary\n- Keep sentences short and natural\n- Avoid repetition or generic filler\n- Maintain coherent flow"

  /** The system part of the social-post prompt (`redditPrompt`), with the three code
      points the source file holds where a dash was meant. */
  const RedditSystem :=
    "\nYou are writing a Reddit post for a relevant subreddit.\nWrite in a natural, human tone \U{00E2}\U{20AC}\U{201D} no marketing or promotional language.\nBe curious, authentic, and informal, like a real Redditor sharing insights or asking for feedback.\n\nRules:\n- Keep it under 300 words.\n- Start with a relatable hook or question.\n- Use short paragraphs for readability.\n- Avoid hashtags, emojis, or marketing tone.\n- Optionally end with an open-ended question to invite discussion.\n\nUse only the facts or ideas from the provided content summary.\nOutput plain text only (no markdown or HTML).\n"

  /** The instruction of the keyword prompt. */
  const KeywordsInstruction := "Extract 15-25 SEO keywords/keyphrases. Return comma-separated list only.\n\n"

  /** The closing line of the blog prompt. */
  const BlogClosing := "\n\nWrite the complete markdown article:"

  /** Temperatures, in tenths. */
  const SummaryTemperature := 1
  const KeywordsTemperature := 2
  const BlogTemperature := 3
  const RedditTemperature := 3

  /** A JavaScript truthiness test of an optional string: present and not empty. */
  predicate Truthy(x: Option<string>)
  {
    x.Some? && x.value != ""
  }

  /** What summarizeWebContent sends to the backends: the trimmed content, truncated to
      the page window. It never exceeds the window; a longer page keeps its first 7200 and
      last 3600 characters around the marker. */
  function Window(content: string): (w: string)
    ensures |w| <= PageWindow
    ensures |Trim(content)| <= PageWindow ==> w == Trim(content)
    ensures |Trim(content)| > PageWindow ==>
      var t := Trim(content);
      w == t[..7200] + ContentMarker + t[|t| - 3600..]
  {
    var t := Trim(content);
    TruncatedFitsWindow(t, PageWindow);
    if |t| <= PageWindow then TruncateContent(t, PageWindow)
    else
      PageWindowShape(t);
      TruncateContent(t, PageWindow)
  }

  /** A text built as head, middle and tail starts with the head and ends with the tail. */
  lemma Framed(head: string, middle: string, tail: string)
    ensures StartsWith(head + (middle + tail), head) && EndsWith(head + (middle + tail), tail)
  {
    var r := head + (middle + tail);
    assert r[..|head|] == head;
    assert r[|head|..] == middle + tail;
    assert (middle + tail)[|middle|..] == tail;
  }

  /** The fallback summary prompt: instruction, an optional title line, then the windowed
      content. */
  function SummaryFallbackInput(meta: Meta, truncated: string): (r: string)
    ensures StartsWith(r, SummarySystem + "\n")
    ensures EndsWith(r, "\n\nContent:\n" + truncated)
  {
    var title := if Truthy(meta.title) then "Title: " + meta.title.value else "";
    var head := SummarySystem + "\n" + title;
    var r := head + "\n\nContent:\n" + truncated;
    assert r == SummarySystem + "\n" + (title + "\n\nContent:\n" + truncated);
    assert r == head + ("\n\nContent:\n" + truncated);
    r
  }

  /** The blog prompt: the system part, the category label verbatim, an optional source
      line, then the capped summary. */
  function BlogInput(summary: string, category: BlogCategory, meta: Meta): (r: string)
    ensures StartsWith(r, BlogSystem + "\n\nCategory: " + category.Label() + "\n")
    ensures EndsWith(r, "\n\nSummary:\n" + SeoSummaryCap(summary) + BlogClosing)
  {
    var source := if Truthy(meta.title) then "Source: " + meta.title.value else "";
    var head := BlogSystem + "\n\nCategory: " + category.Label() + "\n";
    var tail := "\n\nSummary:\n" + SeoSummaryCap(summary) + BlogClosing;
    Framed(head, source, tail);
    head + (source + tail)
  }

  /** The keyword prompt: the instruction followed by the capped summary. */
  function KeywordsInput(summary: string): (r: string)
    ensures StartsWith(r, KeywordsInstruction)
    ensures r[|KeywordsInstruction|..] == ShortSummaryCap(summary)
  {
    KeywordsInstruction + ShortSummaryCap(summary)
  }

  /** The social-post prompt: the system part, an optional source line, then the capped
      summary. */
  function RedditInput(summary: string, meta: Meta): (r: string)
    ensures StartsWith(r, RedditSystem + "\n\n")
    ensures EndsWith(r, "Summary:\n" + ShortSummaryCap(summary))
  {
    var source := if Truthy(meta.title) then "Source: " + meta.title.value + "\n" else "";
    var head := RedditSystem + "\n\n";
    Framed(head, source, "Summary:\n" + ShortSummaryCap(summary));
    head + (source + ("Summary:\n" + ShortSummaryCap(summary)))
  }

  /** summarize: the global Summarizer when it exists, with its exceptions propagating.
      Otherwise ensureTask("summarizer") reads the same missing global, `.create` on
      undefined throws, and the catch turns that into "Summarizer API not available". */
  function SummarizeSpec(env: Environment, oracle: Oracle, st: State, input: string, options: Options): (e: Effect<string>)
    ensures e.after == st && NoPrompt(e.calls) && SummariesCarry(e.calls, input) && CreateCount(e.calls) == 0
    ensures SummarizerGlobal !in env.globals ==> e == Effect([], Err(SummarizerApiNotAvailable), st)
    ensures e.result.Ok? ==> e.result.value == oracle.summary(options, input)
    ensures SummarizerGlobal in env.globals ==> e == GlobalSummarizerSpec(env, oracle, st, input, options)
  {
    if SummarizerGlobal in env.globals then GlobalSummarizerSpec(env, oracle, st, input, options)
    else
      EnsureTaskLookups(env.globals);
      assert !EnsureTask(env.globals, "summarizer");
      Effect([], Err(SummarizerApiNotAvailable), st)
  }

  /** prompt: through the shared session when the LanguageModel global exists; else, when
      `window.ai.prompt` exists, through a throwaway session from ensureTask("prompt"),
      which reads the global Prompt rather than `window.ai`; else "No AI API available". */
  function PromptSpec(env: Environment, oracle: Oracle, st: State, input: string, options: Options): (e: Effect<string>)
    ensures e.result == Err(PromptApiUnavailable) <==>
      LanguageModelGlobal in env.globals && LanguageModelAvailability(env) == Unavailable
    ensures e.result == Err(NoAiApi) <==> LanguageModelGlobal !in env.globals && !env.windowAiPrompt
    ensures LanguageModelGlobal !in env.globals && !env.windowAiPrompt ==> e.calls == []
    ensures LanguageModelGlobal !in env.globals && env.windowAiPrompt && PromptGlobal !in env.globals ==>
      e == Effect([], Err(TypeError), st)
    ensures LanguageModelGlobal !in env.globals ==> e.after.shared == st.shared && CreateCount(e.calls) == 0
    ensures e.after.shared == st.shared || st.shared.None?
    ensures PromptsCarry(e.calls, input, options)
    ensures CreateCount(e.calls) <= 1 && (st.shared.Some? ==> CreateCount(e.calls) == 0)
    ensures LanguageModelGlobal in env.globals && LanguageModelAvailability(env) != Unavailable ==>
      ThroughSharedSession(env, oracle, st, input, options, e)
    ensures LanguageModelGlobal !in env.globals && env.windowAiPrompt && PromptGlobal in env.globals ==>
      ThroughThrowawaySession(env, oracle, st, input, options, e)
  {
    if LanguageModelGlobal in env.globals then LanguageModelPromptSpec(env, oracle, st, input, options)
    else if env.windowAiPrompt then EnsureTaskPromptSpec(env, oracle, st, input, options)
    else Effect([], Err(NoAiApi), st)
  }

  /** summarizeWebContent: nothing is called for empty or whitespace-only content;
      otherwise the summarizer and, only if it throws, the fallback prompt at temperature
      0.1 both receive the windowed content. */
  function SummarizeWebContentSpec(env: Environment, oracle: Oracle, st: State, content: string, meta: Meta): (e: Effect<string>)
    ensures Blank(content) ==> e == Effect([], Ok(""), st)
    ensures !Blank(content) ==>
      && SummariesCarry(e.calls, Window(content))
      && PromptsCarry(e.calls, SummaryFallbackInput(meta, Window(content)), Temperature(SummaryTemperature))
    ensures !Blank(content) ==>
      var s := SummarizeSpec(env, oracle, st, Window(content), KeyPointsMarkdown);
      && |s.calls| <= |e.calls| && e.calls[..|s.calls|] == s.calls
      && (s.result.Ok? ==> e == s)
      && (s.result.Err? ==>
            var p := PromptSpec(env, oracle, st, SummaryFallbackInput(meta, Window(content)), Temperature(SummaryTemperature));
            e.calls[|s.calls|..] == p.calls && e.result == p.result && e.after == p.after)
  {
    if Blank(content) then Effect([], Ok(""), st)
    else
      var truncated := Window(content);
      var s := SummarizeSpec(env, oracle, st, truncated, KeyPointsMarkdown);
      if s.result.Ok? then s
      else
        var p := PromptSpec(env, oracle, s.after, SummaryFallbackInput(meta, truncated), Temperature(SummaryTemperature));
        CarryAppend(s.calls, p.calls, truncated, SummaryFallbackInput(meta, truncated), Temperature(SummaryTemperature));
        Then(s, p)
  }

  /** generateSeoMarkdown: one prompt at temperature 0.3; its failure is not caught. */
  function GenerateSeoMarkdownSpec(env: Environment, oracle: Oracle, st: State, summary: string, category: BlogCategory, meta: Meta): Effect<string>
  {
    PromptSpec(env, oracle, st, BlogInput(summary, category, meta), Temperature(BlogTemperature))
  }

  /** generateKeywords: one prompt at temperature 0.2; its failure is not caught. */
  function GenerateKeywordsSpec(env: Environment, oracle: Oracle, st: State, summary: string): Effect<string>
  {
    PromptSpec(env, oracle, st, KeywordsInput(summary), Temperature(KeywordsTemperature))
  }

  /** generateRedditPost: one prompt at temperature 0.3; its failure is not caught. */
  function GenerateRedditPostSpec(env: Environment, oracle: Oracle, st: State, summary: string, meta: Meta): Effect<string>
  {
    PromptSpec(env, oracle, st, RedditInput(summary, meta), Temperature(RedditTemperature))
  }

  /** A 20000-character page whose summarizer throws: the fallback prompt, sent to the
      stored session at temperature 0.1, carries the first 7200 characters of the page,
      the marker and its last 3600 characters. */
  lemma LongPageFallback(env: Environment, oracle: Oracle, st: State, content: string, meta: Meta)
    requires Trim(content) == content && |content| == 20000
    requires SummarizerGlobal in env.globals && env.summarizer == SummarizeThrows
    requires LanguageModelGlobal in env.globals && env.availability == Some("available") && st.shared.Some?
    ensures var sent := content[..7200] + ContentMarker + content[16400..];
      SummarizeWebContentSpec(env, oracle, st, content, meta).calls ==
        [ Call.SummarizerCreate(KeyPointsMarkdown), Call.SummarizerSummarize(sent, NoOptions),
          SessionPrompt(st.shared.value, SummaryFallbackInput(meta, sent), Temperature(1)) ]
  {
    assert !Blank(content);
    PageWindowShape(content);
    var w := Window(content);
    assert w == content[..7200] + ContentMarker + content[16400..];
  }

  /** A summary over 4000 characters reaches the blog prompt as its first 4000
      characters followed by the marker, right before the closing line. */
  lemma LongSummaryBlogPrompt(summary: string, category: BlogCategory, meta: Meta)
    requires |summary| > SeoSummaryLimit
    ensures EndsWith(BlogInput(summary, category, meta), "\n\nSummary:\n" + summary[..SeoSummaryLimit] + SummaryMarker + BlogClosing)
  {
    var lead, kept := "\n\nSummary:\n", summary[..SeoSummaryLimit];
    assert SeoSummaryCap(summary) == kept + SummaryMarker;
    assert lead + kept + SummaryMarker == lead + (kept + SummaryMarker);
    assert EndsWith(BlogInput(summary, category, meta), lead + SeoSummaryCap(summary) + BlogClosing);
  }

  /** A summary within 3000 characters reaches the keyword prompt unmodified. */
  lemma ShortSummaryKeywordsPrompt(summary: string)
    requires |summary| <= ShortSummaryLimit
    ensures KeywordsInput(summary) == KeywordsInstruction + summary
  {
  }

  /** The module's mutable part: its `sharedPromptSession` and the host it talks to. */
  class AiService {
    const host: Host
    var shared: Session?

    /** Only a LanguageModel session is ever stored. */
    ghost predicate Valid()
      reads this
    {
      shared != null ==> shared.fromLanguageModel
    }

    ghost function Current(): State
      reads this, host
    {
      State(if shared == null then None else Some(shared.id), host.sessionCount)
    }

    constructor(host: Host)
      ensures this.host == host && shared == null && Valid()
    {
      this.host := host;
      shared := null;
    }

    /** ensureLanguageModelAvailability */
    method EnsureLanguageModelAvailability() returns (a: Availability)
      ensures a == LanguageModelAvailability(host.env)
    {
      a := Classify(LanguageModelGlobal in host.env.globals, host.env.availability);
    }

    /** getPromptSession */
    method GetPromptSession() returns (r: Result<Session>)
      requires Valid()
      modifies this, host
      ensures Valid() && host.env == old(host.env)
      ensures var e := GetPromptSessionSpec(host.env, old(Current()));
        && host.log == old(host.log) + e.calls && Current() == e.after
        && r.Ok? == e.result.Ok? && (r.Ok? ==> r.value == shared && r.value.id == e.result.value)
        && (r.Err? ==> r.error == e.result.error)
      ensures shared == old(shared) || (old(shared) == null && shared != null && fresh(shared))
    {
      if LanguageModelGlobal !in host.env.globals {
        return Err(PromptApiNotAvailable);
      }
      if shared != null {
        return Ok(shared);
      }
      var created := host.CreateSession(true);
      if created.Err? {
        return Err(created.error);
      }
      shared := created.value;
      r := Ok(shared);
    }

    /** destroyPromptSession */
    method DestroyPromptSession() returns (r: Result<()>)
      modifies this, host
      ensures Valid() && shared == null && host.env == old(host.env)
      ensures var e := DestroyPromptSessionSpec(host.env, old(Current()));
        host.log == old(host.log) + e.calls && r == e.result && Current() == e.after
    {
      r := Ok(());
      if shared != null {
        r := host.Destroy(shared);
      }
      shared := null;
    }

    /** summarize */
    method Summarize(input: string, options: Options) returns (r: Result<string>)
      modifies host
      ensures host.env == old(host.env) && host.sessionCount == old(host.sessionCount)
      ensures var e := SummarizeSpec(host.env, host.oracle, old(Current()), input, options);
        host.log == old(host.log) + e.calls && r == e.result
    {
      if SummarizerGlobal in host.env.globals {
        var created := host.SummarizerCreate(options);
        if created.Err? {
          return Err(created.error);
        }
        var text := host.SummarizerSummarize(options, input, NoOptions);
        if text.Err? {
          return text;
        }
        var destroyed := host.SummarizerDestroy();
        if destroyed.Err? {
          return Err(destroyed.error);
        }
        return text;
      }
      // ensureTask("summarizer") names the global just found missing; the TypeError it
      // leads to is caught and replaced
      EnsureTaskLookups(host.env.globals);
      r := Err(SummarizerApiNotAvailable);
    }

    /** prompt */
    method Prompt(input: string, options: Options) returns (r: Result<string>)
      requires Valid()
      modifies this, host
      ensures Valid() && host.env == old(host.env)
      ensures var e := PromptSpec(host.env, host.oracle, old(Current()), input, options);
        host.log == old(host.log) + e.calls && r == e.result && Current() == e.after
      ensures shared == old(shared) || (old(shared) == null && shared != null && fresh(shared))
    {
      if LanguageModelGlobal in host.env.globals {
        var avail := EnsureLanguageModelAvailability();
        if avail == Unavailable {
          return Err(PromptApiUnavailable);
        }
        var session := GetPromptSession();
        if session.Err? {
          return Err(session.error);
        }
        r := host.Prompt(session.value, input, options);
        return;
      }
      if host.env.windowAiPrompt {
        EnsureTaskLookups(host.env.globals);
        if !EnsureTask(host.env.globals, "prompt") {
          return Err(TypeError);
        }
        var session := host.CreateSession(false);
        if session.Err? {
          return Err(session.error);
        }
        r := host.Prompt(session.value, input, options);
        return;
      }
      r := Err(NoAiApi);
    }

    /** summarizeWebContent */
    method SummarizeWebContent(content: string, meta: Meta) returns (r: Result<string>)
      requires Valid()
      modifies this, host
      ensures Valid() && host.env == old(host.env)
      ensures var e := SummarizeWebContentSpec(host.env, host.oracle, old(Current()), content, meta);
        host.log == old(host.log) + e.calls && r == e.result && Current() == e.after
    {
      if Blank(content) {
        return Ok("");
      }
      var truncated := TruncateContent(Trim(content), PageWindow);
      ghost var st, log0 := Current(), host.log;
      r := Summarize(truncated, KeyPointsMarkdown);
      ghost var s := SummarizeSpec(host.env, host.oracle, st, truncated, KeyPointsMarkdown);
      assert host.log == log0 + s.calls && Current() == st;
      if r.Ok? {
        return r;
      }
      r := Prompt(SummaryFallbackInput(meta, truncated), Temperature(SummaryTemperature));
      ghost var p := PromptSpec(host.env, host.oracle, st, SummaryFallbackInput(meta, truncated), Temperature(SummaryTemperature));
      assert host.log == log0 + (s.calls + p.calls);
    }

    /** generateSeoMarkdown */
    method GenerateSeoMarkdown(summary: string, category: BlogCategory, meta: Meta) returns (r: Result<string>)
      requires Valid()
      modifies this, host
      ensures Valid() && host.env == old(host.env)
      ensures var e := GenerateSeoMarkdownSpec(host.env, host.oracle, old(Current()), summary, category, meta);
        host.log == old(host.log) + e.calls && r == e.result && Current() == e.after
    {
      r := Prompt(BlogInput(summary, category, meta), Temperature(BlogTemperature));
    }

    /** generateKeywords */
    method GenerateKeywords(summary: string) returns (r: Result<string>)
      requires Valid()
      modifies this, host
      ensures Valid() && host.env == old(host.env)
      ensures var e := GenerateKeywordsSpec(host.env, host.oracle, old(Current()), summary);
        host.log == old(host.log) + e.calls && r == e.result && Current() == e.after
    {
      r := Prompt(KeywordsInput(summary), Temperature(KeywordsTemperature));
    }

    /** generateRedditPost */
    method GenerateRedditPost(summary: string, meta: Meta) returns (r: Result<string>)
      requires Valid()
      modifies this, host
      ensures Valid() && host.env == old(host.env)
      ensures var e := GenerateRedditPostSpec(host.env, host.oracle, old(Current()), summary, meta);
        host.log == old(host.log) + e.calls && r == e.result && Current() == e.after
    {
      r := Prompt(RedditInput(summary, meta), Temperature(RedditTemperature));
    }
  }
}
