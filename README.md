# breeze AI orchestration, modelled in Dafny

breeze is a browser extension that turns the page in the active tab into a summary,
an SEO blog post, a keyword list and a social post. It does this with the browser's
built-in AI: a `Summarizer` global and a `LanguageModel` (Prompt API) global. This
project models the orchestration layer between the extension's UI and those
globals. The layer exists in two versions:

- `src/lib/ai/tasks.ts` (module `Tasks`) is the version the side panel loads.
- `src/utils/aiService.ts` (module `AiService`) is a later copy. It adds a guard on
  `window.ai.prompt`, error messages of its own and context windowing.

Both versions hold one mutable piece of state, the shared prompt session. Each is
modelled as a class, `Tasks.Tasks` and `AiService.AiService`:

- The field `shared` holds the stored session.
- Every exported function is a method of the class.
- Each method talks to a `Runtime.Host`. The host stands for the browser's AI
  surface and records its calls in a ghost log. The availability query is not
  logged; see "Left out".

Each method is proved against a pure specification function. That function
returns an `Effect`: the host calls made, the outcome (a value, or the thrown
error as `Err`) and the new shared state. The properties are proved about these
functions:

- The availability mapping.
- The session life cycle: created once, reused, cleared by destroy.
- Which backend is tried first, and when the fallback runs.
- That every prompt carries the intended text at the intended temperature.
- How many sessions a run of prompts creates.
- The shape of the windowed page text and of capped summaries.

Modules:

- `Text`: `trim`, and the capitalisation `ensureTask` uses.
- `Windowing`: `truncateContent` and the summary caps.
- `Runtime`: errors, options, environment, host and call log.
- `Common`: the logic both files share.
- `Tasks` and `AiService`: the two versions.

Behaviour that follows the code:

- **Destroy errors.** `destroyPromptSession` has `try`/`finally` and no `catch`. A
  throwing `destroy` therefore propagates, and the reference is still cleared.
- **The Summarizer fallback never works.** When the `Summarizer` global is missing,
  `ensureTask("summarizer")` reads that same global again. `.create` on `undefined`
  then throws. `tasks.ts` lets that `TypeError` escape. `aiService.ts` replaces it
  with its "Summarizer API not available" error.
- **The prompt fallback reads a different global.** In `aiService.ts` the fallback
  of `prompt` is guarded by `window.ai.prompt` but uses the global `Prompt`.
  Without that global it throws a `TypeError`.
- **Only `aiService.ts` windows text.** `tasks.ts` sends page text and summaries
  whole.

## Model

| member | source | states |
|---|---|---|
| Text.Trim | src/utils/aiService.ts:136-139 | the result is the slice of the input that follows its leading whitespace and is followed only by whitespace; it starts and ends with non-whitespace; it is empty exactly when the input is all whitespace |
| Text.CapitalizeFirst | src/lib/ai/tasks.ts:5 | only the first character may change, and it becomes its upper-case form; the length is kept |
| Text.CapitalizedTaskKeys | src/lib/ai/tasks.ts:3-7 | "summarizer" names the global Summarizer and "prompt" names the global Prompt |
| Windowing.TruncateContent | src/utils/aiService.ts:118-130 | text within the window is unchanged; longer text becomes its first floor(0.6·max) characters, the marker, then its last floor(0.3·max) characters, which do not overlap |
| Windowing.RetainedPartsFit | src/utils/aiService.ts:122-124 | head plus tail take at most 90% of the window |
| Windowing.TruncatedFitsWindow | src/utils/aiService.ts:118-130 | from a window of 310 on, the truncated text fits in the window |
| Windowing.TruncateIdempotent | src/utils/aiService.ts:118-130 | truncating twice equals truncating once |
| Windowing.PageWindowShape | src/utils/aiService.ts:139 | page text over 12000 characters becomes 7200 head characters, the 31-character marker and 3600 tail characters (10831 in all) |
| Windowing.CapHead | src/utils/aiService.ts:213-216 | a text within the limit is unchanged; a longer one is its first `limit` characters followed by the marker |
| Windowing.SeoSummaryCap | src/utils/aiService.ts:213-216 | the blog summary is unchanged up to 4000 characters; beyond that it is its first 4000 characters plus the summary marker; it is never longer than 4000 plus the marker |
| Windowing.ShortSummaryCap | src/utils/aiService.ts:234-237 | the same with 3000 characters and the short marker, as in the keyword and social-post pipelines |
| Runtime.Host.CreateSession | src/lib/ai/tasks.ts:55 | `create()` is logged; it throws, or returns a fresh session with the next number |
| Runtime.Host.Prompt | src/lib/ai/tasks.ts:78 | `session.prompt` is logged with its input and options, and resolves to the model's reply or throws |
| Runtime.Host.Destroy | src/lib/ai/tasks.ts:61 | the optional `destroy` is logged only when present, and throws only when the host's destroy throws |
| Runtime.Host.SummarizerCreate | src/lib/ai/tasks.ts:17 | `Summarizer.create(options)` is logged, then it throws or succeeds |
| Runtime.Host.SummarizerSummarize | src/lib/ai/tasks.ts:18 | `summarize(input)` is logged, then it throws or returns the summary for the creation options |
| Runtime.Host.SummarizerDestroy | src/lib/ai/tasks.ts:19 | the optional `destroy` of the instance is logged only when present |
| Common.Classify | src/lib/ai/tasks.ts:36-49 | ready, downloadable and downloading each correspond, both ways, to that exact host answer with the global present; every other case, including a missing global and a throwing query, is unavailable |
| Common.EnsureTaskLookups | src/lib/ai/tasks.ts:3-7 | ensureTask("summarizer") finds something exactly when the Summarizer global exists, and ensureTask("prompt") exactly when the Prompt global exists |
| Common.GetPromptSessionSpec | src/lib/ai/tasks.ts:51-57 | without LanguageModel it throws and changes nothing, even with a stored session; a stored session is returned with no call; otherwise one `create()` is made and its session is stored exactly when it succeeds |
| Common.DestroyPromptSessionSpec | src/lib/ai/tasks.ts:59-65 | the stored reference is always cleared; `destroy` is called only on a stored session that has one; the outcome fails exactly when that destroy throws |
| Common.DestroyThenGetCreates | src/lib/ai/tasks.ts:51-65 | after a destroy, the next getPromptSession calls `create()` again |
| Common.LanguageModelPromptSpec | src/lib/ai/tasks.ts:72-80 | an unavailable answer, and only that, throws before any logged call; any other answer prompts the stored session, or else one newly created and stored, exactly once, and returns its reply; a throwing `create()` is the outcome and stores nothing; at most one `create()`, none when a session is stored |
| Common.EnsureTaskPromptSpec | src/lib/ai/tasks.ts:81-85 | the shared session is untouched and no LanguageModel session is created; without the Prompt global it throws a TypeError before any call; with it, a throwaway session is created, prompted once, and its reply returned |
| Common.PendingStatesProceed | src/lib/ai/tasks.ts:41-45 | a downloadable or downloading model does not throw "unavailable": the prompt goes through the shared session like a ready one |
| Common.GlobalSummarizerSpec | src/lib/ai/tasks.ts:15-21 | the calls are exactly create, then summarize unless create threw, then destroy only when summarizing succeeded and a destroy exists; no prompt; succeeds exactly when summarizing succeeds and destroy does not throw; the value is the summary of the input under the creation options |
| Tasks.SummaryFallbackInput | src/lib/ai/tasks.ts:103-107 | the fallback prompt starts with the instruction and the page line, and ends with the whole content between triple quotes |
| Tasks.SummaryFallbackKeepsContent | src/lib/ai/tasks.ts:105-107 | different page contents give different fallback prompts: the content is passed whole |
| Tasks.SeoInput | src/lib/ai/tasks.ts:124-146 | the blog prompt starts with the system text and the verbatim category label, and ends with the whole summary and the closing line |
| Tasks.SeoInputKeepsSummary | src/lib/ai/tasks.ts:136-146 | different summaries give different blog prompts: the summary is passed whole |
| Tasks.KeywordsInput | src/lib/ai/tasks.ts:153-158 | the keyword prompt is the instruction followed by the whole summary between triple quotes |
| Tasks.SummarizeSpec | src/lib/ai/tasks.ts:10-26 | with the Summarizer global, it makes exactly the calls and gives exactly the outcome of Common.GlobalSummarizerSpec; without it, it throws a TypeError with no call; no prompt and no state change; a value is the summary of the input |
| Tasks.PromptSpec | src/lib/ai/tasks.ts:67-86 | throws "unavailable" exactly when LanguageModel exists and reports unavailable; otherwise with LanguageModel the input goes once to the shared session and its reply is returned; without it, to a throwaway session from the global Prompt; at most one `create()`; every prompt carries the input and options; with neither LanguageModel nor Prompt it throws a TypeError with no call |
| Tasks.SummarizeWebContentSpec | src/lib/ai/tasks.ts:89-111 | blank content gives "" with no call; otherwise the summarizer runs first and its summary is returned; only its failure sends the fallback prompt, at temperature 0.1, carrying the content, whose outcome and state are the pipeline's |
| Tasks.PromptRunCreatesAtMostOnce | src/lib/ai/tasks.ts:51-80 | any run of prompts creates at most one LanguageModel session, and none while a session is stored, which then stays stored |
| Tasks.PromptRunStoresNothingOnFailure | src/lib/ai/tasks.ts:51-80 | when `create()` keeps throwing, a run of prompts starting with nothing stored never stores a session |
| Tasks.Tasks.constructor | src/lib/ai/tasks.ts:29 | the module starts with no stored session |
| Tasks.Tasks.EnsureLanguageModelAvailability | src/lib/ai/tasks.ts:36-49 | returns the availability of the host environment |
| Tasks.Tasks.GetPromptSession | src/lib/ai/tasks.ts:51-57 | makes the calls, gives the outcome and leaves the state of GetPromptSessionSpec; a new session is fresh and stored |
| Tasks.Tasks.DestroyPromptSession | src/lib/ai/tasks.ts:59-65 | as DestroyPromptSessionSpec; nothing is stored afterwards |
| Tasks.Tasks.Summarize | src/lib/ai/tasks.ts:10-26 | as Tasks.SummarizeSpec; the shared session is untouched |
| Tasks.Tasks.Prompt | src/lib/ai/tasks.ts:67-86 | as Tasks.PromptSpec; the stored session is kept or newly created |
| Tasks.Tasks.SummarizeWebContent | src/lib/ai/tasks.ts:89-111 | as Tasks.SummarizeWebContentSpec |
| Tasks.Tasks.GenerateSeoMarkdown | src/lib/ai/tasks.ts:114-150 | one prompt of the blog input at temperature 0.3, through Tasks.PromptSpec |
| Tasks.Tasks.GenerateKeywords | src/lib/ai/tasks.ts:152-162 | one prompt of the keyword input at temperature 0.2, through Tasks.PromptSpec |
| AiService.Window | src/utils/aiService.ts:136-139 | the text sent for a page never exceeds 12000 characters; a trimmed page within the window is sent as it is; a longer one becomes its first 7200 characters, the marker and its last 3600 characters |
| AiService.SummaryFallbackInput | src/utils/aiService.ts:148-152 | the fallback prompt starts with the instruction line and ends with the windowed content |
| AiService.BlogInput | src/utils/aiService.ts:210-226 | the blog prompt starts with the system text and the verbatim category label, and ends with the capped summary and the closing line |
| AiService.KeywordsInput | src/utils/aiService.ts:232-243 | the keyword prompt is the instruction followed by the capped summary |
| AiService.RedditInput | src/utils/aiService.ts:251-257 | the social-post prompt starts with its system text and ends with the capped summary |
| AiService.SummarizeSpec | src/utils/aiService.ts:83-112 | with the Summarizer global, it makes exactly the calls and gives exactly the outcome of Common.GlobalSummarizerSpec, whose errors propagate; without it, it throws "Summarizer API not available" with no call; no prompt and no state change |
| AiService.PromptSpec | src/utils/aiService.ts:50-81 | "no AI API" exactly when neither LanguageModel nor `window.ai.prompt` exists, with no call; "unavailable" exactly when LanguageModel reports it; otherwise with LanguageModel the input goes once to the shared session and its reply is returned; with only `window.ai.prompt`, to a throwaway session from the global Prompt, or a TypeError without that global; at most one `create()` |
| AiService.SummarizeWebContentSpec | src/utils/aiService.ts:132-155 | blank content gives "" with no call; otherwise the summarizer and the fallback prompt at temperature 0.1 both receive the windowed text; the summary is returned, and only the summarizer's failure sends the prompt, whose outcome and state are the pipeline's |
| AiService.LongPageFallback | src/utils/aiService.ts:118-155 | for a 20000-character page and a summarize that throws, the calls are exactly create, summarize of head, marker and tail, and one prompt of them to the stored session at temperature 0.1 |
| AiService.LongSummaryBlogPrompt | src/utils/aiService.ts:212-224 | a summary over 4000 characters reaches the blog prompt as its first 4000 characters and the marker, before the closing line |
| AiService.ShortSummaryKeywordsPrompt | src/utils/aiService.ts:233-241 | a summary of at most 3000 characters reaches the keyword prompt unmodified |
| AiService.AiService.constructor | src/utils/aiService.ts:31 | the module starts with no stored session |
| AiService.AiService.EnsureLanguageModelAvailability | src/utils/aiService.ts:14-29 | returns the availability of the host environment |
| AiService.AiService.GetPromptSession | src/utils/aiService.ts:33-40 | makes the calls, gives the outcome and leaves the state of GetPromptSessionSpec; a new session is fresh and stored |
| AiService.AiService.DestroyPromptSession | src/utils/aiService.ts:42-48 | as DestroyPromptSessionSpec; nothing is stored afterwards |
| AiService.AiService.Summarize | src/utils/aiService.ts:83-112 | as AiService.SummarizeSpec; the shared session is untouched |
| AiService.AiService.Prompt | src/utils/aiService.ts:50-81 | as AiService.PromptSpec; the stored session is kept or newly created |
| AiService.AiService.SummarizeWebContent | src/utils/aiService.ts:132-155 | as AiService.SummarizeWebContentSpec |
| AiService.AiService.GenerateSeoMarkdown | src/utils/aiService.ts:204-230 | one prompt of the blog input at temperature 0.3, through AiService.PromptSpec |
| AiService.AiService.GenerateKeywords | src/utils/aiService.ts:232-245 | one prompt of the keyword input at temperature 0.2, through AiService.PromptSpec |
| AiService.AiService.GenerateRedditPost | src/utils/aiService.ts:247-261 | one prompt of the social-post input at temperature 0.3, through AiService.PromptSpec |

## Left out

- Asynchrony: each `await` is a sequential call. Two pipelines running at once, and so racing on the shared session, are not modelled.
- Availability queries: `LanguageModel.availability()` is not recorded in the host's call log. Its answer is part of the environment, so "before any call" in the rows above means before any logged call.
- Host behaviour: the browser's AI APIs are a fixed environment plus an oracle of replies. A reply does not depend on the session's earlier prompts.
- Session creation: one `createFails` switch covers both `LanguageModel.create()` and `Prompt.create()`.
- `self` and `window`: they are the same global object in the side panel, so `self.X || window.X` is one lookup. A global counts as present when it is truthy.
- Non-function globals: a global present but not callable is not modelled.
- Text units: strings are sequences of code points. JavaScript measures `length` and `slice` in UTF-16 units, so for text outside the Basic Multilingual Plane the model's cut points differ.
- Windowing.KeepStart: `Math.floor(maxLength * 0.6)` is computed exactly as `6 * maxLength / 10`. IEEE rounding of the product is not modelled.
- Windowing.KeepEnd: `Math.floor(maxLength * 0.3)` is computed exactly as `3 * maxLength / 10`. IEEE rounding of the product is not modelled.
- Text.UpperCase: only ASCII letters are upper-cased, which covers the only task keys the code passes.
- Options: these are the three option objects the code passes, not arbitrary records. A temperature is written in tenths.
- Unused prompt text: `prompt1` in `src/utils/aiService.ts` is never used and is not modelled.
- Result wrapper: the `TaskResult` wrapper is reduced to its text.
- Tasks.PromptRunCreatesAtMostOnce: stated for `tasks.ts` only. The per-call facts it rests on are also in AiService.PromptSpec's contract.
- The rest of the extension is not part of this model: UI components, the side panel, content extraction in the content script, and the background scripts.
