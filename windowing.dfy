/** Context windowing of src/utils/aiService.ts: the head-and-tail truncation of page
    text (truncateContent) and the head-only caps applied to a summary before it is
    embedded in a generation prompt. All lengths are counted in code points. */
module Windowing {

  /** The marker truncateContent puts between the retained head and tail. */
  const ContentMarker := "\n\n[... content truncated ...]\n\n"
  /** The marker the blog pipeline appends to a capped summary. */
  const SummaryMarker := "\n[... summary truncated ...]"
  /** The marker the keyword and social-post pipelines append to a capped summary. */
  const ShortMarker := "\n[... truncated ...]"

  /** The window summarizeWebContent uses for page text. */
  const PageWindow := 12000
  /** The cap on the summary embedded in the blog prompt. */
  const SeoSummaryLimit := 4000
  /** The cap on the summary embedded in the keyword and social-post prompts. */
  const ShortSummaryLimit := 3000

  /** `Math.floor(maxLength * 0.6)`, taken as exact integer arithmetic. */
  function KeepStart(maxLength: nat): nat
  {
    (6 * maxLength) / 10
  }

  /** `Math.floor(maxLength * 0.3)`, taken as exact integer arithmetic. */
  function KeepEnd(maxLength: nat): nat
  {
    (3 * maxLength) / 10
  }

  /** The head and the tail together take at most 90% of the window, so they never
      overlap in a text longer than the window. */
  lemma RetainedPartsFit(maxLength: nat)
    ensures KeepStart(maxLength) + KeepEnd(maxLength) <= maxLength
    ensures 10 * (KeepStart(maxLength) + KeepEnd(maxLength)) <= 9 * maxLength
  {
    var a, b := KeepStart(maxLength), KeepEnd(maxLength);
    assert 10 * a <= 6 * maxLength;
    assert 10 * b <= 3 * maxLength;
  }

  /** truncateContent: text within the window is returned as it is; longer text keeps a
      head of KeepStart characters and a tail of KeepEnd characters of the original,
      joined by ContentMarker, so its length no longer depends on the input's. */
  function TruncateContent(content: string, maxLength: nat): (r: string)
    ensures |content| <= maxLength ==> r == content
    ensures |content| > maxLength ==>
      var head, tail := KeepStart(maxLength), KeepEnd(maxLength);
      && head + tail < |content|
      && |r| == head + |ContentMarker| + tail
      && r[..head] == content[..head]
      && r[head..head + |ContentMarker|] == ContentMarker
      && r[head + |ContentMarker|..] == content[|content| - tail..]
  {
    if |content| <= maxLength then content
    else
      var keepStart := KeepStart(maxLength);
      var keepEnd := KeepEnd(maxLength);
      var removeStart := |content| - keepEnd;
      RetainedPartsFit(maxLength);
      content[..keepStart] + ContentMarker + content[removeStart..]
  }

  /** From a window of 310 characters on, a truncated text fits in the window. */
  lemma TruncatedFitsWindow(content: string, maxLength: nat)
    requires maxLength >= 310
    ensures |TruncateContent(content, maxLength)| <= maxLength
  {
    if |content| > maxLength {
      RetainedPartsFit(maxLength);
    }
  }

  /** Windowing twice with such a window is windowing once. */
  lemma TruncateIdempotent(content: string, maxLength: nat)
    requires maxLength >= 310
    ensures TruncateContent(TruncateContent(content, maxLength), maxLength)
         == TruncateContent(content, maxLength)
  {
    TruncatedFitsWindow(content, maxLength);
  }

  /** The page window in numbers: any page text longer than 12000 characters becomes its
      first 7200 characters, the marker and its last 3600 characters, 10831 in all. */
  lemma PageWindowShape(content: string)
    requires |content| > PageWindow
    ensures var r := TruncateContent(content, PageWindow);
      && |r| == 10831
      && r[..7200] == content[..7200]
      && r[7200..7231] == ContentMarker
      && r[7231..] == content[|content| - 3600..]
  {
    assert KeepStart(PageWindow) == 7200 && KeepEnd(PageWindow) == 3600;
  }

  /** The head-only cap: a text within `limit` is passed unmodified and without a marker;
      a longer one becomes its first `limit` characters followed by `marker`. */
  function CapHead(s: string, limit: nat, marker: string): (r: string)
    ensures |s| <= limit ==> r == s
    ensures |s| > limit ==> |r| == limit + |marker| && r[..limit] == s[..limit] && r[limit..] == marker
  {
    if |s| > limit then s[..limit] + marker else s
  }

  /** The summary cap of generateSeoMarkdown: 4000 characters and SummaryMarker. */
  function SeoSummaryCap(summary: string): (r: string)
    ensures |r| <= SeoSummaryLimit + |SummaryMarker|
    ensures |summary| <= SeoSummaryLimit ==> r == summary
    ensures |summary| > SeoSummaryLimit ==>
      |r| == SeoSummaryLimit + |SummaryMarker| && r[..SeoSummaryLimit] == summary[..SeoSummaryLimit] && r[SeoSummaryLimit..] == SummaryMarker
  {
    CapHead(summary, SeoSummaryLimit, SummaryMarker)
  }

  /** The summary cap of generateKeywords and generateRedditPost: 3000 characters and
      ShortMarker. */
  function ShortSummaryCap(summary: string): (r: string)
    ensures |r| <= ShortSummaryLimit + |ShortMarker|
    ensures |summary| <= ShortSummaryLimit ==> r == summary
    ensures |summary| > ShortSummaryLimit ==>
      |r| == ShortSummaryLimit + |ShortMarker| && r[..ShortSummaryLimit] == summary[..ShortSummaryLimit] && r[ShortSummaryLimit..] == ShortMarker
  {
    CapHead(summary, ShortSummaryLimit, ShortMarker)
  }
}
