# ai-news daily workflow: a Dafny model

This project models the deterministic core of the daily news podcast pipeline.
It covers two parts.

- **Hacker News fetcher** (`workflow/utils.ts`). The front-page listing turns
  the parsed `.athing.submission` rows into stories. It keeps only rows with
  both an id and a link, and builds each story's discussion URL. Story
  content assembly wraps the title, the article and the comment thread in
  tags. Article and comments are cut to `maxTokens * 4` characters, empty
  sections are dropped, and the rest are joined by `"\n\n---\n\n"`.
- **`HackerNewsWorkflow.run`** (`workflow/index.ts`). The run is a pure
  function. Every external capability is an input outcome: the fetcher
  registry, the story listing, per-story content and summaries, the three
  aggregate generations, speech synthesis, the blob upload and its `head`
  read-back, and the key-value write. The run returns either the failure
  point (`UnknownSource`, `NoStories` or the name of the failed step) or the
  saved record. Either way it also returns the ordered trace of calls made.
  The two storage writes appear in the trace only when they took effect.

Modules: `Results` (Option/Result), `Text` (JavaScript `join`,
`substring(0, n)`, `replaceAll`, `||` on strings), `Listing`, `Content`,
`Workflow`, and `WorkflowProperties` (lemmas about whole runs).

Two points about how the code behaves:

- Only a response with a non-success status becomes an empty section
  (`''`). A rejected fetch, such as a network failure, is not caught, so the
  whole content call rejects. `Content.GetStory` therefore returns
  `Err(FetchRejected)` when either fetch is `Rejected`.
- A listed story is the record `{id, title, url, hackerNewsUrl}` built from
  the page row. `Listing.Story` has exactly those fields and no source
  fields.

## Model

| member | source | states |
|---|---|---|
| Text.Prefix | workflow/utils.ts:79 | `substring(0, n)` yields a prefix of the text of length `min(len, max(0, n))`, so a text within the budget is kept whole |
| Text.ReplaceAll | workflow/index.ts:133 | `replaceAll` keeps the length and maps each character independently: the pattern character becomes the replacement, others are unchanged |
| Text.ReplaceAllRemoves | workflow/index.ts:133 | after replacing `-` by `/` no `-` remains |
| Text.ReplaceAllRoundTrip | workflow/index.ts:133 | replacing `-` by `/` is undone by replacing `/` by `-` when the original had no `/` |
| Text.OrElse | workflow/index.ts:28-31 | the string fallback `a or fallback` gives `a` when it is present and non-empty, and the fallback otherwise |
| Text.JoinEnds | workflow/utils.ts:90 | a join of at least one part starts with the first part and ends with the last one |
| Text.JoinNonEmpty | workflow/utils.ts:90 | joining parts of which at least one is non-empty never gives the empty string |
| Listing.Entries | workflow/utils.ts:21-26 | the parsed rows map one-to-one, in page order, to entries built by `ToEntry` |
| Listing.ToEntry | workflow/utils.ts:21-26 | each parsed row keeps its id, title text and link, and its discussion URL is the item prefix followed by the id |
| Listing.KeepComplete | workflow/utils.ts:28 | the filter keeps an entry exactly when it occurs in the input and has a non-empty id and a non-empty url, and never grows the list |
| Listing.KeepCompleteDistributes | workflow/utils.ts:28 | filtering a concatenation concatenates the filtered parts, so entries stay in page order |
| Listing.KeepCompleteSingle | workflow/utils.ts:28 | a single entry survives exactly when both its fields are truthy |
| Listing.KeepCompleteFixes | workflow/utils.ts:28 | the filter leaves a list unchanged exactly when every entry in it is complete |
| Listing.KeepCompleteIdempotent | workflow/utils.ts:28 | applying the filter twice equals applying it once |
| Listing.TopStories | workflow/utils.ts:20-28 | the i-th listed story is the i-th complete row, has non-empty id and url, and its discussion URL is `https://news.ycombinator.com/item?id=` + id |
| Listing.TopStoriesExactly | workflow/utils.ts:21-28 | a parsed row appears in the listing if and only if its id and link are both present and non-empty |
| Content.DropEmpty | workflow/utils.ts:90 | `filter(Boolean)` keeps exactly the non-empty strings |
| Content.Body | workflow/utils.ts:43-50 | a successful response yields its text and a non-success response yields the empty string |
| Content.Assemble | workflow/utils.ts:68-90 | the payload is the tagged sections whose raw text is non-empty, in the order title, article, comments, joined by `"\n\n---\n\n"` |
| Content.SlotsDropToSections | workflow/utils.ts:68-90 | filtering the three tagged-or-empty slots with `filter(Boolean)` leaves exactly the sections whose raw text is non-empty, in order |
| Content.DropEmptyAppend | workflow/utils.ts:90 | `filter(Boolean)` of a concatenation is the concatenation of the filtered parts |
| Content.GetStory | workflow/utils.ts:31-91 | the content call fails if and only if one fetch rejects; otherwise it returns the joined sections built from both response bodies, cut to `maxTokens * 4` |
| Content.GetStoryNotOkIsEmpty | workflow/utils.ts:40-67 | a non-success response gives the same payload as an empty body, the call still succeeds, and the other section is unaffected |
| Content.GetStoryFailsOnlyOnRejection | workflow/utils.ts:40-67 | the content call fails if and only if one of the two fetches rejects |
| Content.AssembleEmptyIff | workflow/utils.ts:68-90 | the payload is empty if and only if title, article and comments are all empty |
| Content.ArticleSection | workflow/utils.ts:76-82 | a non-empty article is the section right after the optional title, with body cut to `4 * maxTokens` characters and kept whole when shorter |
| Content.CommentsSection | workflow/utils.ts:83-89 | non-empty comments form the last section, cut to the same budget |
| Workflow.Resolve | workflow/index.ts:28-45 | a non-empty environment, date or source is used as given, and a missing or empty one falls back to `production`, the clock date or `hacker-news`; an unset token setting means 4096; the pause is 2 s only in `development`, else 10 s; the title and timestamp come from the settings and the clock |
| Workflow.FirstStories | workflow/index.ts:55 | the processed stories are a prefix of the listing of length `min(n, 10)` |
| Workflow.StoryLoop | workflow/index.ts:58-81 | the loop finishes if and only if every story's content and summary steps succeed; then summary i is story i's summary; it makes only fetch, summarise and pause calls |
| Workflow.UploadAudio | workflow/index.ts:135-152 | the audio step succeeds if and only if audio was produced, uploaded, and `head` reports an object at least as large; it synthesises first and never writes the record |
| WorkflowProperties.StoryLoopTrace | workflow/index.ts:60-81 | when all stories succeed, story i's calls are trace entries 3i..3i+2: fetch, summarise its content, pause; summaries come back in story order |
| WorkflowProperties.StoryLoopStopsAtFirstFailure | workflow/index.ts:60-81 | the loop fails at the first story whose content or summary step fails and names that step; before it, each earlier story made its fetch, summarise and pause calls in order; then come the failing story's fetch and, when its content arrived, its summarise call, and nothing after |
| WorkflowProperties.RunUnknownSource | workflow/index.ts:31-36 | an unregistered source fails the run before any call, and it is the only way to get that failure |
| WorkflowProperties.RunDefaults | workflow/index.ts:28-36 | with an empty payload and no environment name the run uses `hacker-news`, `production` and the clock date, and saves under `content:production:hacker-news:{date}` |
| WorkflowProperties.RunNoStories | workflow/index.ts:47-53 | with a registered source, the run fails with "no stories" if and only if the listing is empty, and then the listing call is the only call made |
| WorkflowProperties.PublishCompleted | workflow/index.ts:83-170 | after the loop, a completed run makes the podcast and blog calls on the joined summaries, the intro call on the podcast script, a verified upload, then the record write |
| WorkflowProperties.RunCompleted | workflow/index.ts:28-170 | a completed run processed exactly the first `min(n, 10)` listed stories in order; its record carries date, title, source, those stories, the three texts and the audio key; its whole trace has a fixed shape |
| WorkflowProperties.RunRecordWriteIsLastAndGuarded | workflow/index.ts:135-170 | in every run the record write is the last call, follows a verified upload of the key the record points to, and occurs if and only if the run completes |
| WorkflowProperties.RunAudioOnlyAfterSummaries | workflow/index.ts:47-152 | in every run, completed or failed, an audio call (synthesis, upload or read-back) occurs only if the source is registered, the listing is non-empty, every processed story was summarised and all three texts were generated; the trace then shows the listing call, each story's fetch, summarise and pause calls, the podcast and blog calls on the joined summaries with their pauses and the intro call, immediately followed by synthesis |
| WorkflowProperties.RunAudioGuard | workflow/index.ts:143-151 | once the audio step is reached, the run fails there if and only if the read-back is missing or smaller than the audio; otherwise it completes if and only if the record write succeeds |
| Workflow.Publish | workflow/index.ts:83-170 | the tail completes only after all three generations, audio synthesis, a verified upload and a successful record write; its record holds the processed stories, the three texts and the audio key |
| Workflow.Run | workflow/index.ts:25-173 | a completed run had a registered source and a non-empty listing, saved the first `min(n, 10)` listed stories, and passed the audio size check; a run that fails before any call failed on the source lookup |
| WorkflowProperties.ContentKeyInjective | workflow/index.ts:132 | `Workflow.ContentKey` (its body) builds `content:{env}:{source}:{date}`; the lemma proves that this key determines env, source and date when env and source contain no colon |
| WorkflowProperties.AudioKeyLayout | workflow/index.ts:133 | the audio key built by `Workflow.AudioKey` starts with the date with every `-` turned into `/`, ends with `{date}.mp3`, and has the expected length |
| WorkflowProperties.AudioKeyDateRoundTrip | workflow/index.ts:133 | the date is recovered from the audio key's path prefix when it has no `/` |

## Left out

- Network fetches through the rendering proxy and their headers (`X-Retain-Images`, `X-Return-Format`, selectors, `Authorization`). The URLs built for them are not modelled either, only the fetch outcomes (`Fetched`, `NotOk`, `Rejected`).
- HTML parsing with cheerio. The parsed rows are an input sequence of `Candidate` values with optional id and link.
- Language-model, text-to-speech, blob-store and key-value calls. They are opaque outcomes in `Services`. The prompts' contents (`./prompt`), the voice, language and rate, and the SDK's own `maxRetries: 3` are not modelled.
- Step durability, retries with exponential backoff, and step timeouts (3 and 5 minutes). These belong to the host runtime. Each step outcome in `Services` stands for the final outcome after retries, so the trace records one attempt per step. Replay after a crash is not modelled.
- Pacing sleeps. They appear as `Pause(seconds)` events with the 2 s / 10 s value, but without any timing.
- The ambient clock. Today's date and the `updatedAt` timestamp are inputs (`Clock`), and the record's `updatedAt` is the clock's `nowMillis`. The program reads the clock twice, once for the date (workflow/index.ts:30) and once when saving (workflow/index.ts:166). The model uses one `Clock` for both reads, so it does not model time passing between them.
- The `fetchers` registry. Its definition is not part of this model, so it is the set of registered source keys. A registered source's listing and content outcomes are inputs, so the workflow does not assume the fetcher is the Hacker News one.
- `Number.parseInt` of `OPENAI_MAX_TOKENS`. The setting enters already parsed as `Option<int>`, and a `NaN` result is not modelled.
- Per-story outcomes are keyed by the whole story value. The program memoises them by step name, which is built from the id and title.
- Workflow.StoryLoop: on failure its contract only says the failure is a step failure. Which step fails, and that nothing follows it, is stated by `WorkflowProperties.StoryLoopStopsAtFirstFailure`.
- Text.Prefix: lengths, and so the `maxTokens * 4` budget, count Unicode characters, whereas JavaScript's `substring` counts UTF-16 code units. Text outside the Basic Multilingual Plane is therefore cut at a different point, and a cut that splits a surrogate pair cannot be represented.
- `console.info` / `console.error` logging.
- The page renderer (`app/page.tsx`), the diagnostic HTTP routes (`workflow/dev.ts`) and build configuration (`next.config.mjs`). They are UI, HTTP plumbing and configuration.
