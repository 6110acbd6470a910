# Verified models of the content pipeline

A Dafny 4.11 model of the parts of the competitor-content pipeline whose correctness is hardest to see from the code:
a schema compiler, a Markdown escaper, two article renderers, the analysis run and its history, the approval log, the
job scheduler, the polite crawler, the word diff behind "minor edit", and slugs. `dafny verify dfyconfig.toml` checks
all of it.

Code that only computes is written as functions; code that changes objects is written as classes and loops, each
method proved equal to a specification function, about which the lemmas speak. Protocols (approvals, jobs, carried
analyses, the rate limiter) are state machines whose steps are single database transactions or the stretches between
two awaits, so that every interleaving is a sequence of steps.

| files | what they model |
|---|---|
| `Json`, `SchemaInliner`, `SchemaSiblings`, `SchemaMeaning`, `SchemaOutput`, `SchemaPass` | `gemini_schema`: inlining `$ref`, forcing `required`, dropping `default`, refusing recursion; with a semantics of JSON Schema to compare input and output |
| `Pieces`, `MdxEscape`, `MdxTokens`, `MdxMeaning`, `MdxLayout`, `MdxTheorems` | `mdx_escape`: seventeen substitutions on a string, proved against a decoder |
| `RenderWalk`, `HtmlText`, `HtmlRenderer`, `MarkdownRenderer`, `MarkdownProse`, `Articles`, `Numerals`, `Sequences` | the two renderers and `render_article` |
| `AnalysisQueue`, `CarryForward`, `WordDiff` | the analysis run, the analyses it carries forward, and when an edit is minor |
| `Approvals` | decisions on one exact version and quality report |
| `Schedules`, `JobQueue`, `Workers` | fire times, the job queue under several workers, and one worker's catch-up and tick |
| `Sitemaps`, `Fetcher`, `RateLimiter` | the sitemap walk, what a fetch may request, and per-host pacing |
| `Slugs` | `slugify` and `unique_slug` |

## What comes from outside

Libraries, the network, the database and clocks enter as parameters that may answer anything:

- Regular-expression character tables (`MdxEscape.Classes`), the engine of the renderers (`RenderWalk.Engine`), word and
  line splitting (`WordDiff.Splitter`), ASCII folding, URL parsing, the robots.txt parser. Where a proof needs a fact about
  one of them it is a named predicate: `MdxMeaning.PythonTables`, `RenderWalk.Lawful`, `Slugs.KeepsAscii`.
- A cron trigger is its "first fire time at or after" function; `Schedules.Lawful` says that it is the earliest, on whole
  minutes.
- Model replies, HTTP replies, host checks and clock readings are functions of how many there were before, so a statement
  for all such functions is one for every pattern of failures.
- A transaction is one step, and the unique dedupe key, the one-live-decision index and the foreign keys of the database are
  part of the steps that write.

## Where the code and its descriptions differ

- `mdx_escape` says its output renders as exactly the input. It does not for a `www.` written with a capital, which is
  lowered: `MdxTheorems.CapitalIsLost`. `MdxTheorems.EscapeRoundTrips` says that this is the only exception.
- `auto_approve_in` says that it never overrides a rejection of the same version and report. That holds while the rejection is
  live. A rejection invalidated by another recommendation does not come back with its version and report, and then the policy
  approves them: `Approvals.PolicyApprovesWhatWasRejected`. The exact condition is `Approvals.PolicyOverridesWhen`.
- `latest_occurrence` says (after, now]. The code starts a second later and misses a fire time within that second:
  `Schedules.FirstSecondIsMissed`. `Schedules.FirstSecondIsSkipped` says exactly when that matters.
- `truncated` may be set on a sitemap walk that missed nothing: `Sitemaps.CompleteButTruncated`. That takes a site with
  exactly as many sitemaps, or exactly as many entries, as are allowed (`Sitemaps.TruncatedOnBoundary`); on any other site
  the flag is right (`Sitemaps.TruncatedWhen`, `Sitemaps.EndlessIsTruncated`).
- A keyword beside a `$ref` replaces the definition's own keyword instead of adding to it, a `required` name that is not a
  declared property is lost, and a constant object is rewritten as if it were a schema: the three last rows of the schema
  inliner.
- 408 and 429 for robots.txt are treated as server errors (disallow all), where section 2.3.1.3 of RFC 9309 would put them
  among the client errors.

## Model

| member | source | states |
|---|---|---|
| SchemaMeaning.GeminiMeaning | app/llm/gemini.py:217-256 | a value satisfies the inlined schema, read without any definition, exactly when it carries every property declared for each object it is checked against and satisfies the schema with every reference unfolded, keywords beside a reference replacing the definition's own and `required` ignored |
| SchemaMeaning.GeminiIsDeclared | app/llm/gemini.py:217-256 | where keywords beside a reference replace nothing: exactly when it carries every declared property and satisfies the model's schema but for `required` |
| SchemaMeaning.GeminiIsStrict | app/llm/gemini.py:217-256 | where `required` names declared properties as well: exactly when it carries every declared property and satisfies the model's schema |
| SchemaMeaning.ResolveMeaning | app/llm/gemini.py:231-253 | the same for any node, anywhere on the path of unfolded definitions |
| SchemaMeaning.DeclaredIsStrict | app/llm/gemini.py:250-252 | where `required` names declared properties, it adds nothing for a reader who asks for all of them |
| SchemaSiblings.UnfoldedIsDeclared | app/llm/gemini.py:241-242 | where what stands beside a reference is no condition on a value, or a scalar keyword that the definition does not have, replacing means the conjunction the standard asks for |
| SchemaMeaning.InlinedIsStronger | app/llm/gemini.py:217-256 | where nothing beside a reference replaces anything, `required` names declared properties and there is no `oneOf`, whatever the inlined schema accepts the original schema accepts |
| SchemaMeaning.StrictIsStronger | app/llm/gemini.py:222-226 | without `oneOf`, a schema read strictly accepts nothing that it does not accept as the standard reads it |
| SchemaOutput.OutputIsSelfContained | app/llm/gemini.py:236-253 | no reference to a definition and no `default` keyword survives, and `required` follows `properties` and lists all of them; names under `properties` are kept |
| SchemaOutput.ResolveIsIdempotent | app/llm/gemini.py:231-253 | a second pass, with any definitions, changes nothing |
| SchemaOutput.RefusalIsReached | app/llm/gemini.py:236-242 | every error comes from a node that a path of followed keys and references reaches and that cannot be passed |
| SchemaOutput.ReachedIsRefused | app/llm/gemini.py:236-242 | and reaching such a node makes the whole pass fail |
| SchemaOutput.RecursionIsFound | app/llm/gemini.py:237-240 | where every reference names an object definition, the pass fails exactly when some path meets a definition already on it, and then with the recursion error |
| SchemaPass.ResolveNode | app/llm/gemini.py:231-253 | the recursive pass with its loops terminates on every schema, cyclic ones included, and gives what the specification function gives |
| SchemaPass.ResolveList | app/llm/gemini.py:232-233 | the loop over a list |
| SchemaPass.ResolvePropertyDict | app/llm/gemini.py:247-249 | the loop over `properties`, keeping every name and its place |
| SchemaPass.ResolveDict | app/llm/gemini.py:243-253 | the loop that fills `out`, `required` being assigned in the middle |
| SchemaPass.SiblingReplacesDefinition | app/llm/gemini.py:241-242 | a schema and a value for which a keyword beside a reference changes the meaning |
| SchemaPass.UndeclaredRequiredIsLost | app/llm/gemini.py:250-252 | a schema and a value for which a `required` name without a declared property is lost |
| SchemaPass.ConstantObjectIsRewritten | app/llm/gemini.py:244-252 | a schema and a value for which a constant object is read as a schema |
| MdxTheorems.EscapeRoundTrips | app/services/article_markdown.py:40-59 | decoding the escaped text gives the text back exactly when it has no `www.` with a capital letter |
| MdxTheorems.CapitalIsLost | app/services/article_markdown.py:51 | a text that does not read back, with tables for ASCII |
| MdxTheorems.EscapeIsInjective | app/services/article_markdown.py:40-59 | two such texts that differ never escape to the same Markdown |
| MdxTheorems.NothingIsBare | app/services/article_markdown.py:42-52 | for every text: no raw angle bracket or brace is left, and each bracket, backtick, star, underscore and tilde stands after an odd number of backslashes |
| MdxTokens.PassOnTokens | app/services/article_markdown.py:42-52 | one substitution over the string is one over the characters, escapes and references it stands for, and changes nothing of what they stand for |
| MdxLayout.SameWww | app/services/article_markdown.py:35-51 | the `www.` pattern matches in the escaped string exactly where it matches in the prose |
| AnalysisQueue.BatchDigests | app/services/digest.py:195-208 | the batches are the digests in order, none lost or repeated, within the limits, each closed only when the next digest did not fit |
| AnalysisQueue.StepKeeps | app/services/analysis.py:629-674 | one turn of the queue, whatever the reply, keeps the accounts of pages and the potential that bounds the calls |
| AnalysisQueue.EachPageEndsOnce | app/services/analysis.py:624-674 | the accounts mean that each page ends as exactly one of answered, failed or pending |
| AnalysisQueue.AnalysisRun.Analyze | app/services/analysis.py:624-674 | at most 3N - B calls for N pages in B batches, every page ends in exactly one way, pending only after a halt, failures only for a page refused alone or omitted twice |
| AnalysisQueue.AnalysisRun.SendBatch | app/services/analysis.py:629-674 | one turn of the loop changes the run as the specification's step does |
| AnalysisQueue.AnalysisRun.TakeAnswers | app/services/analysis.py:660-674 | the answered pages are stored, the others retried once and failed the second time |
| AnalysisQueue.AnalysisRun.Persist | app/services/analysis.py:680-715 | the versions answered are the stored ones afterwards; an analysis already there is kept, and not counted, unless reanalysing |
| CarryForward.NeverDrifts | app/services/analysis.py:164-173 | in every history of captures, deletions and interleaved runs, a copy that names a source names a stored model-made analysis of the same page and analyser, with the same results, at most twelve words and no title away |
| CarryForward.NeverTwice | app/services/analysis.py:680-700 | in every history no version has two analyses by one analyser |
| CarryForward.StepKeeps | app/services/analysis.py:523-604 | every transaction keeps copies rooted, and what runs in progress remember of their selection true of what is left of it |
| CarryForward.PreviousIsRemembered | app/services/analysis.py:523-561 | the earlier analysis selected for a page is model-made, of that page and analyser, with the text it was made from |
| CarryForward.LatestIsLatest | app/services/analysis.py:528-545 | the analysis picked for a page is the latest by time, then by id |
| CarryForward.UndisturbedRunCarries | app/services/analysis.py:356-364 | a run whose copying directly follows its selection never fails and copies every page whose edit is minor |
| CarryForward.RootsDiffer | app/services/analysis.py:546-561 | two pages never share a root, so the dictionary from roots to pages loses none |
| CarryForward.Analyses.PreviousFor | app/services/analysis.py:523-561 | the two queries and the dictionary between them give each page its earlier analysis |
| CarryForward.Analyses.CarryForward | app/services/analysis.py:565-604 | the copying transaction: all pages or, on a conflict, none, and how many were copied |
| CarryForward.Analyses.Persist | app/services/analysis.py:680-715 | the storing transaction: an existing analysis is kept, or replaced when reanalysing, its copies losing their source |
| WordDiff.DiffConserves | app/services/change_detection.py:47-57 | the opcodes rebuild either sequence from the other, and what is not matched is added or removed: old minus removed is new minus added is the number of matches |
| WordDiff.LongestIsLongest | app/services/change_detection.py:49 | no common run of a window is longer than the one the alignment starts from |
| WordDiff.NothingInCommon | app/services/change_detection.py:47-57 | nothing is matched exactly when the two sequences share no word |
| WordDiff.SimilarityThreshold | app/services/change_detection.py:27-34 | ninety per cent similar is twice the matches being at least nine times the changes, two empty texts included |
| WordDiff.MinorByCounts | app/services/change_detection.py:27-34 | on the word-level branch an edit is minor exactly when the title is the same, at most twelve words changed and the matches meet that bound |
| WordDiff.UnchangedIsMinor | app/services/change_detection.py:64-87 | a page is a minor edit of itself, on either branch |
| WordDiff.Changes | app/services/change_detection.py:47-57 | the loop over the opcodes gives the similarity and the added and removed elements, with the conservation law |
| Approvals.EveryRunIsSound | app/services/approvals.py:98-144 | over every run: at most one live decision, every invalidated one with a reason, one that was superseded naming the later decision that did it, every decision about a passed report of that very version, no live decision stale |
| Approvals.RunKeeps | app/services/approvals.py:98-144 | and no recorded decision is altered or removed: a live row may be invalidated once, and stays as it is from then on |
| Approvals.InvalidatedForGood | app/services/approval_rules.py:65-88 | an invalidated decision never authorizes again, even if its version is recommended once more |
| Approvals.CanPublishIsApproved | app/services/approvals.py:146-189 | for every state: it can be published exactly when it is shown as approved, and then the article is ready and the live approval is of the exact version and report |
| Approvals.StatesMean | app/services/approvals.py:156-165 | what each of the five states shown means, in terms of the log |
| Approvals.RecordDecisionKeeps | app/services/approvals.py:99-126 | a decision on a ready article is live afterwards, of the recommended version and report, and the row is new unless the same decision stood |
| Approvals.PolicyApprovesWhen | app/services/approvals.py:128-144 | auto-approval records an approval exactly when it is on, the article is ready and no decision is live |
| Approvals.RejectionStands | app/services/approvals.py:137-140 | while a rejection is live and its version and report stay recommended, no sequence of policy runs and validations approves them |
| Approvals.PolicyApprovesWhatWasRejected | app/services/approvals.py:128-144 | a history in which the policy approves a version and report that a person rejected |
| Approvals.PolicyOverridesWhen | app/services/approvals.py:128-144 | the policy approves a version and report that an earlier row rejected exactly when it is on, the article is ready, no decision is live and a rejection of what is recommended is on record |
| Approvals.ArticleApprovals.DecideIn | app/services/approvals.py:99-126 | the rows after a decision: the live one invalidated first and told by which decision, the new one added |
| Approvals.ArticleApprovals.DecideNow | app/services/approvals.py:75-96 | approving and rejecting: a rejection needs a reason, and only a ready article can be decided on |
| Approvals.ArticleApprovals.AutoApproveIn | app/services/approvals.py:128-144 | the policy as a transaction |
| Approvals.ArticleApprovals.InvalidateStale | app/services/approval_rules.py:80-88 | the live decision is invalidated with the reason it is stale, and only then |
| Approvals.ArticleApprovals.InvalidateAll | app/services/approval_rules.py:91-96 | the live decision is invalidated with the reason given |
| Approvals.ArticleApprovals.Authorize | app/services/publishing.py:255-264 | a publication is authorized exactly when the article is ready and its live decision approves it, or there is none and the policy is on |
| Schedules.LatestWhen | app/scheduling/schedules.py:94-104 | the walk ends on the last fire time from a second after `after` until `now`, or None, exactly when that window holds at most 20,000 |
| Schedules.CatchUpIsExact | app/scheduling/schedules.py:43-104 | for any catch-up window the configuration allows there are at most 10,080 fire times, so the walk is never cut short |
| Schedules.FiresAreSparse | app/scheduling/schedules.py:94-104 | a window of n minutes holds at most n fire times |
| Schedules.FirstSecondIsSkipped | app/scheduling/schedules.py:94-98 | the result is the last fire time after `after` exactly when there is none at all or one a second or more later |
| Schedules.FirstSecondIsMissed | app/scheduling/schedules.py:94-98 | a schedule and two moments for which the fire time in between is not found |
| Schedules.WalkOccurrences | app/scheduling/schedules.py:94-104 | the bounded loop gives what the specification function gives |
| Schedules.NextRuns | app/scheduling/schedules.py:69-79 | the next runs are the fire times from now on, in order, none skipped |
| JobQueue.OneJobPerOccurrence | app/scheduling/worker.py:105-114 | whatever the processes do, a schedule never has two jobs for the same minute |
| JobQueue.OneCatchUpPerStart | app/scheduling/worker.py:85-103 | a restart adds at most one job per schedule |
| JobQueue.NoCatchUpBeforeAFire | app/scheduling/worker.py:94-97 | and none for a schedule that never fired |
| JobQueue.PausedIsSkipped | app/scheduling/worker.py:107-110 | an occurrence read as paused is recorded as skipped and not started, unless it has a job already |
| JobQueue.SkippedIsNeverStarted | app/services/jobs.py:262-277 | once recorded as skipped, an occurrence is never started and its row never changes |
| JobQueue.StepKeeps | app/services/jobs.py:169-410 | every step of every process keeps keys unique and jobs in agreement with their keys |
| Workers.SecondCatchUpAddsNothing | app/scheduling/worker.py:85-103 | a second catch-up at the same instant, by any worker, enqueues nothing |
| Workers.OnlyTheLatestStarts | app/services/jobs.py:384-409 | of a schedule's waiting occurrences only the latest may start; the others are skipped |
| Workers.LaunchedAre | app/scheduling/worker.py:118-126 | a tick starts at most one job of each kind, none of a kind already running here, and leaves no due kind idle |
| Workers.JobService.Due | app/services/jobs.py:384-409 | the two loops over the locked rows skip exactly the superseded ones and return the rest in order |
| Workers.JobService.Add | app/services/jobs.py:169-208 | a taken key adds nothing and returns the job that has it |
| Workers.Worker.Occurrence | app/scheduling/worker.py:105-114 | an occurrence becomes a job, or while paused a skipped record, and only a new job is started |
| JobQueue.LateFireIsMeant | app/scheduling/worker.py:76-83 | a fire at most an hour late, with none since, stands for the time it was meant for, so that two late workers mean the same occurrence |
| Workers.Worker.Fire | app/scheduling/worker.py:76-83 | the job is for that occurrence |
| Workers.Worker.CatchUpMissed | app/scheduling/worker.py:85-103 | the loop over the schedules, with at most one job for each |
| Workers.Worker.Tick | app/scheduling/worker.py:118-128 | the loop that grows `busy` starts exactly the jobs the specification selects |
| Sitemaps.CrawlIsBounded | app/crawling/sitemaps.py:142-179 | files and entries stay within their bounds, no URL is requested twice, only reachable ones are, and the entries are those of the fetched sitemaps up to the bound |
| Sitemaps.CompleteWhen | app/crawling/sitemaps.py:159-178 | the walk asked for exactly the reachable sitemaps and dropped no entry exactly when all that is left in the queue was seen and the entries fit |
| Sitemaps.NotTruncatedIsComplete | app/crawling/sitemaps.py:178 | a walk not marked as truncated is complete |
| Sitemaps.TruncatedWhen | app/crawling/sitemaps.py:159-178 | unless a site has exactly as many sitemaps or entries as allowed and not more of either: `truncated` is set exactly when something is missing, and nothing is exactly when both are fewer than allowed |
| Sitemaps.TruncatedOnBoundary | app/crawling/sitemaps.py:178 | on that boundary no entry is missing; the flag is set all the same with as many entries, or when anything is left in the queue, and if no sitemap fails that is only what was seen before |
| Sitemaps.EndlessIsTruncated | app/crawling/sitemaps.py:178 | a site without end is always marked as truncated |
| Sitemaps.CompleteButTruncated | app/crawling/sitemaps.py:178 | a site whose walk is complete and still marked as truncated |
| Sitemaps.SortedIs | app/crawling/sitemaps.py:136-139 | children are queued once each, relevant and recently changed ones first |
| Sitemaps.SitemapCrawl.CrawlSitemaps | app/crawling/sitemaps.py:142-179 | the loop terminates, though failed files do not count, and has these properties |
| Fetcher.PoliteFetcher.Fetch | app/crawling/fetcher.py:154-205 | every request is in scope, to a host that an earlier check found public (unless private networks are enabled), allowed by a policy that an earlier fetch of that origin's robots.txt gave and that had not expired when it was looked up for this request, and paced by it; at most (redirects + 1)(retries + 1) of its own. What it sent is one turn after another, each a first try and its retries, each redirected to from the one before; the last reply, or the reason why nothing more was sent, gives the result; looking up robots.txt terminates |
| Fetcher.PoliteFetcher.RobotsPolicy | app/crawling/fetcher.py:207-244 | an unexpired policy is used without a request; otherwise robots.txt is fetched, with robots.txt requests only, and the policy is cached; either way it is one that a fetch of that origin's robots.txt gave |
| Fetcher.PoliteFetcher.LookUp | app/crawling/fetcher.py:217-235 | unless it redirects, the last reply decides on the policy for every URL of the origin |
| Fetcher.PoliteFetcher.Send | app/crawling/fetcher.py:255-303 | one hop: at most one request and its retries, all alike; every reply but the last was one to try again, and the last one, at that attempt, is what is returned or raised |
| Fetcher.PoliteFetcher.Clear | app/crawling/fetcher.py:171-181 | a request may be sent only to a URL in scope, on a host that passed the check, by a policy that is cached and unexpired or was looked up just now; the pause is the longest asked for |
| Fetcher.PoliteFetcher.EnsureSafe | app/crawling/fetcher.py:246-253 | a host is trusted exactly when it passed the check or private networks are allowed; otherwise the error says what the check found |
| Fetcher.PoliteFetcher.Cached | app/crawling/robots.py:56-60 | a cached policy is used exactly until it expires |
| Fetcher.PoliteFetcher.Put | app/crawling/robots.py:62-63 | a policy is kept for its lifetime from the clock's next reading, and nothing else in the cache changes |
| Fetcher.RobotsStatusMeans | app/crawling/fetcher.py:225-235 | the last reply of a lookup, for every URL of the origin: a client error, a challenge or a wrong type of content leaves the site unrestricted, a server or network error disallows it, and otherwise what robots.txt says holds |
| Fetcher.AfterSend | app/crawling/fetcher.py:182-205 | a turn of the redirect loop ends the fetch with what its reply says, or leads to the redirect's target, keeping all that every fetch keeps |
| Fetcher.RobotsDone | app/crawling/fetcher.py:218-244 | fetching robots.txt sends nothing else, and gives a policy to record or one of the two errors that go through, with its cause |
| Fetcher.OwnAtMost | app/crawling/fetcher.py:172-196 | whatever the replies, the requests of a fetch's own number at most (redirects + 1)(retries + 1) |
| Fetcher.MayLater | app/crawling/fetcher.py:255-300 | a request that might be sent may be sent again: what allowed it stays true |
| RateLimiter.EveryHostIsPaced | app/crawling/ratelimit.py:19-32 | in every interleaving at most one request to a host is in flight, and each starts at least its delay after the previous one ended |
| RateLimiter.NoLockIsLost | app/crawling/ratelimit.py:19-32 | a host is locked only while a task sleeps or sends, and not a moment longer than its delay asks; cancelling it frees the host |
| RateLimiter.HostRateLimiter.TakeLock | app/crawling/ratelimit.py:22-28 | with the lock: how long to sleep, or sending at once |
| RateLimiter.HostRateLimiter.Wake | app/crawling/ratelimit.py:28-30 | after the sleep the request begins |
| RateLimiter.HostRateLimiter.Exit | app/crawling/ratelimit.py:29-32 | the end is recorded however the request went |
| RateLimiter.HostRateLimiter.Cancel | app/crawling/ratelimit.py:22-32 | a task cancelled at any of its awaits gives the lock back, and a request under way is recorded as ended |
| RenderWalk.PlaceIsGood | app/services/article_render.py:96-106 | the spans found for links are inside the text and never overlap, and exactly their links become placed |
| RenderWalk.OrderedIsConsecutive | app/services/article_render.py:107-109 | sorted by start, each span ends before the next begins |
| RenderWalk.EachLinkOnce | app/services/article_render.py:96-113 | over a whole article each link is put inline at most once, and the placed links are those put inline |
| HtmlText.EscapedIsInert | app/services/article_render.py:52-53 | escaped text has no angle bracket and no quote |
| HtmlRenderer.ProseShowsTheText | app/services/article_render.py:96-113 | removing the tags from what is written for a text gives back the escaped text, for any links |
| HtmlRenderer.NumberedByFirstUse | app/services/article_render.py:85-94 | the cited labels are the known ones in order of first use, once each, and so are the unknown ones |
| HtmlRenderer.EveryReferenceResolves | app/services/article_render.py:85-94 | every reference has the number its label ends up with |
| HtmlRenderer.Renderer.Plain | app/services/article_render.py:96-113 | the two loops of a piece of prose: which links become placed, what is written, and that it shows the text |
| HtmlRenderer.Renderer.Cite | app/services/article_render.py:85-94 | numbers are given on first citation, and unknown labels remembered |
| HtmlRenderer.Renderer.Text | app/services/article_render.py:72-83 | the loop over markers |
| HtmlRenderer.Renderer.Sections | app/services/article_render.py:139-150 | the loops over sections, blocks and items |
| MarkdownRenderer.Renderer.Plain | app/services/article_markdown.py:124-142 | the Markdown renderer places links as the HTML one does |
| MarkdownRenderer.Renderer.Cite | app/services/article_markdown.py:113-122 | and meets labels as it does |
| MarkdownRenderer.Renderer.Text | app/services/article_markdown.py:101-111 | the loop over markers |
| MarkdownRenderer.Renderer.Sections | app/services/article_markdown.py:159-172 | the loops over sections, blocks and numbered items, and the headings |
| MarkdownRenderer.RenderMarkdownBody | app/services/article_markdown.py:145-180 | the whole body, its headings, its flags and its unknown labels |
| Articles.RenderArticle | app/services/article_render.py:116-208 | the two renderers end with the same flags and the same unknown labels, for every article, links and sources; the parts, notes and lists are the specified ones |
| Articles.EveryLinkIsAccountedFor | app/services/article_render.py:155-161 | every accepted link is put inline once, or listed as related reading, or noted as left out |
| Articles.LinksAreAllowed | app/services/article_render.py:127-136 | every link goes to an allowed target and has an anchor |
| Articles.SourcesAreNumbered | app/services/article_render.py:162-171 | the Sources list is exactly 1 to k, each entry the stored source of its label |
| Articles.ReferencesFindTheirSource | app/services/article_render.py:85-94 | every reference in the body leads to the entry of the label it stands for |
| MarkdownProse.ProseReadsBack | app/services/article_markdown.py:124-142 | prose with links is written piece by piece, the pieces together are the text, every stretch between links reads back exactly, but for a capital in a `www.`, and every label reads back on one line |
| MarkdownProse.LabelReadsBack | app/services/article_markdown.py:62-63 | the label of a link, before white space around it is stripped, reads back as its text on one line |
| MarkdownProse.UnlinkedReadsBack | app/services/article_markdown.py:124-128 | prose in which no link is placed reads back from the Markdown exactly, but for a capital in a `www.` |
| Slugs.SlugifyGivesASlug | app/services/article_content.py:164-170 | for every title: non-empty runs of lower-case letters and digits joined by single hyphens, at most eighty characters |
| Slugs.SlugifyIsIdempotent | app/services/article_content.py:164-170 | the slug of a slug is that slug |
| Slugs.SlugifyCoversEverySlug | app/services/article_content.py:164-170 | and every such string, and nothing else, is the slug of some title |
| Slugs.UniqueSlug | app/services/article_content.py:173-180 | the loop ends for every finite set of names, with a number of at most one more than there are names, and gives the first free candidate |
| Slugs.Pigeonhole | app/services/article_content.py:177-179 | as many candidates as there are taken names, and one more, cannot all be taken |
| Slugs.CandidateIsSlug | app/services/article_content.py:180 | a numbered slug is a slug still |

## Left out

- SchemaMeaning.GeminiMeaning: is for schemas whose data keywords have plain arguments; `SchemaPass.ConstantObjectIsRewritten` shows what happens otherwise. What `pattern` and `format` accept is a parameter. Keywords with subschemas other than the ones modelled (`not`, `if`, `prefixItems`, `patternProperties`, `dependentSchemas`) count as annotations.
- SchemaMeaning.InlinedIsStronger: is for schemas without `oneOf`, because with it accepting fewer values in one alternative can accept more in all.
- MdxTheorems.EscapeRoundTrips: is about backslashes and character references, not about how Markdown lays out blocks; `_BLOCK_START` looks at the start of the text only.
- WordDiff.Changes: joins no adjacent matching blocks, as `difflib` does before it makes opcodes; that changes neither what is added or removed nor the similarity. Similarity is a real number, without rounding.
- Approvals.RejectionStands: holds while the rejection is live, which is all that is true of the code.
- Fetcher.PoliteFetcher.Fetch: models one fetch at a time; several fetches sharing the robots cache and the locks around it are not interleaved, except for pacing, which `RateLimiter` models in every interleaving. The delay before a retry enters only where it decides that there is none.
- HtmlRenderer.Renderer.Text: the white space and punctuation tidied after a text is put together is a parameter, so statements about what is shown are about the pieces before it.
- AnalysisQueue.AnalysisRun.Analyze: takes the documents of a reply by number; normalising the document id in the reply ("2", " d2 ") is not modelled. Events and log lines other than failures are not either.
- Heartbeats and advisory locks of jobs: a stale job may be recovered, and a claimed one found busy, at any time, which allows more than the code does.
- Parsing and fetching of sitemaps is one function of the URL, since no URL is asked for twice.
- What the pages, prompts, taxonomy topics and profiles contain; `_select`'s order and limits enter as the list of pages a run selects.
- `clean_citations`, `diff_excerpt`, prices, `classify_url`, backoff formulas and cron parsing: branches to read, nothing that spans operations.
- The publishing targets, the command line, the API routes, settings and database models.
