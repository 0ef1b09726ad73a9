# w2r Telegram bot: a verified model of its core

The Telegram bot of w2r (`extension/tgbot/main.go`) saves links for later
reading. It long-polls the Bot API for updates. For each update it reads
the text of the decoded `Message`, or failing that of the decoded
`ChannelPost`. From that text it takes the first `http://` or
`https://` word as the URL and every `#` word before it as a tag. It looks up
the page's `<title>` and sends a GitHub `repository_dispatch` event of type
`"webhook"` carrying the URL, the title and the tags. When polling fails it
backs off: five retries, with sleeps of 1, 2, 4, 8 and 16 seconds. If all five
fail, the process exits with status 1.

The model has six modules besides the `Wrappers` helper, which holds `Option`:

- `Text` holds the pieces of Go's `strings` and `unicode` packages the bot
  uses: `Fields`, `HasPrefix`, `TrimPrefix`, `TrimSpace` and `IsSpace`.
- `Extractor` holds `parseURLAndTags`:
  - a method that runs the source's loop;
  - the function `Extract`, which specifies that method;
  - lemmas on how messages are read.
- `TitleSearch` holds the recursive title search of `getTitle` over a parsed
  HTML tree. Its reference definition is a scan of the tree's `title` elements
  in document order.
- `Dispatcher` holds the `Dispatch` and `ClientPayload` records.
- `PollLoop` covers `pollUpdates`, `retryPollUpdates` and the per-update
  handling:
  - a class `Poller` whose fields are the loop's state;
  - its methods, each proved equal to a function on a `Trace` of everything
    the bot did (offsets requested, URLs looked up, dispatches sent, sleeps,
    exit status). The trace also keeps one log, `events`, of the
    `getUpdates` calls and the sleeps in the order they happen.
- `PollFacts` holds what the loop guarantees, proved on those functions:
  - exactly one dispatch per URL, in order;
  - the back-off schedule;
  - exit status 1 exactly when five retries fail;
  - the nil-dereference panic as the only other way out;
  - every dispatch is a trimmed-title `"webhook"` event for a URL word;
  - where the Bot API returns only updates at or past the requested offset
    (`Honest`), the cursor never moves back. The decoder at main.go:134 does
    not keep that promise; see the "## Left out" line on decoded updates.

The network is a `World` of oracles:

- `fetch(n, o)` answers the n-th `getUpdates` call, made at offset `o`.
- `title(n)` answers the n-th title lookup.
- `post(n)` answers the n-th POST.

`FromPages` ties the title oracle to `GetTitle` over the parsed pages. Sleeps
are recorded as durations in seconds. The shutdown signal is modelled as the
number of loop iterations that start before `pollUpdates` sees it. The
"## Left out" line on `main` says what that leaves out.

Facts about the code that the model keeps:

- A URL without tags is sent with an empty tag list. `parseURLAndTags` adds
  no fallback tag. The `"unsorted"` fallback tag of the test file
  `extension/tgbot/main_test.go:61` belongs to a different version of the
  program, and that of
  `extension/firefox/content_scripts/content-script.js:18` belongs to the
  browser extension.
- `sendPOSTRequest` returns no error whatever status code GitHub answers
  with; it fails only when encoding, building or sending the request fails.
  The POST outcome is recorded (`Sent.result`), and nothing else depends on
  it.
- The `Authorization` header carries the token exactly as given, with no
  scheme prefix. That header is outside the model.
- The error of `getTitle` is discarded (main.go:88). A failed page fetch
  or parse still leads to a dispatch, with the title `""`. This goes
  through `PageTitle` and `TitleFor`.
- Besides exit code 0 (shutdown) and exit code 1 (retries used up), the
  process can die with status 2. This is the Go runtime's panic on a
  `<title>` element with no child, at main.go:160. It is modelled as
  `Exited(2)`.

## Model

| member | source | states |
|---|---|---|
| Text.TrimPrefix | extension/tgbot/main.go:183 | with the prefix present, the prefix followed by the result is the input; otherwise the input is unchanged |
| Text.LeadingSpace | extension/tgbot/main.go:171 | the length of the leading white-space run that `TrimSpace` removes: all space before it, a non-space at it |
| Text.TrimRight | extension/tgbot/main.go:171 | the result is a prefix of the input, only white space follows it, and it does not end in white space |
| Text.TrimSpace | extension/tgbot/main.go:171 | the result has no white space at either end; it is the slice of the input that starts after the leading white space and leaves only white space after it |
| Text.TrimSpaceKeepsTrimmed | extension/tgbot/main.go:171 | a string without white space at either end is its own trim |
| Text.TrimSpaceIdempotent | extension/tgbot/main.go:171 | trimming twice equals trimming once |
| Text.WordLength | extension/tgbot/main.go:178 | the length of the longest space-free prefix: no space inside, space or the end right after |
| Text.FieldsAreWords | extension/tgbot/main.go:178 | every word `strings.Fields` returns is non-empty and has no white space |
| Text.FieldsEmpty | extension/tgbot/main.go:178 | `Fields` yields no word exactly when the text is all white space |
| Text.WordLengthNoSpace | extension/tgbot/main.go:178 | a space-free text is one word from end to end |
| Text.FieldsOfWord | extension/tgbot/main.go:178 | a single non-empty space-free word splits into itself |
| Text.WordLengthExtend | extension/tgbot/main.go:178 | appending text that starts with white space does not lengthen the first word |
| Text.FieldsSeparated | extension/tgbot/main.go:178 | `a`, one white-space character and `b` split into the words of `a` followed by the words of `b` |
| Text.FieldsSkipSpace | extension/tgbot/main.go:178 | a leading white-space character is skipped |
| Text.FieldsSplitWord | extension/tgbot/main.go:178 | the leading word of `a` stays the leading word when white space and more text follow |
| Extractor.LinkIsNotTag | extension/tgbot/main.go:181-187 | a URL word never starts with `#`, so the tag test that runs first never hides a URL |
| Extractor.FirstLink | extension/tgbot/main.go:185-187 | the index of the first URL word: no URL word before it, and a URL word at it unless it is the end |
| Extractor.FirstLinkAt | extension/tgbot/main.go:185-187 | an index with no URL word before it and a URL word (or the end) at it is the first URL index |
| Extractor.TagsOfAppend | extension/tgbot/main.go:180-184 | the tags of concatenated word lists are concatenated in order |
| Extractor.ParseStep | extension/tgbot/main.go:181-184 | one more word adds its tag, with one `#` removed, exactly when it starts with `#` |
| Extractor.ParseURLAndTags | extension/tgbot/main.go:174-192 | the loop's URL and tags equal `Extract(text)`: the first URL word of `Fields(text)`, or "", and the `#`-stripped tags of the words before it |
| Extractor.UrlOfWords | extension/tgbot/main.go:180-191 | the URL is "" exactly when no word is a URL word; otherwise it is the first URL word |
| Extractor.ExtractUrl | extension/tgbot/main.go:174-192 | the same, on message text through `strings.Fields` |
| Extractor.ExtractWithoutLink | extension/tgbot/main.go:174-192 | with no URL word, the URL is "" and every `#` word of the text gives a tag |
| Extractor.ExtractBlank | extension/tgbot/main.go:174-192 | empty or all-white-space text yields URL "" and no tags |
| Extractor.FromWordsTagFirst | extension/tgbot/main.go:181-184 | a leading `#` word puts its tag ahead of the rest's tags, and the rest decides the URL |
| Extractor.FromWordsLinkFirst | extension/tgbot/main.go:185-187 | a leading URL word is the URL and yields no tags |
| Extractor.FromWordsOtherFirst | extension/tgbot/main.go:180-189 | a word that is neither tag nor URL is skipped |
| Extractor.FromWordsAfterLink | extension/tgbot/main.go:187 | words after the first URL word change nothing |
| Extractor.ExtractTagFirst | extension/tgbot/main.go:178-184 | on text: a tag word, white space and the rest give the tag ahead of the rest's tags |
| Extractor.ExtractLinkFirst | extension/tgbot/main.go:178-187 | on text: a leading URL word gives that URL and no tags, whatever follows |
| Extractor.ExtractOtherFirst | extension/tgbot/main.go:178-189 | on text: a leading plain word is skipped |
| Extractor.ExtractIgnoresAfterLink | extension/tgbot/main.go:185-188 | once the text holds a URL word, text appended after white space changes neither URL nor tags |
| Extractor.ExtractTwoTagsLinkTag | extension/tgbot/main.go:174-192 | "#a #b URL #c" yields the URL and the tags a, b only |
| Extractor.OneHashRemoved | extension/tgbot/main.go:183 | exactly one `#` is removed, so "##a" gives the tag "#a" |
| TitleSearch.Titles | extension/tgbot/main.go:158-168 | the list of places the search stops at holds only `title` elements |
| TitleSearch.TitlesIn | extension/tgbot/main.go:162-167 | the same for a list of siblings |
| TitleSearch.Scan | extension/tgbot/main.go:159-167 | the scan returns "": every title passes. A non-empty text: the first non-passing title's first child. A panic: the first non-passing title has no child |
| TitleSearch.ScanAppend | extension/tgbot/main.go:162-167 | scanning two lists is scanning the second only when the first gives "" |
| TitleSearch.FindScansTitles | extension/tgbot/main.go:157-169 | the closure `f` equals the scan of the tree's `title` elements in document order |
| TitleSearch.FindInScansTitles | extension/tgbot/main.go:162-168 | the sibling loop equals the scan of the siblings' `title` elements |
| TitleSearch.TitlesOfWellFormed | extension/tgbot/main.go:159-160 | in a tree whose `title` elements all have a child, every `title` the search meets has one |
| TitleSearch.TitlesInOfWellFormed | extension/tgbot/main.go:162-167 | the same for a list of siblings |
| TitleSearch.NoPanicWhenTitlesHaveChild | extension/tgbot/main.go:159-160 | when every `title` element has a child, the search never hits the nil dereference |
| TitleSearch.PassingTitleContinues | extension/tgbot/main.go:162-167 | a `title` whose first child's data is "" does not end the search |
| TitleSearch.FirstTitleWins | extension/tgbot/main.go:159-166 | a `title` with non-empty first-child data ends the search with that data, whatever follows it |
| TitleSearch.GetTitle | extension/tgbot/main.go:157-171 | it panics exactly when the search does; otherwise the title has no white space at either end and is the search result with leading and trailing white space removed |
| TitleSearch.NoTitleGivesEmpty | extension/tgbot/main.go:168-171 | a page whose `title` elements all pass has the title "" |
| Dispatcher.MakeDispatch | extension/tgbot/main.go:206-213 | event type "webhook"; the payload's url, title and tags are the arguments of those names |
| PollLoop.Pow2 | extension/tgbot/main.go:107 | `1<<i` is at least 1 |
| PollLoop.Poller.constructor | extension/tgbot/main.go:65 | the loop starts at offset 0 with nothing done |
| PollLoop.Poller.GetUpdates | extension/tgbot/main.go:72 | one more `getUpdates` call at the given offset, answered by the world, and logged as a call in the event log |
| PollLoop.Poller.Sleep | extension/tgbot/main.go:100 | `time.Sleep`: the duration in seconds is appended to the sleeps and, as a sleep, to the event log |
| PollLoop.Poller.GetTitleOf | extension/tgbot/main.go:88 | one more title lookup, "" for an empty URL without asking the world |
| PollLoop.Poller.SendPOSTRequest | extension/tgbot/main.go:205-244 | exactly one dispatch is appended, with the world's POST outcome |
| PollLoop.Poller.HandleUpdate | extension/tgbot/main.go:78-97 | the cursor moves to ID+1, the title is looked up, and a dispatch goes out only for a non-empty URL; a panicking lookup ends the process with status 2 |
| PollLoop.Poller.HandleUpdates | extension/tgbot/main.go:77-98 | the batch loop equals `HandleAll`, the updates handled in order until the process ends |
| PollLoop.Poller.RetryPollUpdates | extension/tgbot/main.go:105-119 | the retry loop equals `Retry` from attempt 0 |
| PollLoop.Poller.PollRound | extension/tgbot/main.go:71-100 | one iteration past the shutdown check equals `Round`: the fetch, then the retries or the batch, then the one-second sleep unless the process ended |
| PollLoop.Poller.PollUpdates | extension/tgbot/main.go:64-103 | the polling loop equals `Run` for the given number of rounds before shutdown |
| PollLoop.HandleAllNext | extension/tgbot/main.go:77 | one more update of the batch is one more step |
| PollLoop.HandleAllStops | extension/tgbot/main.go:77-98 | once the process has ended, the rest of the batch is not handled |
| PollFacts.HandleAllEffect | extension/tgbot/main.go:77-98 | a batch makes no `getUpdates` call and no sleep, and adds nothing to the event log. It either ends the process with status 2, or looks up one URL per update in order and leaves the cursor at the last ID + 1 (unchanged for an empty batch) |
| PollFacts.LinkPositionsSpec | extension/tgbot/main.go:90 | the positions of the jobs with a URL: every such position once, in increasing order, and no other |
| PollFacts.LinkPositionsInBatch | extension/tgbot/main.go:90 | every listed position is in the batch and holds a job with a URL |
| PollFacts.LinkPositionsIncreasing | extension/tgbot/main.go:90 | the listed positions strictly increase |
| PollFacts.LinkPositionsComplete | extension/tgbot/main.go:90 | every position of a job with a URL is listed |
| PollFacts.SentMatchesGrow | extension/tgbot/main.go:90-97 | the dispatches matched so far still match when the batch grows |
| PollFacts.HandleAllSent | extension/tgbot/main.go:87-97 | unless the process ends, the batch appends exactly one dispatch per URL-bearing update, in batch order, with that update's URL, tags and looked-up title, and keeps earlier dispatches |
| PollFacts.HandleAllLookupCount | extension/tgbot/main.go:88 | unless the process ends, each update costs exactly one title lookup |
| PollFacts.SentStep | extension/tgbot/main.go:90-97 | the correspondence of dispatches to URL updates extends by the batch's last update |
| PollFacts.SentStepNoLink | extension/tgbot/main.go:90 | an update without a URL sends nothing |
| PollFacts.SentStepLink | extension/tgbot/main.go:90-91 | an update with a URL adds its dispatch at the next position |
| PollFacts.SentMatchesAppend | extension/tgbot/main.go:91 | one more matching dispatch extends the correspondence |
| PollFacts.LinkPositionsLast | extension/tgbot/main.go:90 | a last update with a URL is the last URL position |
| PollFacts.StepSends | extension/tgbot/main.go:90-91 | an update with a URL whose lookup does not panic appends one dispatch built from the URL, the tags and the title |
| PollFacts.AllFoundLast | extension/tgbot/main.go:88 | no lookup of a batch panics exactly when none of its prefix panics and the last one does not |
| PollFacts.HandleAllPanics | extension/tgbot/main.go:88 | the process ends inside a batch exactly when some title lookup of the batch panics |
| PollFacts.Backoff | extension/tgbot/main.go:106-107 | a schedule of m attempts has m sleeps |
| PollFacts.Repeat | extension/tgbot/main.go:111 | m copies of a value |
| PollFacts.BackoffSchedule | extension/tgbot/main.go:21 | the full back-off sleeps 1, 2, 4, 8 and 16 seconds |
| PollFacts.BackoffDoubles | extension/tgbot/main.go:107 | the k-th sleep from attempt i is `1<<(i+k)` seconds |
| PollFacts.BackoffEvents | extension/tgbot/main.go:106-111 | the event log of m attempts holds 2m events |
| PollFacts.BackoffEventsAt | extension/tgbot/main.go:107-111 | in the event log of attempts from i, the k-th attempt is a sleep of `1<<(i+k)` seconds immediately followed by a call at the cursor |
| PollFacts.BackoffEventsSchedule | extension/tgbot/main.go:106-111 | the full back-off's event log is: sleep 1, call, sleep 2, call, sleep 4, call, sleep 8, call, sleep 16, call |
| PollFacts.RetryKeepsCursor | extension/tgbot/main.go:105-119 | retrying leaves the cursor, the lookups and the dispatches alone, and either returns or exits with status 1 |
| PollFacts.RetryCalls | extension/tgbot/main.go:106-111 | attempt by attempt: each call is at the unchanged cursor and comes right after its sleep of `1<<i` seconds in the event log, and at most the remaining attempts are made |
| PollFacts.CallsShift | extension/tgbot/main.go:106-111 | one attempt followed by the rest is the rest from one attempt earlier |
| PollFacts.RetryOutcome | extension/tgbot/main.go:111-118 | every call but the last failed; the process exits with status 1 exactly when all attempts are used and the last failed; otherwise the last call succeeded |
| PollFacts.OutcomeShift | extension/tgbot/main.go:111-114 | a failed attempt followed by the rest is the rest from one attempt earlier |
| PollFacts.RetryGivesUp | extension/tgbot/main.go:105-119 | the process exits with status 1 exactly when the five retry calls all fail; it then slept 1, 2, 4, 8 and 16 seconds and made the five calls at the unchanged offset, in the event order sleep 1, call, sleep 2, call, ..., sleep 16, call |
| PollFacts.RoundFetchFailed | extension/tgbot/main.go:72-75 | a failed fetch moves neither cursor, lookups nor dispatches; it makes 2 to 6 calls, all at the cursor, and goes on or exits with status 1. The event log gets the call, then the retries' sleep-call pairs in back-off order, then the one-second sleep if the loop goes on |
| PollFacts.RoundFetched | extension/tgbot/main.go:72-100 | a successful fetch makes one call. Unless a lookup panics (status 2), it looks up each update's URL, moves the cursor past the last update, and sleeps one second: the event log gets one call, then that sleep |
| PollFacts.RoundStatus | extension/tgbot/main.go:67-101 | after one iteration the process goes on or has exited with status 1 or 2 |
| PollFacts.RunEnds | extension/tgbot/main.go:64-103 | a run ends on shutdown, with status 1, or with status 2 |
| PollFacts.FromPagesNeverPanics | extension/tgbot/main.go:157-160 | titles read off pages whose `title` elements all have a child never panic |
| PollFacts.RunNeverPanics | extension/tgbot/main.go:64-103 | without panicking lookups, a run ends only on shutdown or with status 1 |
| PollFacts.RoundNeverPanics | extension/tgbot/main.go:67-101 | without panicking lookups, an iteration goes on or exits with status 1 |
| PollFacts.RunHealthy | extension/tgbot/main.go:64-103 | when every fetch succeeds and no lookup panics, the run stops on shutdown after one call and one 1-second sleep per iteration |
| PollFacts.FromPagesTrimmed | extension/tgbot/main.go:171 | titles read off pages are trimmed |
| PollFacts.JobUrl | extension/tgbot/main.go:80-87 | an update's URL is "" or a URL word of its message or channel-post text |
| PollFacts.StepKeepsGood | extension/tgbot/main.go:87-91 | handling one update adds only "webhook" dispatches for URL words with trimmed titles |
| PollFacts.HandleAllKeepsGood | extension/tgbot/main.go:77-98 | the same for a batch |
| PollFacts.RoundKeepsGood | extension/tgbot/main.go:67-101 | the same for one iteration |
| PollFacts.RunKeepsGood | extension/tgbot/main.go:64-103 | where titles are trimmed, every dispatch of a run is a "webhook" event for a URL word with a trimmed title |
| PollFacts.OrderedExtend | extension/tgbot/main.go:75 | repeating the cursor and moving it forward keeps the requested offsets ordered |
| PollFacts.HandleAllAdvances | extension/tgbot/main.go:78 | a batch of updates at or past the cursor does not move it back, and a non-empty one moves it forward |
| PollFacts.ZeroIdsKeepCursorAtOne | extension/tgbot/main.go:78 | when every update of a non-empty batch has ID 0, as the decoder of main.go:134 yields, the cursor ends the round at 1 whatever it was, unless the process ends |
| PollFacts.RoundAdvances | extension/tgbot/main.go:72-100 | where the Bot API returns only updates at or past the offset, an iteration keeps the offsets ordered and the cursor does not move back |
| PollFacts.RunAdvances | extension/tgbot/main.go:64-103 | the same for a whole run: offsets passed to `getUpdates` never decrease |

## Left out

- `main` (main.go:38-56) is not modelled: reading the environment, refusing to start without it, and the HTTP client's 10-second timeout. The shutdown signal and the goroutine are replaced by a round count in `Run` and `PollUpdates`: the number of iterations that begin before the `select` at main.go:68-70 takes the signal. That is not how the program usually stops. `main` starts `pollUpdates` in a goroutine and then waits to receive from `shutdown` (main.go:54). `main` is normally already blocked there when a signal arrives, so `main` takes it, returns, and the process exits with status 0 in the middle of whatever round is running, possibly between a title lookup and its POST or during a sleep. The model does not capture that cut-off part-way through a round. The `select` sees the signal only if it arrives before `main` reaches main.go:54. Then `pollUpdates` returns while `main` keeps waiting for a second signal, and the process neither polls nor exits until one comes; that state is not modelled either.
- `getUpdates` (main.go:121-140) is the oracle `World.fetch`. Building the request URL, the HTTP call and the JSON decoding are not modelled.
- The fetch oracle yields updates that are already decoded, with any ID and either text field set. The decoder at main.go:134 cannot produce all of these. `Update` (main.go:32-36) has no JSON tags, and `encoding/json` matches keys to field names exactly or ignoring case, keeping underscores. So the Bot API keys `update_id` and `channel_post` never fill `ID` or `ChannelPost`. As written, the program therefore sees `ID = 0` and `ChannelPost = nil` for every update. By main.go:78 its cursor stays at 1 after any non-empty batch (`ZeroIdsKeepCursorAtOne`), and channel posts are read as empty text. `Honest`, the premise of `RoundAdvances` and `RunAdvances`, is a promise about decoded IDs that this decoder does not keep.
- `http.Get` and `html.Parse` in `getTitle` (main.go:144-154) are not modelled. A failed fetch or parse is a `PageFailed` page whose title is ""; the title oracle is tied to `GetTitle` by `FromPages`. `getTitle` uses `http.Get` (main.go:144), that is, Go's default client, which has no timeout, not the 10-second `httpClient`. A page that never answers therefore stalls the whole loop. The title oracle always answers, so the model does not capture that stall.
- The HTML parser's tree shape is an input: the model does not build the `html`/`head`/`body` elements the parser adds.
- `sendPOSTRequest`'s JSON encoding, headers (`Accept`, raw-token `Authorization`, `Content-Type`), the HTTP request and the printed response (main.go:215-244) are the oracle `World.post`. In particular, nil tags encode as JSON `null` rather than `[]`, and that is not modelled.
- Logging and printing are not modelled, including every `log.Println` and `log.Printf` in the loop.
- Strings are sequences of code points. Go's UTF-8 decoding is not modelled, and `IsSpace` is a fixed set of the 25 Unicode white-space code points rather than the library's table.
- `update.ID + 1` is unbounded. Go's 64-bit `int` wrap-around at the maximum ID is not modelled.
- Sleeps are durations in a trace, not elapsed time.
- The test file `extension/tgbot/main_test.go` is not part of this model. It tests a different version of the program.
- The browser extension's JavaScript is not part of this model.
- The Go runtime's crash on a `title` element without a child is modelled as a result (`NilDeref`, then `Exited(2)`) rather than as a precondition. `NoPanicWhenTitlesHaveChild` and `FromPagesNeverPanics` state when it cannot happen.
