# x-monitor in Dafny

A Dafny model of the core of x-monitor, a Python agent. Once a day it does the following:

- reads the X/Twitter accounts it monitors from a SQLite store;
- caches each account's numeric user id;
- fetches the accounts' new tweets;
- stores them, then re-reads the last 24 hours of tweets;
- has a language model write an analysis and extracts its key insights;
- saves the day's summary;
- sends the summary by e-mail and Telegram.

The model follows the source module by module:

| Dafny module | source file | form |
|---|---|---|
| `Models` | src/models/tweet.py | datatypes and functions |
| `Config` | src/config.py | datatype and predicates |
| `Storage` | src/storage.py | `class Storage` with a `map` of accounts and a `seq` of summary rows |
| `Scraper` | src/scrapers/x_scraper.py | per-tweet functions; the fill loops and the merge are methods |
| `Analyzer` | src/analyzers/llm_analyzer.py | grouping, formatting and extraction loops as methods, each proved equal to a function |
| `Report` | src/notifiers/telegram_notifier.py, src/notifiers/email_notifier.py | the numbered insight list both notifiers render |
| `Telegram` | src/notifiers/telegram_notifier.py | message assembly, the chunking loop and the sends |
| `Email` | src/notifiers/email_notifier.py | subject, plain-text body, the dynamic HTML parts, the send |
| `Agent` | src/agent.py | `class XMonitorAgent` over a `Storage`, with a trace of its outside calls |
| `Text`, `Seqs`, `Wrappers` | — | Python string operations (`strip`, `split`, `join`, `replace`, `str(int)`), sequence facts, `Option` |

Conventions used throughout:

- **Time.** Timestamps are whole seconds; `now` is a parameter. The calendar day of a time is `t / 86400`.
- **Renderings.** Every `strftime` and `isoformat` rendering is a string argument the caller supplies.
- **Outside calls.** Each is a function parameter (an oracle). This covers tweepy's `get_user` and `get_users_tweets`, the OpenAI completion, the Telegram `send_message`, the SMTP send, and the store methods the agent uses but src/storage.py does not define.
- **Failures.** Only the calls the source wraps in `try` can fail in the model: the store's `add_account` and `save_summary`, the timeline and lookup calls of the scraper, the chat completion, and each notifier's send in the agent's loop. Each answers with an explicit `...Raised` value, or a boolean saying whether it raised. Every other call is total (see "## Left out").
- **Strings.** A Python `str` is a `seq<char>` of code points, so `len` is `|s|`.

Besides each operation's contract, the main results are these:

- **Store.** A saved summary replaces any earlier one for the same day (`Storage.ReplaceRowFor`). It reads back with only its date cut to midnight and its tweet list dropped (`Storage.SummaryRoundTrip`). The recent listing is newest first, at most `days` long, and skips no newer day (`Storage.Storage.RecentListing`).
- **Merge.** The merged timeline is sorted newest first. It is a permutation of the per-account results and is stable (`Scraper.GetTweetsForAccounts`).
- **Insight extraction.** Every extracted insight is the cleaned text of a bullet line after a heading line. There are at most five (`Analyzer.InsightsSound`). The key insights are exactly the first five such lines, in order (`Analyzer.InsightsComplete`), so the early break never drops one.
- **Telegram chunks.**
  - Concatenated, the chunks give back the message with a final newline.
  - Every chunk is at most 4000 characters, or a single overlong line.
  - No chunk could have taken the next line.

  All three are in `Telegram.ChunksShape`.
- **Daily job.** The job's calls come in the source's order: lookups, watermark queries, fetch, tweet save only when something was fetched, window read, summary save, then one send per notifier whatever the earlier ones did (`Agent.JobTraceSaveThenNotify`, `Agent.JobTraceSavesFetched`).

## Model

| member | source | states |
|---|---|---|
| Models.NewAccount | src/models/tweet.py:7-14 | a new account keeps its username and creation time and has no user id, display name or description |
| Models.NewTweet | src/models/tweet.py:17-32 | a new tweet has zero likes, retweets and replies, no views, an empty url, both flags false and no media |
| Models.NewSummary | src/models/tweet.py:40-50 | a new summary reports 0 accounts and 0 tweets, holds no tweets, and has empty texts and no insights |
| Models.EngagementScoreLinear | src/models/tweet.py:35-37 | the score of summed counts is the sum of the scores |
| Models.EngagementScoreWeights | src/models/tweet.py:37 | one more like, retweet or reply raises the score by 1, 2 or 3 |
| Models.EngagementScoreExample | tests/test_models.py:17-29 | 10 likes, 5 retweets and 2 replies score 26 |
| Models.NewTweetScoresZero | src/models/tweet.py:25-37 | a tweet with default counts scores 0 |
| Config.DefaultSettings | src/config.py:7-39 | the two required credentials are the ones given |
| Config.TelegramEnabled | src/config.py:41-44 | true exactly when the bot token and the chat id are both non-empty |
| Config.EmailEnabled | src/config.py:46-49 | true exactly when the SMTP user, password and recipient are all non-empty |
| Config.DefaultsDisableNotifiers | src/config.py:21-49 | with default settings neither notifier is enabled; the port is 587, the host smtp.gmail.com, the schedule 08:00, the database data/x_monitor.db and the model gpt-4-turbo-preview |
| Storage.Midnight | src/storage.py:164 | the time `strptime` gives for a stored day lies on that day |
| Storage.ToRow | src/storage.py:131-143 | a summary's row is keyed by the calendar day of its date |
| Storage.FromRow | src/storage.py:162-171 | a row reads back on its own day, with no tweets, and with no insights when the insights column is empty |
| Storage.SummaryRoundTrip | src/storage.py:131-171 | saving then reading a summary gives it back with only the date set to that day's midnight and the tweet list emptied |
| Storage.Limit | src/storage.py:179 | `LIMIT n` returns at most as many rows as there are: n of them when n is not negative, all of them when it is |
| Storage.InsertPos | src/storage.py:91 | the insertion point lies after every account added no later and before the first added later |
| Storage.RowFor | src/storage.py:156-160 | the `WHERE date = ?` lookup finds a row of that day, or finds none when no row has that day |
| Storage.DropDay | src/storage.py:131 | `INSERT OR REPLACE` first removes exactly the rows of the new row's day |
| Storage.DropDayKeepsDistinct | src/storage.py:33-35 | removing a day's rows keeps one row per day |
| Storage.ReplaceRowFor | src/storage.py:131-143 | after the replace there is still one row per day; the saved day looks up the new row and every other day is unaffected |
| Storage.RowForAppend | src/storage.py:156-160 | a lookup over rows plus one appended row finds an earlier match first, else the appended row when its day matches |
| Storage.RowForUnique | src/storage.py:33-35 | with one row per day, the lookup returns the row of that day |
| Storage.InsertNewestFirst | src/storage.py:179 | inserting a row into the date-descending listing adds exactly one element |
| Storage.InsertNewestFirstPermutes | src/storage.py:179 | the insertion is a permutation of the old listing plus the row |
| Storage.InsertNewestFirstSorted | src/storage.py:179 | inserting a row of a new day keeps the listing strictly descending by day |
| Storage.SortNewestFirst | src/storage.py:179 | `ORDER BY date DESC` keeps the number of rows |
| Storage.SortNewestFirstPermutes | src/storage.py:179 | `ORDER BY date DESC` is a permutation of the table |
| Storage.SortNewestFirstSorted | src/storage.py:179 | with one row per day the ordered rows are strictly descending by day |
| Storage.InsertByAddedAt | src/storage.py:91 | inserting an account into the `added_at` listing puts it at the insertion point and shifts the rest |
| Storage.InsertKeepsSorted | src/storage.py:91 | the insertion keeps the listing ascending by `added_at` |
| Storage.InsertKeepsDistinct | src/storage.py:25-26 | inserting an account with a new username keeps one entry per username |
| Storage.InsertListed | src/storage.py:91-103 | inserting the next stored account keeps the listing exactly the stored accounts seen so far, sorted and without repeats |
| Storage.SortedRows | src/storage.py:91-103 | `ORDER BY added_at` lists every stored account exactly once, as stored, ascending by `added_at` |
| Storage.Storage.constructor | src/storage.py:21-46 | `initialize` leaves both tables empty and valid |
| Storage.Storage.AddAccount | src/storage.py:50-73 | True and the account upserted under its username when the write succeeds; False and nothing changed when it raises; summaries untouched |
| Storage.Storage.RemoveAccount | src/storage.py:75-85 | True exactly when the username was stored; afterwards it is absent and every other account is unchanged |
| Storage.Storage.GetAccounts | src/storage.py:87-103 | every stored account once, as stored, ascending by `added_at` |
| Storage.Storage.GetAccount | src/storage.py:105-122 | the stored record of that username, or None exactly when it is absent |
| Storage.Storage.SaveSummary | src/storage.py:125-150 | True and the day's row replaced by the new one when the write succeeds; False and nothing changed when it raises; accounts untouched |
| Storage.Storage.GetSummary | src/storage.py:152-172 | a summary exactly when a row of that day exists, and then that row read back |
| Storage.Storage.GetRecentSummaries | src/storage.py:174-194 | `Limit(days)` summaries, each a stored row read back, strictly descending by day, with every row newer than the last one returned |
| Storage.Storage.ReadRows | src/storage.py:183-194 | the first n ordered rows, each read back |
| Storage.Storage.RecentListing | src/storage.py:179-194 | a prefix of the date-descending rows, read back, is stored rows, strictly descending by day, and skips no newer row |
| Storage.Storage.RecentListingRows | src/storage.py:179-194 | each summary of a prefix of any permutation of the rows is the stored row of its day |
| Storage.Storage.RecentListingTop | src/storage.py:179 | a prefix of a date-descending permutation leaves out only rows older than its last day |
| Scraper.Classify | src/scrapers/x_scraper.py:96-103 | a retweet exactly when some reference is "retweeted"; a reply exactly when some reference is "replied_to" |
| Scraper.MediaValue | src/scrapers/x_scraper.py:90-92 | a media entry maps to its `url` when truthy, else to its `preview_image_url` |
| Scraper.MediaMapKeys | src/scrapers/x_scraper.py:87-92 | the media map has exactly the media keys of the page as keys |
| Scraper.MediaMapLast | src/scrapers/x_scraper.py:87-92 | a key maps to the value of its last entry |
| Scraper.BuildMediaMap | src/scrapers/x_scraper.py:87-92 | the fill loop builds the media map |
| Scraper.MediaUrls | src/scrapers/x_scraper.py:106-110 | no more urls than keys, and each url is the non-empty value of one of the keys |
| Scraper.MediaUrlsAppend | src/scrapers/x_scraper.py:106-110 | the urls of two runs of keys are the urls of each, in order |
| Scraper.MediaUrlsAllFound | src/scrapers/x_scraper.py:106-110 | when every key maps to a truthy value, the urls are those values in key order |
| Scraper.ConvertTweet | src/scrapers/x_scraper.py:112-130 | a tweet exactly when text and creation time are present; then `str(id)` as the tweet id, the queried author and display name, likes, retweets and replies read from the metrics with 0 for a missing key, views the impression count or None, `https://x.com/{username}/status/{id}`, the flags and the media urls |
| Scraper.Metric | src/scrapers/x_scraper.py:122-124 | `metrics.get(key, 0)`: the stored count, or 0 for a missing key |
| Scraper.Views | src/scrapers/x_scraper.py:125 | `metrics.get("impression_count")`: present exactly when the key is, then its value |
| Scraper.MissingMetricsDefault | src/scrapers/x_scraper.py:112-124 | with no metrics, likes, retweets and replies are 0, views None and the engagement score 0 |
| Scraper.TweetIdsDistinct | src/scrapers/x_scraper.py:116 | distinct API ids give distinct tweet ids |
| Scraper.UntilFailure | src/scrapers/x_scraper.py:94-137 | an append loop cut short by an exception keeps at most one result per input |
| Scraper.UntilFailurePrefix | src/scrapers/x_scraper.py:94-137 | the loop keeps every conversion before the first failing one, and the next input is the one that fails |
| Scraper.UntilFailureStep | src/scrapers/x_scraper.py:94-137 | one step of the loop either stops or keeps one result and goes on |
| Scraper.ConvertAll | src/scrapers/x_scraper.py:94-130 | converting a page gives at most one tweet per entry |
| Scraper.ConvertAllPrefix | src/scrapers/x_scraper.py:94-137 | the converted tweets are the conversions of the page's first entries, up to the first entry that raises |
| Scraper.PageSize | src/scrapers/x_scraper.py:71 | `min(max_results, 100)` |
| Scraper.SinceOrDefault | src/scrapers/x_scraper.py:52-53 | the given `since`, or now minus one day |
| Scraper.TimelineRequestFor | src/scrapers/x_scraper.py:59-80 | a timeline request exactly when the user is found, for the user's id, the start time and the page size |
| Scraper.RecentTweetsShape | src/scrapers/x_scraper.py:36-137 | no tweets for an unknown user, a raising call or an empty page; otherwise the page's first entries converted in order, all by the queried user |
| Scraper.GetUserInfo | src/scrapers/x_scraper.py:17-34 | an account exactly when the user is found, with that username, the user id exactly `str(id)` (decimal digits of value id, no leading zero unless the id is 0), the name and the description |
| Scraper.GetRecentTweets | src/scrapers/x_scraper.py:36-137 | the request sent and the tweets returned are the ones `TimelineRequestFor` and `RecentTweets` define |
| Scraper.ConvertPage | src/scrapers/x_scraper.py:94-130 | the append loop over the page builds `ConvertAll` |
| Scraper.InsertNewest | src/scrapers/x_scraper.py:152 | inserting a tweet into the newest-first list adds exactly one element |
| Scraper.InsertNewestPermutes | src/scrapers/x_scraper.py:152 | the insertion is a permutation of the list plus the tweet |
| Scraper.InsertNewestSorted | src/scrapers/x_scraper.py:152 | the insertion keeps the list newest first |
| Scraper.InsertNewestStable | src/scrapers/x_scraper.py:152 | among tweets of one creation time the inserted tweet comes first, as in front insertion |
| Scraper.SortNewestFirst | src/scrapers/x_scraper.py:152 | the sort keeps the length |
| Scraper.SortNewestFirstPermutes | src/scrapers/x_scraper.py:152 | the sort is a permutation |
| Scraper.SortNewestFirstSorted | src/scrapers/x_scraper.py:152 | the result is newest first |
| Scraper.SortNewestFirstStable | src/scrapers/x_scraper.py:152 | tweets of one creation time keep their input order |
| Scraper.GetTweetsForAccounts | src/scrapers/x_scraper.py:139-153 | newest first, a permutation of the accounts' results concatenated in account order, and stable |
| Analyzer.AuthorsOfDistinct | src/analyzers/llm_analyzer.py:34-38 | the group keys are distinct and are exactly the authors of the tweets |
| Analyzer.AuthorCount | src/analyzers/llm_analyzer.py:76 | the number of distinct authors is the number of groups |
| Analyzer.ByAuthorAbsent | src/analyzers/llm_analyzer.py:34-38 | a non-author has an empty group |
| Analyzer.ByAuthorShape | src/analyzers/llm_analyzer.py:34-38 | a group holds only that author's input tweets, and an author's group is not empty |
| Analyzer.GroupSizesStep | src/analyzers/llm_analyzer.py:34-38 | appending a tweet grows exactly its author's group by one |
| Analyzer.GroupsPartition | src/analyzers/llm_analyzer.py:34-41 | the group sizes add up to the number of tweets |
| Analyzer.Prefix | src/analyzers/llm_analyzer.py:50-54 | "[转推] " for a retweet, else "[回复] " for a reply, else empty |
| Analyzer.DisplayName | src/analyzers/llm_analyzer.py:42 | the first tweet's display name when truthy, else the username |
| Analyzer.TweetBlock | src/analyzers/llm_analyzer.py:46-58 | three lines per listed tweet |
| Analyzer.GroupHeader | src/analyzers/llm_analyzer.py:43-44 | the two header lines of a group |
| Analyzer.TweetBlockAt | src/analyzers/llm_analyzer.py:46-58 | lines 3k to 3k+2 of the block are the k-th tweet's lines |
| Analyzer.SectionLength | src/analyzers/llm_analyzer.py:43-58 | a group's section has 2 header lines and 3 lines for each of at most 10 tweets |
| Analyzer.SectionHeader | src/analyzers/llm_analyzer.py:43-44 | the section starts with the header, whose count line gives the full group size |
| Analyzer.GroupBlockAt | src/analyzers/llm_analyzer.py:46-58 | each of the first 10 tweets of a group has its three lines in the listed block |
| Analyzer.SectionLines | src/analyzers/llm_analyzer.py:41-58 | the k-th listed tweet of a section (k < 10) is at lines 2+3k onwards |
| Analyzer.GroupByAuthor | src/analyzers/llm_analyzer.py:33-38 | the grouping loop gives the authors in first-appearance order, each with its tweets in input order |
| Analyzer.TweetBlockSnoc | src/analyzers/llm_analyzer.py:46-58 | listing one more tweet appends its three lines |
| Analyzer.AuthorSection | src/analyzers/llm_analyzer.py:41-58 | the loop body of one author builds that author's section |
| Analyzer.ReportLinesSnoc | src/analyzers/llm_analyzer.py:40-58 | one more author appends that author's section |
| Analyzer.SectionsOf | src/analyzers/llm_analyzer.py:40-58 | the loop over the groups builds every section in author order |
| Analyzer.FormatTweets | src/analyzers/llm_analyzer.py:28-60 | `_format_tweets_for_analysis` builds the digest |
| Analyzer.DigestShape | src/analyzers/llm_analyzer.py:28-60 | the placeholder for no tweets; otherwise the sections joined by newlines, one per distinct author, whose groups hold every tweet |
| Analyzer.Clean | src/analyzers/llm_analyzer.py:114 | the cleaned line starts with none of the stripped characters |
| Analyzer.ScanExtends | src/analyzers/llm_analyzer.py:104-119 | the scan only adds insights |
| Analyzer.ScanSound | src/analyzers/llm_analyzer.py:107-119 | every insight the scan adds is the cleaned, non-empty text of a bullet line that comes after a heading line |
| Analyzer.ScanSoundSkip | src/analyzers/llm_analyzer.py:110-119 | the same over a heading line or a skipped line |
| Analyzer.ScanSoundBullet | src/analyzers/llm_analyzer.py:113-116 | the same over a bullet line inside the list |
| Analyzer.ScanNoHeading | src/analyzers/llm_analyzer.py:108-116 | without a heading line nothing is collected |
| Analyzer.InsightsGuardRedundant | src/analyzers/llm_analyzer.py:106 | the outer heading test never changes the outcome |
| Analyzer.InsightsSound | src/analyzers/llm_analyzer.py:104-128 | at most five insights, each from a bullet line after a heading line |
| Analyzer.HeadingBeforeStep | src/analyzers/llm_analyzer.py:110-112 | `in_insights` holds at line i + 1 exactly when it held at line i or line i is a heading |
| Analyzer.ScanStepHeading | src/analyzers/llm_analyzer.py:110-112 | a heading line sets `in_insights` and lists nothing |
| Analyzer.ScanStepBullet | src/analyzers/llm_analyzer.py:113-116 | a bullet below a heading appends its cleaned text when there is any, exactly what is listed there |
| Analyzer.ScanStepOther | src/analyzers/llm_analyzer.py:117-119 | any other line the loop does not break at adds nothing and lists nothing |
| Analyzer.ScanCollects | src/analyzers/llm_analyzer.py:107-119 | from any line, the scan yields all the listed insights from there on, or a prefix of them already at least five long |
| Analyzer.ScanCollectsAppend | src/analyzers/llm_analyzer.py:113-116 | the same over a line whose cleaned text is appended |
| Analyzer.InsightsComplete | src/analyzers/llm_analyzer.py:104-128 | the scan's list is a prefix of every listed insight in line order, and the key insights are exactly the first five of them: the early break loses none |
| Analyzer.ExtractInsights | src/analyzers/llm_analyzer.py:104-128 | the extraction loop, with its early break and the cut to five, builds `Insights`, the first five listed insights |
| Analyzer.SummaryForShape | src/analyzers/llm_analyzer.py:121-140 | on both outcomes the date and tweets are kept, every tweet is counted, authors are counted distinct and there are at most five insights; on success summary and analysis are the answer and the insights its extraction; on failure the analysis is empty and the summary text names the error |
| Analyzer.AnalyzeTweets | src/analyzers/llm_analyzer.py:62-140 | the digest sent is `Digest`, and the summary is the one built from the model's answer to it |
| Report.NumberedSnoc | src/notifiers/telegram_notifier.py:48-49 | one more insight appends its numbered line |
| Report.PlainItemsSnoc | src/notifiers/telegram_notifier.py:48-49 | one more insight appends `{i}. {insight}\n` |
| Report.HtmlItemsSnoc | src/notifiers/email_notifier.py:144-145 | one more insight appends its `<div class="insight">` line |
| Report.AppendPlainItems | src/notifiers/email_notifier.py:200-202 | the `+=` loop appends the numbered items, counted from 1 |
| Report.NumberedLines | src/notifiers/telegram_notifier.py:47-51 | read back by line, a numbered block is its item lines in order, then an empty remainder |
| Report.PlainItemsLines | src/notifiers/telegram_notifier.py:47-51 | line k of the plain list is `{start+k}. {insight k}` |
| Report.HtmlItemsLines | src/notifiers/email_notifier.py:143-147 | line k of the HTML list is the div of item start+k |
| Telegram.BuildMessage | src/notifiers/telegram_notifier.py:31-57 | the `message +=` assembly builds `MessageText` |
| Telegram.MessageListsInsights | src/notifiers/telegram_notifier.py:44-51 | the message is the head, the numbered insights (one per line, in order, from 1), then the footer |
| Telegram.PackContent | src/notifiers/telegram_notifier.py:62-73 | the chunks concatenate to the current chunk followed by every line and its newline |
| Telegram.ConcatLinesSplit | src/notifiers/telegram_notifier.py:65 | the lines of a split, each with a newline, give the text plus a final newline |
| Telegram.PackFits | src/notifiers/telegram_notifier.py:66-70 | every chunk is at most 4000 characters or a single line |
| Telegram.PackNonEmpty | src/notifiers/telegram_notifier.py:66-73 | there is a chunk; only the first can be empty, and only when the first line alone exceeds the bound |
| Telegram.PackHead | src/notifiers/telegram_notifier.py:66-70 | a non-empty current chunk starts the first chunk |
| Telegram.PackGreedy | src/notifiers/telegram_notifier.py:66-70 | each chunk but the last is closed only because the next line would not fit |
| Telegram.ChunksShape | src/notifiers/telegram_notifier.py:62-73 | at least one chunk; together the message plus a newline; each fits; only the first may be empty; each is closed greedily |
| Telegram.ChunkMessage | src/notifiers/telegram_notifier.py:62-73 | the chunking loop builds `Chunks` |
| Telegram.Outgoing | src/notifiers/telegram_notifier.py:75-77 | one text per chunk |
| Telegram.TextsShape | src/notifiers/telegram_notifier.py:60-86 | a message of at most 4096 characters is sent alone and unchanged; a longer one as its chunks, chunk i > 0 after "📄 (续 {i+1}/{n})\n\n" |
| Telegram.FirstFailure | src/notifiers/telegram_notifier.py:75-81 | the index of the first send that raises, or the count when none does |
| Telegram.SendChunks | src/notifiers/telegram_notifier.py:75-81 | the sends stop at the first that raises; true exactly when none raised |
| Telegram.SendSummary | src/notifiers/telegram_notifier.py:17-93 | the texts sent are the message's texts up to the first raising one; true exactly when none raised |
| Telegram.AttemptedShape | src/notifiers/telegram_notifier.py:75-93 | every text is sent when nothing raises; the sent texts are a prefix, and a short prefix ends with the raising send |
| Email.Subject | src/notifiers/email_notifier.py:172-173 | the fixed title followed by the date |
| Email.AnalysisHtmlLines | src/notifiers/email_notifier.py:35 | read by line, the HTML analysis is the analysis with `<br>` ending every line but the last |
| Email.AnalysisHtmlIsJoin | src/notifiers/email_notifier.py:35 | replacing each newline is joining the lines with `<br>\n` |
| Email.BuildHtmlInsights | src/notifiers/email_notifier.py:143-147 | the `html +=` loop gives the numbered divs, or the placeholder div when there are no insights |
| Email.FormatSummaryHtml | src/notifiers/email_notifier.py:29-161 | the HTML parts carry the summary's counts, the converted analysis and the insight divs |
| Email.BuildPlainText | src/notifiers/email_notifier.py:184-210 | the `text_content +=` assembly builds `PlainText` |
| Email.PlainTextShape | src/notifiers/email_notifier.py:184-204 | the plain body contains the analysis verbatim and the insight block |
| Email.SendSummary | src/notifiers/email_notifier.py:163-232 | subject, sender, recipient, the plain body and every HTML part (date, counts, generation time, converted analysis, insight divs) as built; true exactly when the send does not raise |
| Agent.NotifiersFor | src/agent.py:35-57 | the e-mail notifier when e-mail is enabled, then the Telegram one when Telegram is |
| Agent.NotifiersKinds | src/agent.py:35-57 | an e-mail notifier exactly when e-mail is enabled, a Telegram one exactly when Telegram is |
| Agent.NormalizeTrimmed | src/agent.py:77 | a normalised username neither starts nor ends with whitespace |
| Agent.NormalizeDropsAt | src/agent.py:77 | a leading '@' makes no difference |
| Agent.NormalizeKeeps | src/agent.py:77 | a trimmed name without a leading '@' is unchanged |
| Agent.NormalizeAtSpace | src/agent.py:77 | "@ " before a trimmed name normalises to the name |
| Agent.NormalizeShortens | src/agent.py:77 | a name starting with '@' gets shorter |
| Agent.NormalizeNotIdempotent | src/agent.py:77 | "@ @name" normalises to "@name"; normalising again changes it |
| Agent.RefreshAccount | src/agent.py:109-128 | an account with a user id passes through with no call; a failed lookup leaves it unchanged after one call; a found one gets the id, and a display name and description only when truthy, after a lookup and one `update_account_info` call |
| Agent.RefreshSetsId | src/agent.py:109-128 | afterwards the account has a user id exactly when it had one or the lookup found the user |
| Agent.RefreshAll | src/agent.py:103-132 | same length and order, each account refreshed |
| Agent.RefreshCalls | src/agent.py:103-132 | only lookups and updates, and a lookup only for an account without a user id |
| Agent.SinceCalls | src/agent.py:139-140 | one last-tweet-time query per account, in order |
| Agent.SinceMapEntries | src/agent.py:134-148 | one entry per account; the stored last tweet time when there is one, else now minus one day |
| Agent.SinceMapSnoc | src/agent.py:139-146 | one more account sets exactly its own entry |
| Agent.JobSummaryShape | src/agent.py:195-206 | an empty window reports the account count, no tweets and the fixed texts; otherwise the analyzer's counts of the window |
| Agent.NotifyCalls | src/agent.py:212-216 | one send per notifier in list order, whether or not earlier ones raised |
| Agent.JobTraceSplit | src/agent.py:163-219 | the job's calls are the calls before the save, the summary save, then the sends |
| Agent.JobTraceHeadCalls | src/agent.py:166-206 | no call before the save is a send or a summary save |
| Agent.SaveThenNotify | src/agent.py:208-216 | in such a trace the save comes right before the n sends and after every other call |
| Agent.JobTraceSaveThenNotify | src/agent.py:163-219 | the job saves its summary once, after every other call and before the sends, whose outcomes are recorded |
| Agent.SavesFetched | src/agent.py:182-188 | in such a trace tweets are saved exactly when the fetch was non-empty, and what is saved is what was fetched |
| Agent.JobTraceSavesFetched | src/agent.py:182-188 | the job saves tweets exactly when it fetched some, and saves what it fetched |
| Agent.XMonitorAgent.constructor | src/agent.py:18-62 | an empty valid store, the notifiers of the settings, an empty trace |
| Agent.XMonitorAgent.AddAccount | src/agent.py:64-92 | an existing account is returned with no call and no write; otherwise the lookup result, stored when found and the write succeeds; summaries untouched |
| Agent.XMonitorAgent.RemoveAccount | src/agent.py:94-97 | true exactly when the normalised name was stored; it is then gone and nothing else changes |
| Agent.XMonitorAgent.ListAccounts | src/agent.py:99-101 | every stored account once, ascending by `added_at` |
| Agent.XMonitorAgent.GetSummary | src/agent.py:221-225 | a summary exactly when the given day, or today, has a row |
| Agent.XMonitorAgent.GetRecentSummaries | src/agent.py:227-229 | at most `days` summaries, strictly descending by day |
| Agent.XMonitorAgent.RefreshOne | src/agent.py:109-128 | one loop step of `_ensure_account_info`: the refreshed account and its calls |
| Agent.XMonitorAgent.EnsureAccountInfo | src/agent.py:103-132 | the refreshed list and the calls of every refresh in order |
| Agent.XMonitorAgent.BuildSinceMap | src/agent.py:134-148 | the since map and one query per account |
| Agent.XMonitorAgent.NotifyAll | src/agent.py:212-216 | one send per notifier, in order, each recorded with its outcome |
| Agent.XMonitorAgent.GatherTweets | src/agent.py:174-193 | the refreshed accounts, the store's 24-hour window, and the calls before the summary |
| Agent.XMonitorAgent.FetchAndSave | src/agent.py:182-188 | the fetch, then a tweet save only when the fetch is non-empty |
| Agent.XMonitorAgent.Summarize | src/agent.py:195-206 | the fixed empty-window summary, or the analyzer's summary of the window |
| Agent.XMonitorAgent.SaveAndNotify | src/agent.py:208-216 | the summary saved (the day's row replaced unless the write fails), then every notifier called; accounts untouched |
| Agent.XMonitorAgent.RunOver | src/agent.py:171-219 | over a non-empty listing: the job's summary and calls, and the summary saved |
| Agent.XMonitorAgent.RunDailyJob | src/agent.py:150-219 | None with no call and no write exactly when no account is stored; otherwise run over every stored account once, oldest `added_at` first, with the job's summary, calls and save; accounts untouched |
| Text.Strip | src/agent.py:77 | `str.strip()`: a slice of the input that starts and ends with non-whitespace, after the whitespace `lstrip` drops and before whitespace only; empty only when the input is all whitespace |
| Text.StripTrailing | src/agent.py:77 | every character of the input after the stripped slice is whitespace |
| Text.LStrip | src/agent.py:77 | `str.lstrip(chars)`: the input minus its longest prefix of those characters |
| Text.Split | src/notifiers/telegram_notifier.py:65 | `str.split(sep)`: at least one part, none holding the separator |
| Text.JoinSplit | src/analyzers/llm_analyzer.py:107 | joining a split with its separator gives back the text |
| Text.ReplaceIsSplitJoin | src/notifiers/email_notifier.py:35 | `str.replace` of a character is split then join |
| Text.SplitContains | src/analyzers/llm_analyzer.py:106-110 | a pattern without a newline occurs in a text exactly when it occurs in one of the text's lines |
| Text.NatToStringValue | src/scrapers/x_scraper.py:116 | `str(n)` is a string of digits whose value is n |
| Text.Take | src/analyzers/llm_analyzer.py:56 | slicing `[:n]` gives a prefix of length `min(len, n)` |

## Left out

- **I/O.** SQLite, the file system, tweepy, the OpenAI client, SMTP and the Telegram bot are oracles, not code.
- **Uncaught store errors.** Some store calls have no `try` around them in the source, and in the model they never raise:
  - `remove_account`, `get_accounts`, `get_account`, `get_summary` and `get_recent_summaries` (src/storage.py:75-194);
  - the agent's calls to `update_account_info`, `get_last_tweet_time`, `save_tweets` and `get_tweets_since` (src/agent.py:119, 140, 187, 192).

  In the source, an error from one of them propagates and ends `run_daily_job` before the summary is saved or sent. The model does not capture that early exit.
- **Logging and async.** Loguru logging and `asyncio` are not modelled. Every `await` runs in order, so each method is sequential.
- **Entry points.** src/main.py is the command-line wrapper and src/schedulers/daily_job.py the APScheduler wrapper; neither is part of this model. `initialize` is folded into the `Storage` constructor.
- **Library encodings.** `strftime`, `strptime`, `isoformat`, `json.dumps`/`loads` and the SQL text are not modelled:
  - a date rendering is a string argument;
  - a stored day is `t / 86400`;
  - the JSON insights column is the list itself, and a NULL or empty column is `None`.
- **Template text.** The constant HTML/CSS around the e-mail's dynamic parts, the system prompt and the user-prompt wording are left out. `Email.HtmlParts` holds only the parts that depend on the summary.
- **Missing store methods.** `get_last_tweet_time`, `save_tweets`, `get_tweets_since` and `update_account_info` are called by src/agent.py but not defined in src/storage.py. They are oracles in `Agent.Services`, and the agent records each call in its `trace`. Their effect on the store is not modelled: nothing about them is invented.
- **Scraper version mismatch.** The agent passes `since_map` and `rate_limit_*` arguments that the shown `XScraper` does not accept. The agent's fetch is therefore the `Services.fetch` oracle, called with the accounts and the since map. Rate-limit pacing is not modelled.
- **One shared clock.** The agent reads the clock three times in `run_daily_job` (the since default, the summary date, the window start). The model uses one `now` for all three.
- **Exceptions from a notifier.** Both notifiers catch their own exceptions. The agent's `try/except` around each send is modelled as the send's recorded `raised` flag; a raise never stops the loop.
- **Sorting.** Both sorts are modelled on `seq`, not as in-place list operations:
  - `list.sort(reverse=True)` in `get_tweets_for_accounts` is an insertion sort, proved stable;
  - `ORDER BY date DESC` is an insertion sort over the rows, which have distinct days.
- **Account ties.** `ORDER BY added_at` in `get_accounts` leaves the order of equal `added_at` values to SQLite. `Storage.SortedRows` promises only some ascending order of all the stored accounts.
- Storage.Storage.GetSummary: states the lookup by calendar day. It does not model that `strftime("%Y-%m-%d")` renders the local date of a possibly time-zone-aware `datetime`.
- Agent.XMonitorAgent.GetRecentSummaries: states only the length and the day order. The full contract of the listing is Storage.Storage.GetRecentSummaries, which it calls.
- Agent.XMonitorAgent.GetSummary: states when a summary is found, not its contents. The contents are in the contract of Storage.Storage.GetSummary.
- **Unicode.** `str.strip()` uses the whitespace code points Python's `str.isspace` accepts, listed explicitly in `Text.IsSpace`. There is no Unicode normalisation or case folding.
- **Integer widths.** Python integers are unbounded, as Dafny's are, so there is no overflow to model.
