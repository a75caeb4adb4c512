# A verified model of the custom MCP server's tool logic

This project models, in Dafny, the deterministic logic of a Python MCP (Model Context Protocol)
server. The server exposes YouTube, Slack and GitHub tools to a desktop client over JSON-RPC 2.0
on standard input and output. The network, the language model, the clock and randomness are
replaced by parameters (oracles). What remains is modelled as the code runs it:

- `GeminiAnalyzer` (`gemini_analyzer.py`): transcript segmentation, HH:MM:SS timestamps, the
  granularity rule, the fallback record, chapter assembly and the description table of contents.
- `Duration`: the three readers of the time part of an ISO 8601 duration (`PT#H#M#S`, the
  designator format of section 4.4.3.2 of ISO 8601:2004).
- `McpServer` (`server.py`): the STDIO dispatcher. It is a class whose output sequence grows
  line by line. Parse errors are answered as section 5.1 of the JSON-RPC 2.0 Specification
  prescribes.
- `YoutubeTools`, `YoutubeChannelTools`, `YoutubeAiTools`, `YoutubeAnalyticsTools`,
  `YoutubeContentGenerator`, `YoutubeSemanticTools` and `YoutubeManagementTools`: one module
  per source file. Each holds request checks, payload builders, aggregation and ranking,
  generators and scorers, and batch bookkeeping.
- `GithubTools` and `SlackTools`: argument checks, payloads and the bulk-DM counting loop.
- `Seqs`, `Text` and `JsonValue` are shared helpers. They give Python's meaning to prefixes,
  stable descending sorts, insertion-ordered dicts, `strip`, `split`, `join`, `str(int)`,
  truthiness and `dict.get`.

Loops that update variables are methods. Each is proved against a specification function, and
the properties the code promises are proved about those functions as lemmas. Python's
exceptions become `Result`/`Option` error values, with the exception's text where the code
reports it.

## Model

| member | source | states |
|---|---|---|
| Duration.Run | src/custom_mcp/youtube_tools.py:284 | the greedy `\d+` of the duration patterns: the run it takes is all digits and stops at the first non-digit or at the end |
| Duration.Search | src/custom_mcp/youtube_tools.py:283-286 | a capture of `re.search(r'(\d+)H', ...)` is a non-empty string of digits, and the designator occurs in the text |
| Duration.ParseDuration | src/custom_mcp/youtube_tools.py:271-274 | a duration that does not start with "PT" is 0 seconds |
| Duration.OptionalGroup | src/custom_mcp/youtube_ai_tools.py:723 | an optional group `(?:(\d+)u)?` that takes part captures a non-empty digit string; one that does not consumes nothing |
| Duration.MatchGroups | src/custom_mcp/youtube_ai_tools.py:723-727 | the anchored `re.match` of `PT(?:(\d+)H)?(?:(\d+)M)?(?:(\d+)S)?` succeeds exactly when the text starts with "PT" |
| Duration.ParseDurationToSeconds | src/custom_mcp/youtube_ai_tools.py:721-727 | a duration the pattern does not match (not starting with "PT") is 0 seconds |
| Duration.ParseDurationText | src/custom_mcp/youtube_channel_tools.py:317-335 | a duration the pattern does not match is returned unchanged; a matched one never renders as the empty string |
| Duration.CanonicalReadsBack | src/custom_mcp/youtube_ai_tools.py:721-739 | on `PT[hH][mM][sS]` with any fields present, `_parse_duration_to_seconds` and `youtube_tools._parse_duration` both give 3600·h + 60·m + s (absent fields 0), and `youtube_channel_tools._parse_duration` shows the present fields in order, or "0秒" |
| Duration.SearchReadsBack | src/custom_mcp/youtube_tools.py:271-300 | the searches find each field of a canonical duration wherever it stands: the result is 3600·h + 60·m + s |
| Duration.AnchoredReadsBack | src/custom_mcp/youtube_ai_tools.py:723-727 | the anchored match captures exactly the digits of each present field of a canonical duration, and nothing for an absent one |
| Duration.Expected5M30S | tests/test_youtube_tools.py:231 | "PT5M30S" is 330 seconds |
| Duration.Expected1H2M3S | tests/test_youtube_tools.py:232 | "PT1H2M3S" is 3723 seconds |
| Duration.Expected45S | tests/test_youtube_tools.py:233 | "PT45S" is 45 seconds |
| Duration.Expected10M | tests/test_youtube_tools.py:234 | "PT10M" is 600 seconds |
| Duration.Expected2H | tests/test_youtube_tools.py:235 | "PT2H" is 7200 seconds |
| Duration.Expected0S | tests/test_youtube_tools.py:236 | "PT0S" is 0 seconds |
| Duration.ExpectedInvalid | tests/test_youtube_tools.py:237 | "invalid" is 0 seconds |
| Duration.OutOfOrderSearched | src/custom_mcp/youtube_tools.py:283-300 | out of canonical order the searches still find every field: "PT30M1H" is 5400 seconds |
| Duration.OutOfOrderGroups | src/custom_mcp/youtube_ai_tools.py:723-727 | the anchored match of "PT30M1H" captures the minutes only: the hours group is skipped before "30M" and the match stops there |
| Duration.OutOfOrderAnchored | src/custom_mcp/youtube_ai_tools.py:721-739 | so "PT30M1H" is 1800 seconds for `_parse_duration_to_seconds` and "30分" for the channel tools' renderer, where `youtube_tools` reads 5400 |
| Duration.DigitsKeptVerbatim | src/custom_mcp/youtube_channel_tools.py:321-335 | the renderer keeps the captured digits as written ("PT05M" shows "05分" where the parser reads 300 seconds), "PT" alone shows "0秒" and "P1D" is returned unchanged |
| GeminiAnalyzer.CreateSegmentsForAnalysis | src/custom_mcp/gemini_analyzer.py:53-95 | the loop over the transcript computes the segments of the recursive specification `Segments` (open a segment when `start − current.start_time ≥ segment_duration`, otherwise append the text with a leading space and set `end_time = start + duration`) |
| GeminiAnalyzer.SegmentTextsNonEmpty | src/custom_mcp/gemini_analyzer.py:75-77 | a segment is emitted only when its text is non-empty |
| GeminiAnalyzer.SegmentsContiguous | src/custom_mcp/gemini_analyzer.py:74-77 | with non-empty entry texts, each emitted segment ends where the next one starts (`end_time` is overwritten with the next segment's first start) |
| GeminiAnalyzer.SegmentsKeepEntries | src/custom_mcp/gemini_analyzer.py:69-93 | with non-empty entry texts, the emitted segments' entries, concatenated, are the transcript: no entry is lost, reordered or duplicated |
| GeminiAnalyzer.SegmentsInWindow | src/custom_mcp/gemini_analyzer.py:74-89 | every entry of a segment starts less than `segment_duration` after the segment's start |
| GeminiAnalyzer.LastSegmentEnd | src/custom_mcp/gemini_analyzer.py:80-93 | the last segment ends at its seed's start when it holds only its seed, and otherwise at `start + duration` of its last entry (the seed's duration is not counted) |
| GeminiAnalyzer.ThreeEntryExample | src/custom_mcp/gemini_analyzer.py:62-93 | entries at 0, 100 and 310 seconds with a 300-second window give the segments [0, 310) with text " a b" (the initial accumulator at 0 contributes the leading space) and [310, 310) with text "c" |
| GeminiAnalyzer.EmptySeedLeavesGap | src/custom_mcp/gemini_analyzer.py:74-77 | an entry with empty text that opens a segment is dropped with it, so the emitted segments are not contiguous and lose that entry |
| GeminiAnalyzer.FormatTimestamp | src/custom_mcp/gemini_analyzer.py:38-43 | the timestamp is `HH:MM:SS`, two zero-padded digits each, hours below 24, and it reads back to `int(seconds)` modulo 86400 |
| GeminiAnalyzer.ResolveSegmentDuration | src/custom_mcp/gemini_analyzer.py:245-250 | the `ValueError` is raised exactly for granularity "custom" with an absent or empty prompt |
| GeminiAnalyzer.GranularityRule | src/custom_mcp/gemini_analyzer.py:245-248 | "fine" gives `min(d, 180)`, "coarse" gives `max(d, 600)`, any other granularity leaves `d`; resolving again changes nothing |
| GeminiAnalyzer.FallbackSummary | src/custom_mcp/gemini_analyzer.py:214 | the fallback summary is the text itself when it has at most 50 characters, else its first 50 characters followed by "..." |
| GeminiAnalyzer.Fallback | src/custom_mcp/gemini_analyzer.py:211-219 | the fallback analysis has exactly the seven keys of the source |
| GeminiAnalyzer.Computed | src/custom_mcp/gemini_analyzer.py:268-275 | the computed part of a chapter has exactly the seven computed keys |
| GeminiAnalyzer.ChapterExists | src/custom_mcp/gemini_analyzer.py:266-280 | a chapter is produced exactly when the analysis is a JSON object and the merged record has "title" and "topic_category" (read by the progress line) |
| GeminiAnalyzer.ChapterFields | src/custom_mcp/gemini_analyzer.py:268-277 | the chapter's keys are the computed keys plus the analysis keys; a key the analysis returns overrides the computed value; otherwise `index` is i + 1, `duration_seconds` is `end − start` and `start_timestamp` is the formatted start |
| GeminiAnalyzer.FallbackChapter | src/custom_mcp/gemini_analyzer.py:208-219 | a failed analysis always gives a chapter with category "その他", title "セクション", level "general", index i + 1 and the fallback summary |
| GeminiAnalyzer.AssembleChapters | src/custom_mcp/gemini_analyzer.py:262-280 | the chapters are built in segment order, one per segment, and the first segment whose chapter fails stops the loop with that failure |
| GeminiAnalyzer.GenerateSemanticChapters | src/custom_mcp/gemini_analyzer.py:221-297 | the custom-without-prompt error comes before the transcript is fetched; a failed fetch gives "トランスクリプト取得エラー: …"; after that the first segment whose chapter cannot be built gives its error; with every chapter built, an empty transcript gives IndexError, a last entry without a duration gives KeyError("duration"), and otherwise a report is produced; a report holds the video id, the granularity, the resolved segment duration, one chapter per segment, the chapter count and the total duration from the last entry |
| GeminiAnalyzer.LinesOf | src/custom_mcp/gemini_analyzer.py:329-333 | one description line per chapter, in order |
| GeminiAnalyzer.ReadViews | src/custom_mcp/gemini_analyzer.py:317-345 | the chapters are read for the description exactly when every one has the keys the formatter reads |
| GeminiAnalyzer.KnownSections | src/custom_mcp/gemini_analyzer.py:324-334 | the sections of the seven known categories present, in the fixed category order |
| GeminiAnalyzer.UnknownSections | src/custom_mcp/gemini_analyzer.py:336-345 | the sections of the other categories, in the order they first appear |
| GeminiAnalyzer.LevelBlock | src/custom_mcp/gemini_analyzer.py:347-359 | the technical-level block is present exactly when there are levels: a heading, a line per level and a blank line |
| GeminiAnalyzer.BuildDescriptionLines | src/custom_mcp/gemini_analyzer.py:310-365 | the lines appended step by step are the lines of the specification `DescriptionLines` |
| GeminiAnalyzer.FormatForYoutubeDescription | src/custom_mcp/gemini_analyzer.py:299-367 | the description is produced exactly when every chapter can be read, and is then the specified lines joined with line breaks |
| GeminiAnalyzer.KnownPresentMembers | src/custom_mcp/gemini_analyzer.py:326-327 | the known sections are exactly the known categories that occur |
| GeminiAnalyzer.UnknownInMembers | src/custom_mcp/gemini_analyzer.py:337-338 | the other sections are exactly the categories that occur and are not known |
| GeminiAnalyzer.SectionOrderCovers | src/custom_mcp/gemini_analyzer.py:324-345 | every category that occurs gets exactly one section, and the known ones come before the others |
| GeminiAnalyzer.SectionsLength | src/custom_mcp/gemini_analyzer.py:326-345 | the sections take two lines per category plus one line per chapter of those categories |
| GeminiAnalyzer.DescriptionLineCount | src/custom_mcp/gemini_analyzer.py:310-365 | the description has 7 fixed lines, one per chapter, two per category and, when there are levels, one per level plus two |
| GeminiAnalyzer.SectionLists | src/custom_mcp/gemini_analyzer.py:328-334 | a section opens with "## category", ends with a blank line and lists exactly the chapters of that category, each as often as it occurs |
| GithubTools.AuthHeaders | src/custom_mcp/github_tools.py:11-14 | the read calls send an `Authorization: token …` header exactly when `GITHUB_TOKEN` is set and non-empty, and no other header |
| GithubTools.CreateIssue | src/custom_mcp/github_tools.py:52-68 | without a token the call is refused with "GitHub token is required to create issues"; otherwise it POSTs to `…/issues` with the token header and a payload of the title, plus the body exactly when one is given |
| GithubTools.UpdateFields | src/custom_mcp/github_tools.py:108-119 | the update payload holds `state`, `title` and `body` exactly when each is given (non-empty), with the given values |
| GithubTools.CreateGithubIssue | src/custom_mcp/github_tools.py:52-75 | the steps of `create_github_issue` compute the outcome of the specification `CreateIssue` |
| GithubTools.UpdateGithubIssue | src/custom_mcp/github_tools.py:100-136 | the steps of `update_github_issue` compute the outcome of the specification `UpdateIssue` |
| GithubTools.ReadCallsAuthorizeOnlyWithToken | src/custom_mcp/github_tools.py:9-97 | the three read calls are GETs without a payload that carry the token header exactly when there is a token, and the list calls pass the requested state |
| GithubTools.UpdateCheckOrder | src/custom_mcp/github_tools.py:103-122 | the token is checked first, then the state ("open" or "closed"), then that at least one field is given |
| GithubTools.UpdateSendsExactlyGivenFields | src/custom_mcp/github_tools.py:100-130 | a PATCH to `…/issues/<number>` is sent exactly when every check passes, with the token header and a payload of exactly the given, non-empty fields |
| GithubTools.ExpectedCloseIssue | tests/test_github_tools.py:170-186 | closing issue 1 sends `{"state": "closed"}` with the test token |
| GithubTools.ExpectedUpdateWithoutToken | tests/test_github_tools.py:188-194 | without a token the update is refused with the token error |
| GithubTools.ExpectedInvalidState | tests/test_github_tools.py:196-202 | the state "invalid" is refused with the state error |
| GithubTools.ExpectedNoFields | tests/test_github_tools.py:204-210 | an update with no field is refused with the no-field error |
| SlackTools.SendSlackBulkDm | src/custom_mcp/slack_tools.py:10-72 | the token, the user list and the message are checked in that order; otherwise every user is tried in order and the report holds the sends, the failures, `total_users = len(user_ids)` and the two counts as the lengths of the two lists |
| SlackTools.SendsPartitionUsers | src/custom_mcp/slack_tools.py:40-70 | every user tried lands in exactly one of the two lists: their lengths add up to the users tried |
| SlackTools.EveryUserRecorded | src/custom_mcp/slack_tools.py:52-70 | each user's record is in the list its outcome calls for, with the channel and timestamp of a delivery or the text of the error |
| SlackTools.RecordsKeepUserOrder | src/custom_mcp/slack_tools.py:40-70 | the lists only grow by appending, so records keep the order of the users |
| SlackTools.ReportCountsAddUp | src/custom_mcp/slack_tools.py:35-37 | `success_count + failure_count == total_users` |
| SlackTools.RequestLimit | src/custom_mcp/slack_tools.py:91 | `min(limit, 1000)`: never above 1000 and the limit itself when it is not |
| SlackTools.UserOf | src/custom_mcp/slack_tools.py:97-106 | a member is read exactly when it has an "id" and its "profile" (default `{}`) is a dict, and the user keeps that id |
| SlackTools.HasMore | src/custom_mcp/slack_tools.py:111 | `has_more` is false without metadata and otherwise says whether "next_cursor" is present and not "", failing only when the metadata is not a dict |
| SlackTools.GetSlackUsers | src/custom_mcp/slack_tools.py:75-117 | without a token the error comes before any call; otherwise the users list is asked for `min(limit, 1000)` users and the response read |
| SlackTools.KeptUsersAreFiltered | src/custom_mcp/slack_tools.py:93-106 | the users returned are the members that are neither deleted nor bots, in order, each read from its member |
| SlackTools.KeptUsersErrorSticks | src/custom_mcp/slack_tools.py:94-117 | once a kept member cannot be read, the loop's failure is final |
| SlackTools.KeptUsersFailure | src/custom_mcp/slack_tools.py:94-117 | reading the users fails exactly when some kept member cannot be read |
| SlackTools.UsersCounted | src/custom_mcp/slack_tools.py:108-112 | `total_count` is the number of users returned and `has_more` says whether the next cursor is non-empty |
| SlackTools.SendSlackChannelMessage | src/custom_mcp/slack_tools.py:120-158 | the token, the channel and the message are checked in that order; the message is sent exactly when all three are given and the post succeeds, and the answer carries the posted channel and timestamp |
| McpServer.Response | src/custom_mcp/server.py:20-30 | a response carries exactly `jsonrpc` "2.0", the request id and one of `error` (code −1 with the message, when the error string is non-empty) or `result` (otherwise), never both |
| McpServer.Notification | src/custom_mcp/server.py:34-42 | a notification without params carries exactly `jsonrpc` and the method name |
| McpServer.Descriptor | src/custom_mcp/server.py:75-86 | a tool descriptor has exactly name, description and inputSchema, with the tool's name and the fixed two-number schema |
| McpServer.Descriptors | src/custom_mcp/server.py:72-86 | one descriptor per registered tool, in registry order |
| McpServer.RunLines | src/custom_mcp/server.py:135-171 | the exit status of a run over the input lines is 0 or 1 |
| McpServer.RunLinesAt | src/custom_mcp/server.py:141-160 | a run from line i emits that line's output followed by the run from line i+1, or stops with status 1 and no further output when the line cannot be handled |
| McpServer.Server.constructor | src/custom_mcp/server.py:16-18 | a new server wraps the given name and registry and has written nothing |
| McpServer.Server.SendResponse | src/custom_mcp/server.py:20-32 | appends exactly one response line to the output |
| McpServer.Server.SendNotification | src/custom_mcp/server.py:34-44 | appends exactly one notification line to the output |
| McpServer.Server.HandleInitialize | src/custom_mcp/server.py:46-68 | appends the initialize response (capabilities and server info) followed by the `initialized` notification |
| McpServer.Server.HandleToolsList | src/custom_mcp/server.py:70-88 | appends one response whose `tools` are the registry's descriptors in order |
| McpServer.Server.HandleToolsCall | src/custom_mcp/server.py:90-110 | appends one response: the tool's result as a single text content item, or the raised exception's message as an error |
| McpServer.Server.HandleRequest | src/custom_mcp/server.py:112-133 | appends exactly the lines the routing function `Reply` prescribes for the request's method |
| McpServer.Server.HandleLine | src/custom_mcp/server.py:141-160 | handles one input line: stops the run exactly when the line has no output (a decoded value that is not an object), and otherwise appends the line's output |
| McpServer.Server.Step | src/custom_mcp/server.py:141-168 | one loop iteration keeps the written output equal to the run specification's output up to that line, with the same final status |
| McpServer.Server.Run | src/custom_mcp/server.py:135-171 | the whole loop writes exactly the output of `RunLines` over the input and returns its exit status |
| McpServer.EmptyErrorIsNullResult | src/custom_mcp/server.py:27-30 | an exception with an empty message yields a `result` of null rather than an error, because the test is on the string's truthiness |
| McpServer.ReplyShapes | src/custom_mcp/server.py:112-133 | every line a request produces is the `initialized` notification or a response with an id and exactly one of error and result |
| McpServer.InitializeWritesTwoLines | src/custom_mcp/server.py:46-68 | `initialize` produces two lines: the response with the request's id (null when absent) and `listChanged` true, then the `initialized` notification |
| McpServer.UnknownMethodAnsweredOnlyWithId | src/custom_mcp/server.py:118-133 | an unknown method produces nothing exactly when the id is missing or null or the method is `initialized`; otherwise one "Unknown method: …" error response |
| McpServer.ToolsListInOrder | src/custom_mcp/server.py:70-88 | `tools/list` produces one response listing every registered tool, by name and with the fixed schema, in registry order |
| McpServer.ToolsCallOutcome | src/custom_mcp/server.py:90-110 | `tools/call` answers with the request id; params that are not an object yield the error of the failed `.get`; a returned value becomes its text; a raised non-empty message becomes the error |
| McpServer.ParseErrorContinues | src/custom_mcp/server.py:149-160 | an undecodable line writes the parse-error response (id null, code −32700) and the loop goes on with the next line |
| McpServer.BlankLineSkipped | src/custom_mcp/server.py:142-144 | a line that is blank after stripping produces nothing and does not stop the loop |
| McpServer.RequestAnswered | src/custom_mcp/server.py:149-151 | a decoded object line produces exactly its routed reply, followed by the rest of the run |
| McpServer.NonObjectIsTheOnlyStop | src/custom_mcp/server.py:140-168 | a line ends the run exactly when it decodes to a JSON value that is not an object (the routing's `.get` raises outside the decode-error handler) |
| McpServer.NonObjectStops | src/custom_mcp/server.py:165-168 | once such a line is met, the exit status is 1 and no later line produces output |
| McpServer.NoStopExitsNormally | src/custom_mcp/server.py:140-171 | when every line can be handled, the run ends with status 0 |
| YoutubeTools.MaxResultsParam | src/custom_mcp/youtube_tools.py:33-34 | the page size sent is always in 1..50, and a size already in range is kept |
| YoutubeTools.OrderParam | src/custom_mcp/youtube_tools.py:36-38 | the order sent is always one of the five valid orders, and a valid order is kept |
| YoutubeTools.SearchVideos | src/custom_mcp/youtube_tools.py:10-53 | the search fails exactly when the key is missing, with "YouTube API key is required"; otherwise the request carries the key, the query, `snippet`, type `video`, a page size in 1..50, a valid order, and `publishedAfter` exactly when one was given |
| YoutubeTools.VideoDetails | src/custom_mcp/youtube_tools.py:65-91 | the missing key is checked before the empty id list; a request is made exactly when both are present, with at most 50 of the given ids, joined by commas, and the three parts |
| YoutubeTools.ReadVideo | src/custom_mcp/youtube_tools.py:160-201 | a video can be read only when it is a JSON object whose description the summary loop can take: a string, or a list or dict of at most 200 entries |
| YoutubeTools.DescriptionDecidesRead | src/custom_mcp/youtube_tools.py:188-229 | on a readable video, replacing the description keeps the video readable exactly when the new one is a string or a list or dict of at most 200 entries; nothing else read changes, and the summary cuts a string and keeps a list or dict as it is |
| YoutubeTools.Facts | src/custom_mcp/youtube_tools.py:160-201 | when every video can be read there is one set of facts per video |
| YoutubeTools.FactsFailureSticks | src/custom_mcp/youtube_tools.py:160-201 | once a video raises, the whole loop raises, however many videos follow |
| YoutubeTools.Keywords | src/custom_mcp/youtube_tools.py:193-196 | only words longer than three characters are counted as keywords |
| YoutubeTools.CountsFor | src/custom_mcp/youtube_tools.py:194-196 | each keyword's frequency is its number of occurrences across all videos |
| YoutubeTools.StatsFor | src/custom_mcp/youtube_tools.py:180-185 | each channel entry holds that channel's video count and total views |
| YoutubeTools.Preview | src/custom_mcp/youtube_tools.py:229 | a description of at most 200 characters is kept whole; a longer one is its first 200 characters followed by "..." |
| YoutubeTools.SummaryList | src/custom_mcp/youtube_tools.py:214-231 | one summary per video, in video order |
| YoutubeTools.UnseparatedJoin | src/custom_mcp/youtube_tools.py:312 | the thousands separator between two digit groups disappears when separators are removed |
| YoutubeTools.ThousandsReadsBack | src/custom_mcp/youtube_tools.py:312 | removing the commas from a count formatted with `{:,}` gives the digits of that count |
| YoutubeTools.ThousandsExample | src/custom_mcp/youtube_tools.py:312 | `{:,}` of 1234567 is "1,234,567" |
| YoutubeTools.FactsStep | src/custom_mcp/youtube_tools.py:160-201 | the facts of the videos read so far grow by one video per turn, or reading fails |
| YoutubeTools.ChannelStep | src/custom_mcp/youtube_tools.py:180-185 | after one more video, a known channel's count and views grow by one and by the video's views, and a new channel is appended to the insertion order |
| YoutubeTools.TallyChannel | src/custom_mcp/youtube_tools.py:180-185 | one turn keeps the channel dict equal to the per-channel tallies of the videos seen, in insertion order |
| YoutubeTools.ScanVideo | src/custom_mcp/youtube_tools.py:165-201 | one turn keeps the totals, channel tallies and keyword list equal to their specifications over the videos seen |
| YoutubeTools.ScanVideos | src/custom_mcp/youtube_tools.py:143-201 | the first loop succeeds exactly when every video can be read, and then its totals, tallies and keywords are those of all the videos |
| YoutubeTools.ChannelEntries | src/custom_mcp/youtube_tools.py:211 | the channel dict's items are the per-channel tallies in insertion order |
| YoutubeTools.Summaries | src/custom_mcp/youtube_tools.py:214-231 | the second loop builds exactly the summary list, in video order |
| YoutubeTools.GenerateAnalysisReport | src/custom_mcp/youtube_tools.py:140-268 | the report built step by step is the report specification `AnalysisReport` |
| YoutubeTools.VideoIdsOf | src/custom_mcp/youtube_tools.py:126 | the lookup succeeds exactly when every search item has `["id"]["videoId"]`, of any type, and then gives one id per item, in order |
| YoutubeTools.StringIds | src/custom_mcp/youtube_tools.py:90 | the join takes the ids exactly when every one of them is a string, and then keeps them in order |
| YoutubeTools.DetailsJoinFirst50 | src/custom_mcp/youtube_tools.py:75-91 | without a key the details call answers the key error whatever the ids; with a key it raises exactly when one of the first 50 ids is not a string, and otherwise requests the first 50 ids as strings |
| YoutubeTools.SearchParamsNormalised | src/custom_mcp/youtube_tools.py:33-38 | a page size of 100 or 0 becomes 10 and an unknown order becomes "relevance"; searching again with the normalised parameters gives the same request |
| YoutubeTools.DetailsIdsLimited | src/custom_mcp/youtube_tools.py:82-84 | more than 50 ids are cut to the first 50; 50 or fewer are all sent |
| YoutubeTools.AnalyzeShortCircuits | src/custom_mcp/youtube_tools.py:116-137 | a missing key or a search error is returned unchanged, a search without items ends with "No videos found for the given query", and, when the ids can be read and joined, a details error is returned unchanged and any other answer is analysed |
| YoutubeTools.MissingCountsReadAsZero | src/custom_mcp/youtube_tools.py:166-168 | a view, like or comment count missing from the statistics reads as 0 |
| YoutubeTools.ReadVideoWithViews | src/custom_mcp/youtube_tools.py:161-201 | a video holding only its view count as decimal text reads as that count with every other fact at its default |
| YoutubeTools.TwoVideosReport | src/custom_mcp/youtube_tools.py:143-172 | the report on two readable videos counts two videos and adds their views |
| YoutubeTools.TotalViewsAdd | tests/test_youtube_tools.py:175-200 | videos with view counts "a" and "b" give a report of two videos with total views a + b |
| YoutubeTools.NoDetailsIsAnError | src/custom_mcp/youtube_tools.py:143-147 | details with no items, or an empty item list, give "No video details available for analysis" |
| YoutubeTools.TopKeywordsRanked | src/custom_mcp/youtube_tools.py:210 | at most ten keywords, by non-increasing frequency, each an occurring word paired with its number of occurrences |
| YoutubeTools.TopKeywordsDominate | src/custom_mcp/youtube_tools.py:210 | a keyword left out occurs no more often than any kept one |
| YoutubeTools.TopChannelsRanked | src/custom_mcp/youtube_tools.py:211 | at most five channels by non-increasing views, each a real channel with its tallies, and a channel left out has no more views than any kept one |
| YoutubeTools.StatsSum | src/custom_mcp/youtube_tools.py:180-185 | summing the channel entries over a key list sums the per-key tallies |
| YoutubeTools.SumOneVideo | src/custom_mcp/youtube_tools.py:144 | counting one per video counts the videos |
| YoutubeTools.ChannelTalliesAddUp | src/custom_mcp/youtube_tools.py:170-185 | every video is tallied under exactly one channel: the channel counts add up to the number of videos and the channel views to the total views |
| YoutubeTools.SummariesSortedByViews | src/custom_mcp/youtube_tools.py:233-234 | the sorted summaries are a permutation of the summaries, by non-increasing views, stable for equal views, with the most viewed video first |
| YoutubeTools.PopularLineNamesVideo | src/custom_mcp/youtube_tools.py:311-312 | the first insight names the most popular video's title |
| YoutubeTools.InsightsShape | src/custom_mcp/youtube_tools.py:303-323 | without videos the insights are the single "No videos available for insight generation." message; otherwise one line for the top video, one for the top channel when there is one and one for the top keyword when there is one |
| YoutubeAiTools.PowerHits | src/custom_mcp/youtube_ai_tools.py:295-298 | the number of power words found is at most the number of power words |
| YoutubeAiTools.TitleScore | src/custom_mcp/youtube_ai_tools.py:283-316 | every title scores between 0 and 78 |
| YoutubeAiTools.OtherDigitsCount | src/custom_mcp/youtube_ai_tools.py:301 | `str.isdigit` holds for every Unicode digit, so a circled digit, a superscript or a Devanagari digit earns the digit points |
| YoutubeAiTools.CalculateTitleScore | src/custom_mcp/youtube_ai_tools.py:283-316 | the score accumulated part by part equals the title score specification |
| YoutubeAiTools.HitsCountDistinctWords | src/custom_mcp/youtube_ai_tools.py:295-298 | over a list without repetitions, the number of hits is the number of distinct words present in the title |
| YoutubeAiTools.PowerWordPoints | src/custom_mcp/youtube_ai_tools.py:287-314 | the score is the length band (20 for 40..60, 10 for 30..70) plus 5 per distinct power word present, 10 for a digit, 5 for both 【 and 】, 3 for ! or ！, and 5 for ? or ？ |
| YoutubeAiTools.SocialProofFigure | src/custom_mcp/youtube_ai_tools.py:208-210 | the figure printed before 万 is the view count in ten-thousands, rounded down, and at least 1 when the title is offered |
| YoutubeAiTools.SocialProofOverstated | src/custom_mcp/youtube_ai_tools.py:208-210 | as written, the figure read as 万 claims more views than the video has, at least ten times the intended figure |
| YoutubeAiTools.AudienceTitle | src/custom_mcp/youtube_ai_tools.py:239-252 | an audience title exists exactly for the four known audiences |
| YoutubeAiTools.Drafts | src/custom_mcp/youtube_ai_tools.py:200-263 | four to six suggestions are drafted before ranking |
| YoutubeAiTools.Scored | src/custom_mcp/youtube_ai_tools.py:266-267 | every suggestion, in order, gets the score of its own title |
| YoutubeAiTools.ScoreDrafts | src/custom_mcp/youtube_ai_tools.py:266-267 | the scoring loop gives every draft, in order, the score of its title |
| YoutubeAiTools.GenerateTitleSuggestions | src/custom_mcp/youtube_ai_tools.py:197-271 | the suggestions built and scored step by step are the suggestion specification `TitleSuggestions` |
| YoutubeAiTools.RankedSuggestions | src/custom_mcp/youtube_ai_tools.py:266-271 | at most five suggestions by non-increasing score; each is a draft with its title's score, and a draft left out scores no higher than any kept one |
| YoutubeAiTools.AudienceStrategyIsNotFixed | src/custom_mcp/youtube_ai_tools.py:211-261 | no fixed strategy text can be mistaken for an audience strategy |
| YoutubeAiTools.SocialProofOnlyWhenPopular | src/custom_mcp/youtube_ai_tools.py:208-213 | the social-proof suggestion is drafted exactly when the video has more than 10,000 views |
| YoutubeAiTools.AppendCancels | src/custom_mcp/youtube_ai_tools.py:250 | two strategy texts with the same suffix are equal only when their audiences are |
| YoutubeAiTools.AudienceDraftOnlyKnown | src/custom_mcp/youtube_ai_tools.py:239-252 | an audience suggestion is drafted exactly for a requested audience that is one of the four known ones |
| YoutubeAiTools.Expanded | src/custom_mcp/youtube_ai_tools.py:706-708 | every entry of the expanded list is a type whose share is at least 10% |
| YoutubeAiTools.SelectContentType | src/custom_mcp/youtube_ai_tools.py:704-710 | the type chosen by the list-building loop is the one the selection specification `ContentType` gives |
| YoutubeAiTools.ExpandedLength | src/custom_mcp/youtube_ai_tools.py:707-708 | the expanded list has `percentage // 10` entries per type |
| YoutubeAiTools.ContentTypeChosen | src/custom_mcp/youtube_ai_tools.py:704-710 | the list is empty exactly when no share reaches 10%; otherwise the type chosen is one whose share does |
| YoutubeAiTools.ExpandedHas | src/custom_mcp/youtube_ai_tools.py:707-708 | a type with a share of at least 10% appears in the list |
| YoutubeAiTools.DefaultMixCycle | src/custom_mcp/youtube_ai_tools.py:667-675 | with the suggested mix the plan cycles through nine slots: five main, two trend, one collaboration, one Q&A; announcements (5%) are never chosen |
| YoutubeAiTools.SeasonQuarters | src/custom_mcp/youtube_ai_tools.py:756-767 | the seasons are the quarters counted from December, so the season changes between consecutive months exactly after February, May, August and November |
| YoutubeAiTools.Names | src/custom_mcp/youtube_ai_tools.py:522 | the tags returned are the ranked entries' names, in order |
| YoutubeAiTools.AnalyzeTagPatterns | src/custom_mcp/youtube_ai_tools.py:510-522 | the collecting and counting loops give the tag-pattern specification `TagPatterns` |
| YoutubeAiTools.TagPatternsRanked | src/custom_mcp/youtube_ai_tools.py:517-522 | at most ten distinct tags, each occurring, by non-increasing number of occurrences |
| YoutubeAiTools.TagPatternsDominate | src/custom_mcp/youtube_ai_tools.py:521-522 | a tag left out occurs no more often than any tag kept |
| YoutubeAiTools.TopKeywordsDistinct | src/custom_mcp/youtube_ai_tools.py:517-521 | two ranked entries never name the same tag |
| YoutubeAiTools.Intervals | src/custom_mcp/youtube_ai_tools.py:647-651 | every interval kept is strictly between 0 and 30 days |
| YoutubeAiTools.CalculateOptimalFrequency | src/custom_mcp/youtube_ai_tools.py:629-665 | the parsing and interval loops give the frequency specification `OptimalFrequency` |
| YoutubeAiTools.FrequencyThresholds | src/custom_mcp/youtube_ai_tools.py:631-665 | the default "週2-3本" comes exactly when fewer than two dates parse or no interval is in (0, 30); intervals all under 3 days give "毎日または隔日", all of 8 days or more give "週1本" |
| YoutubeAnalyticsTools.DayRecord | src/custom_mcp/youtube_analytics_tools.py:73-79 | a day record has no `day` key; its keys are exactly the column names, with `day` renamed to `date` |
| YoutubeAnalyticsTools.Reshape | src/custom_mcp/youtube_analytics_tools.py:69-80 | reshaping succeeds exactly when no row is shorter than the header list (a shorter row raises), and then gives one record per row, so the period's day count is the row count |
| YoutubeAnalyticsTools.BuildDay | src/custom_mcp/youtube_analytics_tools.py:73-79 | the inner loop succeeds exactly when the row has a cell for every header, and then builds the day record |
| YoutubeAnalyticsTools.ReshapeRows | src/custom_mcp/youtube_analytics_tools.py:69-80 | the outer loop gives exactly the reshaping specification `Reshape` |
| YoutubeAnalyticsTools.ReshapeFailureSticks | src/custom_mcp/youtube_analytics_tools.py:72-80 | once a row raises, reshaping all the rows fails |
| YoutubeAnalyticsTools.DayRecordCells | src/custom_mcp/youtube_analytics_tools.py:74-79 | a cell is stored under its own header's key whenever no later header maps to the same key (a later one overwrites it) |
| YoutubeAnalyticsTools.Values | src/custom_mcp/youtube_analytics_tools.py:275 | one value per day, in order, with a missing metric read as 0 |
| YoutubeAnalyticsTools.MinMaxBound | src/custom_mcp/youtube_analytics_tools.py:280-281 | `min` and `max` of a non-empty list are elements of it, below and above every element |
| YoutubeAnalyticsTools.CalculatePeriodStats | src/custom_mcp/youtube_analytics_tools.py:267-284 | the loop gives exactly the period-statistics specification `PeriodStats` |
| YoutubeAnalyticsTools.PeriodStatsKeys | src/custom_mcp/youtube_analytics_tools.py:271-282 | a metric has an entry exactly when there are days and it is a requested metric other than `day`, and the entry holds its total, minimum and maximum |
| YoutubeAnalyticsTools.RealSumBounds | src/custom_mcp/youtube_analytics_tools.py:278 | a sum of n values between lo and hi lies between n·lo and n·hi |
| YoutubeAnalyticsTools.TotalBetween | src/custom_mcp/youtube_analytics_tools.py:278-281 | a total lies between n·min and n·max |
| YoutubeAnalyticsTools.PeriodStatBounds | src/custom_mcp/youtube_analytics_tools.py:275-281 | every day's value lies between the entry's `min` and `max` |
| YoutubeAnalyticsTools.PeriodTotalBounds | src/custom_mcp/youtube_analytics_tools.py:275-281 | the entry's `total` lies between n·`min` and n·`max` for a period of n days |
| YoutubeAnalyticsTools.BestIndex | src/custom_mcp/youtube_analytics_tools.py:312 | the best day has views at least those of every day and strictly more than every earlier day: the first day with the most views |
| YoutubeAnalyticsTools.FindBestDay | src/custom_mcp/youtube_analytics_tools.py:307-319 | there is no best day exactly when there are no days |
| YoutubeAnalyticsTools.RealSumConstant | src/custom_mcp/youtube_analytics_tools.py:331-332 | a sum of n equal values is n times the value |
| YoutubeAnalyticsTools.RealSumNonNegative | src/custom_mcp/youtube_analytics_tools.py:331-332 | a sum of non-negative values is non-negative, and positive when one value is |
| YoutubeAnalyticsTools.AverageConstant | src/custom_mcp/youtube_analytics_tools.py:331-332 | the average of equal values is that value |
| YoutubeAnalyticsTools.AveragePositive | src/custom_mcp/youtube_analytics_tools.py:331-332 | the average of non-negative values, one of them positive, is positive |
| YoutubeAnalyticsTools.ConstantViewsFlat | src/custom_mcp/youtube_analytics_tools.py:321-341 | three or more days with the same non-negative views give "横ばい" |
| YoutubeAnalyticsTools.OneSidedViews | src/custom_mcp/youtube_analytics_tools.py:329-339 | views only in the later half (split at n // 2) give "上昇傾向"; views that stop in the later half give "下降傾向" |
| YoutubeAnalyticsTools.ComparisonOf | src/custom_mcp/youtube_analytics_tools.py:576-605 | a comparison entry, measured or failed, carries the video's id |
| YoutubeAnalyticsTools.RankEntries | src/custom_mcp/youtube_analytics_tools.py:615 | only measured videos are ranked, each with its value for the metric |
| YoutubeAnalyticsTools.RankEntriesEmpty | src/custom_mcp/youtube_analytics_tools.py:615-616 | a metric has nothing to rank exactly when no video was measured |
| YoutubeAnalyticsTools.RankingsRanked | src/custom_mcp/youtube_analytics_tools.py:607-620 | a metric has a ranking exactly when some video was measured; each ranking lists every measured video once, by non-increasing value |
| YoutubeAnalyticsTools.CountInFilter | src/custom_mcp/youtube_analytics_tools.py:634 | counting the high-watch-time entries found in the high-engagement list counts those with a high engagement rate |
| YoutubeAnalyticsTools.FilterHighBoth | src/custom_mcp/youtube_analytics_tools.py:631-634 | filtering by watch time and then by engagement keeps the entries with both |
| YoutubeAnalyticsTools.CorrelationCountsBoth | src/custom_mcp/youtube_analytics_tools.py:622-640 | the message is returned exactly when fewer than two videos were measured; the correlation is positive exactly when more than a third of them have both a high watch time and a high engagement rate |
| YoutubeAnalyticsTools.FirstWithId | src/custom_mcp/youtube_analytics_tools.py:649 | the entry found is the first with that id, and none is found only when no entry has it |
| YoutubeAnalyticsTools.BestPractices | src/custom_mcp/youtube_analytics_tools.py:642-658 | one or two practices; the fixed fallback exactly when neither rule fires |
| YoutubeAnalyticsTools.NothingMeasuredFallsBack | src/custom_mcp/youtube_analytics_tools.py:615-658 | without a measured video there are no rankings and only the fallback practice |
| YoutubeAnalyticsTools.Comparisons | src/custom_mcp/youtube_analytics_tools.py:239-244 | one comparison entry per id, in order |
| YoutubeAnalyticsTools.CompareVideoPerformance | src/custom_mcp/youtube_analytics_tools.py:225-262 | the report counts the ids given and holds their comparisons, the rankings, correlations and practices computed from them |
| YoutubeAnalyticsTools.SummarizeAudience | src/custom_mcp/youtube_analytics_tools.py:556-574 | the summary fails only on an empty `peak_hours` list; otherwise it holds the first three countries and first two devices, and the first peak hour or "不明" |
| YoutubeAnalyticsTools.ParseVideoIds | src/custom_mcp/youtube_analytics_tools.py:767 | one id per comma-separated part, each stripped |
| YoutubeAnalyticsTools.CompareToolNeedsComma | src/custom_mcp/youtube_analytics_tools.py:767-772 | the tool refuses exactly the inputs without a comma, before any authentication; otherwise there is one id more than commas |
| YoutubeChannelTools.CloseAt | src/custom_mcp/youtube_channel_tools.py:288 | the lazy match closes at the first 】 on the same line, and at no earlier character |
| YoutubeChannelTools.DropBracketed | src/custom_mcp/youtube_channel_tools.py:288 | removing bracketed runs never makes the title longer |
| YoutubeChannelTools.OpenLineKept | src/custom_mcp/youtube_channel_tools.py:288 | text without a closing 】 on its line stays without one after the substitution |
| YoutubeChannelTools.DropBracketedLeavesNone | src/custom_mcp/youtube_channel_tools.py:288 | after the substitution the pattern matches nowhere, so applying it again changes nothing |
| YoutubeChannelTools.DropBracketedNoOpen | src/custom_mcp/youtube_channel_tools.py:288 | a title without 【 is left as it is |
| YoutubeChannelTools.DropBracketedIsLazy | src/custom_mcp/youtube_channel_tools.py:288 | the match is non-greedy: "【a】b【c】" keeps the "b" between the runs |
| YoutubeChannelTools.Suggested | src/custom_mcp/youtube_channel_tools.py:290-310 | the first n templates give at most n suggestions |
| YoutubeChannelTools.SuggestedFromTemplates | src/custom_mcp/youtube_channel_tools.py:290-310 | every suggestion is the whole output of one template, at most 100 characters long |
| YoutubeChannelTools.TryPattern | src/custom_mcp/youtube_channel_tools.py:291-310 | one turn of the pattern loop extends the suggestions of the first k templates to those of the first k+1 |
| YoutubeChannelTools.GenerateBuzzTitle | src/custom_mcp/youtube_channel_tools.py:250-315 | the loop and the final insertion give exactly the title specification `BuzzTitles` |
| YoutubeChannelTools.BuzzTitlesShape | src/custom_mcp/youtube_channel_tools.py:313-315 | one to five titles; the first is the current title unchanged, every other one a template's output of at most 100 characters |
| YoutubeChannelTools.ViewsTemplate | src/custom_mcp/youtube_channel_tools.py:282-301 | the view-count template fires exactly above 10000 views, naming the count in units of 10000 |
| YoutubeChannelTools.LongSuggestionDropped | src/custom_mcp/youtube_channel_tools.py:308-310 | a template output longer than 100 characters is dropped, not truncated |
| YoutubeChannelTools.MergeSnippet | src/custom_mcp/youtube_channel_tools.py:143-151 | the merged snippet has the old keys plus the given ones; exactly the arguments that are not None overwrite their key, every other key keeps its value |
| YoutubeChannelTools.EmptyTitleWrittenButUnreported | src/custom_mcp/youtube_channel_tools.py:144-167 | an empty title is written to the snippet yet reported as 'unchanged'; an absent title leaves the snippet's title alone and is reported the same way |
| YoutubeChannelTools.MissingVideoRaises | src/custom_mcp/youtube_channel_tools.py:137-138 | a video the API does not return raises "動画が見つかりません: <id>" and nothing is sent |
| YoutubeChannelTools.BatchResults | src/custom_mcp/youtube_channel_tools.py:188-202 | one result per update |
| YoutubeChannelTools.BatchUpdateVideos | src/custom_mcp/youtube_channel_tools.py:177-202 | the loop gives exactly the batch specification `BatchResults` |
| YoutubeChannelTools.BatchIsolated | src/custom_mcp/youtube_channel_tools.py:190-200 | result i depends on update i alone, so a failure does not stop later updates, and every failure record carries the id 'unknown' |
| YoutubeChannelTools.SuccessesBounded | src/custom_mcp/youtube_channel_tools.py:414 | the success count is between 0 and the number of results |
| YoutubeChannelTools.SummaryAddsUp | src/custom_mcp/youtube_channel_tools.py:413-420 | the summary's total is the number of updates, success plus failed is the total, both are non-negative, and success counts the updates that went through |
| YoutubeChannelTools.ChapterLines | src/custom_mcp/youtube_channel_tools.py:231-232 | one "time title" line per chapter, in order |
| YoutubeChannelTools.ChapterBodySnoc | src/custom_mcp/youtube_channel_tools.py:231-232 | one more chapter appends its line and a line break |
| YoutubeChannelTools.AddChapterLine | src/custom_mcp/youtube_channel_tools.py:232 | one turn of the chapter loop keeps the text equal to the header and the lines of the chapters seen |
| YoutubeChannelTools.ChapterText | src/custom_mcp/youtube_channel_tools.py:230-232 | the loop builds the "📍 目次" header followed by one line per chapter |
| YoutubeChannelTools.SplitAtLine | src/custom_mcp/youtube_channel_tools.py:232 | splitting at a line break separates a line without breaks from the rest |
| YoutubeChannelTools.ChapterBodyLines | src/custom_mcp/youtube_channel_tools.py:231-232 | read back line by line, the chapter lines are the chapters' lines in order, then an empty remainder |
| YoutubeChannelTools.ChapterBlockLines | src/custom_mcp/youtube_channel_tools.py:230-232 | read back line by line, the block is two empty lines, the "📍 目次" header and one line per chapter in order |
| YoutubeChannelTools.ChaptersWritten | src/custom_mcp/youtube_channel_tools.py:227-243 | on success the description written is the chapter block, a line break and the stripped old description without its previous block; no other snippet key changes, and `chapters_added` is the number of chapters |
| YoutubeContentGenerator.Bulleted | src/custom_mcp/youtube_content_generator.py:120-121 | one bulleted line per learning outcome, in order |
| YoutubeContentGenerator.AppendOutcomes | src/custom_mcp/youtube_content_generator.py:118-122 | the outcome loop appends the heading, one line per outcome and a blank line, and only when outcomes are listed |
| YoutubeContentGenerator.AppendChapters | src/custom_mcp/youtube_content_generator.py:129-135 | the chapter loop appends the heading, the rule, one "start title" line per chapter and a blank line |
| YoutubeContentGenerator.AppendSections | src/custom_mcp/youtube_content_generator.py:138-142 | the section loop appends three lines per custom section |
| YoutubeContentGenerator.BuildDescription | src/custom_mcp/youtube_content_generator.py:106-153 | the lines appended step by step are the description specification `DescriptionParts`, raising the same `KeyError` |
| YoutubeContentGenerator.SectionLines | src/custom_mcp/youtube_content_generator.py:138-142 | each section contributes "【section】", the placeholder and a blank line, in section order |
| YoutubeContentGenerator.DescriptionFails | src/custom_mcp/youtube_content_generator.py:109-128 | building fails exactly when the short description is asked for and missing, the detailed summary is missing, or chapters are asked for and their generation raises |
| YoutubeContentGenerator.DescriptionOpens | src/custom_mcp/youtube_content_generator.py:108-115 | the description opens with the short description and a blank line when asked for, then the detailed summary |
| YoutubeContentGenerator.DescriptionCloses | src/custom_mcp/youtube_content_generator.py:144-153 | the description closes with the rule and the joined hashtags when they are asked for and present, and with a blank line otherwise |
| YoutubeContentGenerator.DescriptionLineCount | src/custom_mcp/youtube_content_generator.py:106-153 | the number of lines is the sum of the present blocks: 2 for the summary, 2 for the detailed summary, outcomes + 2, chapters + 3, 3 per section, 3 for the call to action, 2 for the hashtags |
| YoutubeContentGenerator.DescriptionChapters | src/custom_mcp/youtube_content_generator.py:126-128 | the chapters are requested with 300-second segments and medium granularity; they are the answer's chapters, or its error |
| YoutubeContentGenerator.TranscriptFailure | src/custom_mcp/youtube_content_generator.py:48-53 | before the `try`, a failed fetch raises "トランスクリプト取得エラー: …", an empty transcript raises `IndexError` and a last entry without a duration raises `KeyError`; nothing is raised exactly when the total duration can be read |
| YoutubeContentGenerator.GenerateVideoDescription | src/custom_mcp/youtube_content_generator.py:25-174 | what the transcript steps raise before the `try` is raised to the caller (`Raised`); after them, a failed content answer or a failed description build becomes the failure record "コンテンツ生成エラー: …"; otherwise the description is the lines joined with "\n", with the answer's title suggestions, hashtags, keywords and audience |
| YoutubeContentGenerator.StripAll | src/custom_mcp/youtube_content_generator.py:218 | every piece is stripped, in order |
| YoutubeContentGenerator.SliceTo | src/custom_mcp/youtube_content_generator.py:221 | Python's `[:n]` is a prefix of the list, of length n when n ≥ 0 and dropping −n items from the end when n < 0 |
| YoutubeContentGenerator.StripNoComma | src/custom_mcp/youtube_content_generator.py:218 | a piece of the split keeps no comma once stripped |
| YoutubeContentGenerator.OptimizedTags | src/custom_mcp/youtube_content_generator.py:213-225 | a failed model call gives no tags; otherwise the tags are a prefix of the answer's candidates, at most `max_tags` of them |
| YoutubeContentGenerator.TagsWellFormed | src/custom_mcp/youtube_content_generator.py:213-225 | every tag is non-empty, shorter than 100 characters, comma-free and stripped; at most `max_tags` tags (a negative limit drops from the end); a failed answer gives no tags; the tags are a prefix of the candidates, at most one more than the commas |
| YoutubeContentGenerator.PyIndex | src/custom_mcp/youtube_content_generator.py:263 | Python's `s[i]` succeeds exactly for −len ≤ i < len, counting a negative index from the end |
| YoutubeContentGenerator.FieldNames | src/custom_mcp/youtube_content_generator.py:319 | `updated_fields` lists the update data's keys, in order |
| YoutubeContentGenerator.BuildUpdateData | src/custom_mcp/youtube_content_generator.py:259-269 | the update data filled step by step is the specification `UpdateDataOf` |
| YoutubeContentGenerator.UpdateDataNames | src/custom_mcp/youtube_content_generator.py:259-269 | the keys are, in order, title (when asked for and suggestions exist), description (when asked for) and tags (when asked for and non-empty) |
| YoutubeContentGenerator.UpdateDataFields | src/custom_mcp/youtube_content_generator.py:259-269 | the update data fails only on a title index out of range; each key is present exactly under its condition, no key twice, and each holds its generated value |
| YoutubeContentGenerator.MergeSnippet | src/custom_mcp/youtube_content_generator.py:302-304 | the overwriting loop gives the merge specification `Merged` |
| YoutubeContentGenerator.MergedKeys | src/custom_mcp/youtube_content_generator.py:302-304 | the merged snippet has the old keys and the update keys, and every other key keeps its value |
| YoutubeContentGenerator.MergedValues | src/custom_mcp/youtube_content_generator.py:302-304 | every update key holds the update's value |
| YoutubeContentGenerator.UpdateVideoMetadataWithGeneratedContent | src/custom_mcp/youtube_content_generator.py:227-329 | the method's outcome is the update specification `UpdateWithGenerated` |
| YoutubeContentGenerator.FailedGenerationReturned | src/custom_mcp/youtube_content_generator.py:252-254 | a failed generation is returned unchanged |
| YoutubeContentGenerator.TranscriptFailuresCaught | src/custom_mcp/youtube_content_generator.py:250-329 | what the generation raised, and a failed second transcript fetch when tags are asked for, are caught as "更新エラー: …"; a preview or an applied update had its content generated and, for tags, its transcript |
| YoutubeContentGenerator.DryRunNeedsNoApi | src/custom_mcp/youtube_content_generator.py:272-279 | a dry run's outcome does not depend on the fetch or update calls |
| YoutubeContentGenerator.DryRunPreviewsUpdate | src/custom_mcp/youtube_content_generator.py:272-320 | when the real run applies an update, the dry run previews exactly the update data it applies |
| YoutubeContentGenerator.AppliedReportsFields | src/custom_mcp/youtube_content_generator.py:299-320 | an applied update sends the current snippet with exactly the update keys overwritten by their new values, and reports those keys |
| YoutubeContentGenerator.LinkedinTagsFiltered | src/custom_mcp/youtube_content_generator.py:394 | LinkedIn's hashtags are the first five of those not starting with "#エンタメ" |
| YoutubeContentGenerator.TwitterPost | src/custom_mcp/youtube_content_generator.py:355-363 | the Twitter post is built exactly when the short description and the hashtags are present; the first of them missing is the `KeyError` raised |
| YoutubeContentGenerator.FacebookPost | src/custom_mcp/youtube_content_generator.py:365-378 | the Facebook post is built exactly when the key points, a non-empty title list, the detailed summary and the hashtags are present; missing key points raise first, then an empty title list raises `IndexError` |
| YoutubeContentGenerator.LinkedinPost | src/custom_mcp/youtube_content_generator.py:380-395 | the LinkedIn post is built exactly when a non-empty title list, the detailed summary, the learning outcomes, the audience and the hashtags are present; the title list is read first |
| YoutubeContentGenerator.SocialMediaPosts | src/custom_mcp/youtube_content_generator.py:331-397 | what the generation raised is raised again; a failed generation gives no posts; posts are only ever keyed by requested platforms |
| YoutubeContentGenerator.PostsForRequestedPlatforms | src/custom_mcp/youtube_content_generator.py:346-397 | a failed generation gives no posts, and what the generation raised is raised again; otherwise there is a post exactly for each requested platform among twitter, facebook and linkedin, each that platform's text |
| YoutubeContentGenerator.TwitterOnlyNeedsHashtags | src/custom_mcp/youtube_content_generator.py:355-363 | with a short description present, the Twitter post fails exactly when the hashtags are missing |
| YoutubeSemanticTools.ResolveKey | src/custom_mcp/gemini_analyzer.py:26-32 | there is no key exactly when neither the argument nor the environment gives a non-empty one; a non-empty argument wins |
| YoutubeSemanticTools.Entries | src/custom_mcp/youtube_semantic_tools.py:135-140 | one topic entry per chapter, in order, with its title, summary, start timestamp and key points |
| YoutubeSemanticTools.TopicGroupEntries | src/custom_mcp/youtube_semantic_tools.py:130-140 | a category's list holds the entries of that category's chapters, in chapter order |
| YoutubeSemanticTools.TopicGroupAbsent | src/custom_mcp/youtube_semantic_tools.py:132-133 | a category no chapter has gets no entries |
| YoutubeSemanticTools.TopicsMap | src/custom_mcp/youtube_semantic_tools.py:126-140 | the topics dict is the map from each category seen to its group |
| YoutubeSemanticTools.AddChapter | src/custom_mcp/youtube_semantic_tools.py:131-140 | one turn of the loop keeps the category order and every category's list equal to the grouping of the chapters seen |
| YoutubeSemanticTools.CollectTopics | src/custom_mcp/youtube_semantic_tools.py:126-143 | the loop gives the categories in first-seen order, each with its chapters' entries, the key points in chapter order and the set of technical levels |
| YoutubeSemanticTools.RankKeyPoints | src/custom_mcp/youtube_semantic_tools.py:146-154 | the counting loop and the sort give the ten most frequent key points, as the keyword ranking does |
| YoutubeSemanticTools.ExtractVideoKeyTopics | src/custom_mcp/youtube_semantic_tools.py:107-172 | the method's result is the specification `KeyTopicsOf`, which uses 600-second segments |
| YoutubeSemanticTools.TopicsPartitionChapters | src/custom_mcp/youtube_semantic_tools.py:126-163 | `total_chapters` is the chapter count; the categories are exactly those of the chapters, each once; every chapter appears exactly once, under its own category, in chapter order |
| YoutubeSemanticTools.KeyPointsCollected | src/custom_mcp/youtube_semantic_tools.py:142 | the collected key points are exactly the chapters' key points |
| YoutubeSemanticTools.TopicsKeywordsRanked | src/custom_mcp/youtube_semantic_tools.py:146-161 | at most ten keywords by non-increasing frequency, each a chapter's key point with its number of occurrences |
| YoutubeSemanticTools.KeywordTiesFirstSeen | src/custom_mcp/youtube_semantic_tools.py:154 | keywords of equal frequency keep their first-appearance order |
| YoutubeSemanticTools.TopKeywordsArePrefix | src/custom_mcp/youtube_semantic_tools.py:154 | the top keywords are a prefix of all keywords sorted by frequency |
| YoutubeSemanticTools.TopicsNeedKey | src/custom_mcp/youtube_semantic_tools.py:121-122 | without a key the extraction fails with the constructor's error, before any model call |
| YoutubeSemanticTools.TimestampLines | src/custom_mcp/youtube_semantic_tools.py:202-204 | one "start title" line per chapter, in order |
| YoutubeSemanticTools.ChapterTimestampsOnly | src/custom_mcp/youtube_semantic_tools.py:175-229 | the method's result is the specification `TimestampsOf` |
| YoutubeSemanticTools.TimestampLinesRecovered | src/custom_mcp/youtube_semantic_tools.py:202-220 | on success the chapter list and `total_chapters` match the chapter count, and splitting the text at line breaks gives back one line per chapter |
| YoutubeSemanticTools.Analysed | src/custom_mcp/youtube_semantic_tools.py:268 | the successful analyses are at most the entries counted |
| YoutubeSemanticTools.AnalyseAll | src/custom_mcp/youtube_semantic_tools.py:248-266 | the loop keys one result per distinct id, in first-seen order, each the outcome of that id's analysis |
| YoutubeSemanticTools.CountAnalysed | src/custom_mcp/youtube_semantic_tools.py:268 | the count is the number of successful entries in the results |
| YoutubeSemanticTools.BatchAnalyzeChannelVideos | src/custom_mcp/youtube_semantic_tools.py:232-283 | the method's result is the batch specification `BatchOf` |
| YoutubeSemanticTools.BatchCounts | src/custom_mcp/youtube_semantic_tools.py:246-276 | `total_videos` is the number of ids; the results have exactly the ids as keys, each with its own outcome; successes are at most the distinct ids, which are at most the total |
| YoutubeSemanticTools.RepeatedIdCountedOnce | src/custom_mcp/youtube_semantic_tools.py:250-272 | a repeated id counts twice in `total_videos` but once in the results and the successes |
| YoutubeSemanticTools.Preview | src/custom_mcp/youtube_semantic_tools.py:321 | a reply of at most 100 characters is kept whole; a longer one is its first 100 characters and "..." |
| YoutubeSemanticTools.ApiStatusOf | src/custom_mcp/youtube_semantic_tools.py:286-330 | the status is valid exactly when a key resolves and the test call answers; the test response is the answer's preview, at most 103 characters; a failed call gives "Gemini API接続エラー: …" |
| YoutubeSemanticTools.MissingKeyNoCall | src/custom_mcp/youtube_semantic_tools.py:296-307 | without a key the status is "API key not found" whatever the model would answer; with an argument key only that key's answer matters |
| YoutubeManagementTools.Enrich | src/custom_mcp/youtube_management_tools.py:52-67 | the counts and message are added exactly to a successful generation: the description's length, the number of hashtags and of title suggestions; a failure record is passed on unchanged; what the generator raised becomes "コンテンツ生成に失敗: …" |
| YoutubeManagementTools.GenerateVideoContentAutomatically | src/custom_mcp/youtube_management_tools.py:15-67 | without a key the call fails with the constructor's error and "コンテンツ生成に失敗: …"; with one, a transcript failure before the generator's `try` is caught with the same message; otherwise the counts are added exactly when the description builds, and are its joined length and the answer's hashtag and title counts; a failed build is returned as the generator's failure |
| YoutubeManagementTools.JapaneseExact | src/custom_mcp/youtube_management_tools.py:98 | a tag is Japanese exactly when it contains a hiragana (U+3040..U+309F) or katakana (U+30A0..U+30FF) character |
| YoutubeManagementTools.EnglishWithoutKana | src/custom_mcp/youtube_management_tools.py:99 | the English tags are the tags without kana, in original order |
| YoutubeManagementTools.TagsPartitioned | src/custom_mcp/youtube_management_tools.py:98-99 | a tag is English exactly when it has no kana, and the two lists together hold every tag exactly as often as the tag list does |
| YoutubeManagementTools.JapaneseRatio | src/custom_mcp/youtube_management_tools.py:109 | the Japanese share is 0 for no tags and always between 0 and 100 |
| YoutubeManagementTools.ShareAtMostOne | src/custom_mcp/youtube_management_tools.py:109 | a part of a positive whole is a share between 0 and 1 |
| YoutubeManagementTools.AverageLengthBounds | src/custom_mcp/youtube_management_tools.py:110 | the average tag length is non-negative and, for a non-empty list, below any bound every tag stays under |
| YoutubeManagementTools.MeanBelow | src/custom_mcp/youtube_management_tools.py:110 | a total below count·bound gives an average below the bound |
| YoutubeManagementTools.SeoTagsReported | src/custom_mcp/youtube_management_tools.py:88-119 | with a key, a report is produced exactly when the transcript is fetched (the fetch in youtube_content_generator.py:194 is outside the generator's `try`), and a failed fetch gives "タグ生成に失敗: トランスクリプト取得エラー: …"; a report holds the generated tags and their count; each tag is in exactly one of the Japanese and English lists, which together hold every tag; the ratio is in 0..100 and the average length in 0..100; both are 0 without tags |
| YoutubeManagementTools.SeoTagsNeedKey | src/custom_mcp/youtube_management_tools.py:88-90 | without a key the generator's constructor error is the tool's failure, whatever the transcript |
| YoutubeManagementTools.SeoOptimizedTags | src/custom_mcp/youtube_management_tools.py:70-119 | without a key the tool fails with the constructor's error; a report is for the video asked about, holds the generator's tags and counts them in `total_count` and in its message |
| YoutubeManagementTools.VideoMetadataUpdate | src/custom_mcp/youtube_management_tools.py:123-167 | without a key, and when the generation raised, the tool answers a failure record, never a success |
| YoutubeManagementTools.VideoMetadataUpdateAnswer | src/custom_mcp/youtube_management_tools.py:123-167 | the key check comes first, answering "メタデータ更新に失敗: …"; with a key the answer is the generator's update, so a dry run applies nothing and a raised generation is "更新エラー: …"; a success needs a key and generated content |
| YoutubeManagementTools.Successes | src/custom_mcp/youtube_management_tools.py:317-318 | the successful updates are at most the number of ids |
| YoutubeManagementTools.UpdateAll | src/custom_mcp/youtube_management_tools.py:306-324 | the loop keys one result per distinct id, in first-seen order, each that id's outcome, and counts the successful updates over every id, repetitions included |
| YoutubeManagementTools.BatchUpdateChannelVideos | src/custom_mcp/youtube_management_tools.py:281-341 | the method's result is the batch specification `BatchUpdateOf` |
| YoutubeManagementTools.BatchCounts | src/custom_mcp/youtube_management_tools.py:301-334 | with a key, `total_videos` is the number of ids, successes plus failures is the total, failures are non-negative, and the results and their order hold exactly the ids, each with its own outcome |
| YoutubeManagementTools.BatchLeavesTitles | src/custom_mcp/youtube_management_tools.py:308-314 | no title is previewed or updated by the batch, since it passes `update_title=False` |
| YoutubeManagementTools.DryRunBatchApplies | src/custom_mcp/youtube_management_tools.py:313 | a dry-run batch applies no update |
| YoutubeManagementTools.RepeatedIdCountedTwice | src/custom_mcp/youtube_management_tools.py:306-330 | a repeated id that succeeds counts two successes and no failure, but has one entry in the results |
| Seqs.SortDesc | src/custom_mcp/youtube_tools.py:234 | `sort(reverse=True)` gives a permutation of the list, by non-increasing key |
| Seqs.SortDescStable | src/custom_mcp/youtube_tools.py:234 | the sort is stable: items of equal key keep their relative order |
| Seqs.Tally | src/custom_mcp/youtube_semantic_tools.py:146-151 | counting into a dict gives the keys in first-seen order, each with its total |
| Seqs.GroupBy | src/custom_mcp/youtube_semantic_tools.py:130-140 | grouping into a dict of lists gives the categories in first-seen order, each with its items in order |
| Seqs.StoreEach | src/custom_mcp/youtube_semantic_tools.py:250-266 | storing `d[k] = f(k)` for each id gives the keys in first-seen order, each holding its own value |
| Seqs.StoreAll | src/custom_mcp/youtube_management_tools.py:306-318 | the same loop also counting successes counts every id given, repetitions included |
| Text.SplitCount | src/custom_mcp/youtube_analytics_tools.py:767 | `split(',')` gives one more piece than there are commas |
| Text.JoinSplit | src/custom_mcp/youtube_content_generator.py:218 | joining the pieces of a split with the separator gives back the text |
| Text.SplitJoin | src/custom_mcp/youtube_semantic_tools.py:206 | splitting lines joined with a separator none of them holds gives back the lines |
| Text.StripIdempotent | src/custom_mcp/youtube_content_generator.py:215-218 | stripping twice is stripping once |
| JsonValue.IntOfShownInt | src/custom_mcp/youtube_tools.py:166-168 | `int()` of an integer's decimal text is that integer |
| JsonValue.IntOfDigits | src/custom_mcp/youtube_tools.py:166-168 | `int()` of plain decimal digits is their value |
| JsonValue.IntOfSigned | src/custom_mcp/youtube_tools.py:166-168 | `int()` of a minus sign and decimal digits is the negated value |
| JsonValue.DigitsGrouped | src/custom_mcp/youtube_tools.py:166-168 | plain digits are one group, read unchanged |
| JsonValue.GroupedDigitsRead | src/custom_mcp/youtube_tools.py:166-168 | `int("1_000")` is 1000: single underscores between digits are read past |
| JsonValue.MisplacedUnderscoreRefused | src/custom_mcp/youtube_tools.py:166-168 | a doubled, leading or trailing underscore makes `int()` raise |
| JsonValue.DigitsOf | src/custom_mcp/youtube_tools.py:166-168 | dropping the underscores leaves only digits, and text of digits only is unchanged |

## Left out

- Network, SDK and OAuth calls (httpx, the Slack WebClient, the Google API clients, the Gemini SDK, the transcript API) are oracles given as parameters. Their behaviour and their error texts are not modelled.
- `json.dumps`/`json.loads`, stdout/stderr writes and `flush` are not modelled. Outputs are values appended to a sequence, and decoding is a parameter.
- `KeyboardInterrupt` in the server loop (exit status 0) is not modelled: it comes from outside the input.
- Regular-expression and LLM-output extraction are opaque parameters. This covers the word tokenizer, the `{...}` JSON extraction, the old-chapter-block regex of `add_video_chapters` and the word regex of `_extract_common_words`.
- `datetime.now()`, `random.choice`, `random.randint` and `datetime.fromisoformat` are parameters.
- Floating-point results are not modelled: averages, percentages, growth rates (`_calculate_growth_rates`), `round()`, `_estimate_views`, engagement rates, and the `{:.1f}`/`{:.2f}` insight lines. Numbers are exact integers or reals.
- YoutubeTools.LeadingInsights: only the insights built from integers are modelled (top video, top channel, top keyword). The duration, engagement and view-range lines format floats.
- YoutubeAnalyticsTools.Num: a cell that is not a number reads as 0, where Python's `sum` or `min` would raise.
- YoutubeAnalyticsTools.TrendOf: the ±10% band is compared over exact reals. Float rounding at the band's edges is not modelled.
- Duration: digits are ASCII digits only. Python's `\d` also matches the other Unicode decimal digits (full-width ones among them), and `int()` reads them.
- JsonValue.IntOfString: digits are ASCII digits only. Python's `int()` also reads the other Unicode decimal digits, such as full-width or Arabic-Indic ones; underscores between digits are modelled.
- GeminiAnalyzer: `get_transcript`, `save_results` and `main` are I/O. The per-segment analysis prompt is text sent to the model and is not modelled.
- GeminiAnalyzer.BuildDescriptionLines: the iteration order of the Python set of technical levels is a parameter.
- YoutubeSemanticTools: `analyze_video_transcript_semantic` and `generate_youtube_description_with_chapters` only wrap the analyzer's modelled operations. The order of the set-valued `topics`/`tech_levels` of a batch entry is not modelled.
- YoutubeContentGenerator: the `tone` parameter only changes the prompt text. Content fields of an unexpected JSON type are not modelled.
- YoutubeContentGenerator.GenerateVideoDescription: the prompt built before the `try` is text sent to the model and is not modelled; the transcript steps before it are.
- YoutubeManagementTools: `analyze_video_content_for_optimization`, `generate_youtube_thumbnail_suggestions` and `generate_social_media_content` are left out. Each wraps a modelled generator call in constant advice text. `update_youtube_video_metadata` is `VideoMetadataUpdate`, the generator's update behind the key check. `include_trending` only changes the prompt.
- YoutubeTools.ChannelKey: channel titles are `Json` values, so `1`, `true` and `1.0` would be three channels where Python's dict merges them into one key; the API sends channel titles as strings, where the two agree.
- YoutubeManagementTools.OutcomeFor: the generator's answers are fixed per video id, so a repeated id sees the same answers twice.
- YoutubeAiTools: the public tools (`generate_optimized_titles`, `suggest_next_content`, `analyze_success_patterns`, `optimize_posting_schedule`) fetch data and assemble the modelled helpers. Their API calls and the other helpers that return fixed data or floats are left out. The season is computed but never used in a title.
- YoutubeAiTools.Drafts: the social-proof title uses the corrected figure (see Findings).
- YoutubeAnalyticsTools: the API queries, `_summarize_video_performance` (float thresholds) and the fixed-value helpers (`_get_traffic_sources` and the like) are left out.
- YoutubeChannelTools: `list_my_videos`, the tool wrappers' JSON parsing and `setup_youtube_oauth_tool` are I/O.
- youtube_auth.py, custom_mcp.py (tool registration glue), calculator_tools.py and the calculator_mcp package are not part of this model.

## Findings

| source | as written | input that shows it | evidently intended | confidence | as-written member | corrected member |
|---|---|---|---|---|---|---|
| src/custom_mcp/youtube_ai_tools.py:208-211 | the social-proof title prints `view_count // 1000` followed by 万 (ten thousand) | a video with 50000 views is titled 【50万回再生】, claiming 500,000 views | `view_count // 10000`, as the same template in youtube_channel_tools.py computes it | high (not executed) | YoutubeAiTools.SocialProofOverstated | YoutubeAiTools.SocialProofFigure |
