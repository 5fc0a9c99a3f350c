# Memoh core, modelled in Dafny

Memoh is a self-hosted assistant platform. It has a Go server (per-bot sandboxed
file system over REST, a Discord channel adapter, MCP tool providers) and a
TypeScript side (an agent that drives tools in a container over JSON-RPC, a
Bun/Elysia API with users, settings, models and memory history over Postgres,
a Telegram bot, a CLI and a web console). This project models the
self-contained logic of those parts and proves what that logic promises:

- **Bot-sandbox paths**: cleaning and joining a request path under the bot's root; the errors the handlers return; usage counting and listing; the write and delete rules.
- **Discord helpers**: byte-bounded truncation, MIME extensions, data URLs (base64 decoding), mention detection, attachment collection, and the TTL de-duplication cache.
- **MCP envelopes**: tool-call requests, result and error extraction, the contacts and web-search providers.
- **The agent's container client**: request ids, tool-result decoding, grep arguments, file listing, append and copy.
- **Memory history**: the owner-scoped paginated listing and the inclusive time-range filter.
- **Table services**: settings, models and users, as classes over maps keyed by primary key.
- **Request validators**: the zod schemas.
- **Telegram storage**: the Redis key scheme and the reverse lookup from a user id back to a Telegram id.
- **Small helpers**: the search-provider icon lookup and two CLI helpers.

One module per source file, plus shared helper modules:
- `Wrappers`: Option and Result.
- `Text`: Go and JavaScript trimming, ASCII case, split and join, UTF-16 length, decimal rendering.
- `Json`: dynamic values.
- `Paths`: Go's lexical `path/filepath` on '/'.
- `Base64`: Go's `StdEncoding`.
- `Zod`: the validator building blocks.

The file system, the clock, random ids, password hashing, Redis, HTTP and the
database are parameters or in-memory maps.

Stateful parts are classes whose methods state the new state in terms of the old:
- the JSON-RPC client;
- the remote file store;
- the Discord adapter's maps;
- the settings, model and user tables;
- Redis and the Telegram token storage.

Loops of the source are methods proved against a specification function:
- the usage walk;
- the list loops;
- contact projection;
- attachment collection;
- grep arguments;
- the Redis scan.

The database has no `maxContextLoadTime` or `language` columns in the settings
table shown (packages/db/src/settings.ts), although user creation writes them.
The model keeps the two fields in the settings row, as user creation writes them.

## Model

| member | source | states |
|---|---|---|
| Paths.ParseWellFormed | internal/handlers/fs_rest.go:528 | every cleaned path is well formed: a rooted path has no "..", and a relative path has ".." only at its start |
| Paths.CleanIdempotent | internal/handlers/fs_rest.go:528 | cleaning a cleaned path changes nothing |
| Paths.CleanEqIff | internal/handlers/fs_rest.go:528 | two paths clean to the same string exactly when they have the same elements |
| Paths.ParseRender | internal/handlers/fs_rest.go:528 | rendering a well-formed clean path and parsing it back gives the same path |
| Paths.JoinDescends | internal/handlers/fs_rest.go:538 | joining a clean descending path under a root appends its elements to the root's elements |
| Paths.RelOfJoin | internal/handlers/fs_rest.go:538-539 | Rel(root, Join(root, c)) is c for every clean descending c |
| Paths.CleanedRelativeDescends | internal/handlers/fs_rest.go:528-537 | a cleaned path that is not ".", not absolute and does not start with ".." names only ordinary children |
| FsRest.ResolveBlank | internal/handlers/fs_rest.go:521-527 | a blank request path gives (root, ".") when the root is allowed and ErrInvalid otherwise |
| FsRest.ResolveBotPath | internal/handlers/fs_rest.go:520-544 | every failure of path resolution is ErrInvalid |
| FsRest.ResolveDotIsBlank | internal/handlers/fs_rest.go:528-534 | a path that cleans to "." is treated exactly like a blank path |
| FsRest.ResolveRejectsEscapes | internal/handlers/fs_rest.go:535-537 | a cleaned path that is absolute or textually starts with ".." is rejected with ErrInvalid |
| FsRest.ResolveRejectsDotDotName | internal/handlers/fs_rest.go:535-537 | the child name "..foo" is rejected too, because the check is textual |
| FsRest.ResolveRelCheckUnreachable | internal/handlers/fs_rest.go:538-542 | once the earlier guards pass, Rel gives back the cleaned path, so the check after Rel never fires |
| FsRest.ResolveContained | internal/handlers/fs_rest.go:520-544 | a resolved path is the root (only when allowed), or the root's elements followed by the cleaned request's ordinary names; the reported relative path never starts with ".." |
| FsRest.ResolveNotRootUnlessAllowed | internal/handlers/fs_rest.go:483-489 | without allowRoot the resolved path is strictly below the root and its relative path is neither "." nor "" |
| FsRest.EntryForBotPathAsWritten | internal/handlers/fs_rest.go:546-564 | as written: an entry that is produced never has a relative path starting with "..", and keeps the info's kind and size |
| FsRest.EntryForBotPath | internal/handlers/fs_rest.go:546-564 | with the intended check: an entry that is produced never has a relative path leaving the root, and keeps the info's kind and size |
| FsRest.EntryForJoinedAsWritten | internal/handlers/fs_rest.go:546-564 | as written, the entry of a clean descending path joined under the root is named by that path, unless the path starts with "..", which is ErrInvalid |
| FsRest.EntryForRoot | internal/handlers/fs_rest.go:554-556 | the root's own entry has the empty path |
| FsRest.EntryRejectsEscape | internal/handlers/fs_rest.go:546-553 | a target whose relative path leaves the root is rejected with ErrInvalid |
| FsRest.EntryForJoined | internal/handlers/fs_rest.go:546-564 | the entry of a path joined under the root is named by that path |
| FsRest.DescendsNotEscaping | internal/handlers/fs_rest.go:551-553 | a clean descending path neither leaves the root nor is "." |
| FsRest.AsWrittenRejectsDotDotChild | internal/handlers/fs_rest.go:551-553 | as written, the entry for a child named "..foo" fails with ErrInvalid; the corrected rule accepts it |
| FsRest.FsHttpError | internal/handlers/fs_rest.go:574-585 | nil stays nil; ErrInvalid is 400 "invalid path"; not-exist is 404 "path not found"; any other error is 500 with its message |
| FsRest.ResolveErrorsAre400 | internal/handlers/fs_rest.go:574-580 | every path-resolution failure reaches the client as 400 "invalid path" |
| FsRest.ParseBoolQuery | internal/handlers/fs_rest.go:566-572 | a blank parameter is false; after trimming, strconv.ParseBool's true and false words give true and false; anything else is a syntax error naming the input |
| FsRest.ParseBoolMessageQuotesInput | internal/handlers/fs_rest.go:566-572 | the syntax error reads "strconv.ParseBool: parsing " + the Go-quoted trimmed input + ": invalid syntax", and the quoted part unquotes back to the input |
| FsRest.ParseFormatBool | internal/handlers/fs_rest.go:566-572 | a formatted boolean, padded with any whitespace, parses back to itself |
| FsRest.UsageFoldAppend | internal/handlers/fs_rest.go:270-288 | the walk over two parts is the walk over the first, continued with the second |
| FsRest.UsageFoldCounts | internal/handlers/fs_rest.go:266-295 | a completed walk adds to the running totals exactly the visited directories other than the target, the visited files, and the sum of those files' sizes; together they count every visited entry except the target once |
| FsRest.WalkUsage | internal/handlers/fs_rest.go:270-288 | the callback loop computes the usage fold: directories counted, files counted with their sizes added, the first error returned |
| FsRest.ListedPath | internal/handlers/fs_rest.go:297-300 | the reported path is "." for a blank or "." relative path, and the trimmed relative path otherwise |
| FsRest.UsageFS | internal/handlers/fs_rest.go:257-306 | resolution and stat errors go through fsHTTPError; a file counts as one file of its own size; a directory gives the walk's totals |
| FsRest.NameDescends | internal/handlers/fs_rest.go:140 | a directory entry name is a clean descending path |
| FsRest.DirEntryFor | internal/handlers/fs_rest.go:131-146 | a failed Info of a directory entry is passed on; a produced entry keeps the kind and its path never starts with ".." |
| FsRest.ListDirFold | internal/handlers/fs_rest.go:131-146 | a successful listing has one entry per directory entry, each the entry of that directory entry, in order |
| FsRest.ListDirFoldErr | internal/handlers/fs_rest.go:131-146 | the listing fails exactly when some directory entry fails, and then with that entry's error |
| FsRest.ListWalkFold | internal/handlers/fs_rest.go:112-129 | a successful walk listing has one entry per visited path other than the target, none with a path starting with ".." |
| FsRest.ListRootNames | internal/handlers/fs_rest.go:131-146 | as written, listing the root succeeds exactly when no entry name starts with "..", and fails with ErrInvalid otherwise; on success each entry is named by its own name and keeps its kind, in order |
| FsRest.ListDir | internal/handlers/fs_rest.go:135-146 | the ReadDir loop computes the listing fold with the as-written entry rule: one entry per directory entry, in order, stopping at the first error |
| FsRest.ListWalk | internal/handlers/fs_rest.go:112-129 | the walk callback computes the walk-listing fold with the as-written entry rule: one entry per walked path other than the target, in order |
| FsRest.ListFS | internal/handlers/fs_rest.go:94-156 | a bad recursive flag is 400 with strconv.ParseBool's message quoting the trimmed flag; a non-directory is 400 "path is not a directory"; otherwise it returns the listed path and the entries of the chosen listing under the as-written entry rule, with errors mapped by fsHTTPError |
| FsRest.WriteConflictIff | internal/handlers/fs_rest.go:340-346 | a write is refused with 409 exactly when the file exists and overwrite was explicitly false |
| FsRest.WriteOverwriteDefault | internal/handlers/fs_rest.go:340-343 | leaving out overwrite is the same as asking to overwrite |
| FsRest.ResolvedBelowRoot | internal/handlers/fs_rest.go:483-489 | a path that resolves without allowing the root is not the root and its elements strictly extend the root's |
| FsRest.DeleteAction | internal/handlers/fs_rest.go:483-500 | a removal targets the resolved path, and a recursive removal happens only when the recursive flag parsed as true |
| FsRest.DeleteResolved | internal/handlers/fs_rest.go:487-500 | the root is refused exactly when the relative path is "." or empty; whatever is removed is the resolved target |
| FsRest.DeleteNeverRoot | internal/handlers/fs_rest.go:483-500 | DeleteFS never answers "refuse to delete root", and whatever it removes lies strictly below the root |
| Base64.SextetOfAlphabet | internal/channel/adapters/discord/discord.go:383 | the standard alphabet and its inverse agree, in one direction |
| Base64.AlphabetOfSextet | internal/channel/adapters/discord/discord.go:383 | the standard alphabet and its inverse agree, in the other direction |
| Base64.StripNewlines | internal/channel/adapters/discord/discord.go:383 | the decoder's view of the input holds no carriage return or line feed |
| Base64.LineBreaksIgnored | internal/channel/adapters/discord/discord.go:383 | a line break inserted anywhere does not change what the input decodes to |
| Base64.Encode | internal/channel/adapters/discord/discord.go:383 | encoding gives whole padded quanta without line breaks |
| Base64.DecodeEncode | internal/channel/adapters/discord/discord.go:383 | decoding an encoding gives the bytes back |
| Base64.DecodedLength | internal/channel/adapters/discord/discord.go:383 | decodable input is a whole number of quanta, and it gives at most three bytes per quantum |
| Base64.DecodeHello | internal/channel/adapters/discord/discord_test.go:32-47 | "SGVsbG8=" decodes to "Hello" |
| Discord.Truncate | internal/channel/adapters/discord/discord.go:308-314 | the output has at most 2000 bytes; input that fits is unchanged; longer input becomes its first 1997 bytes followed by "..." |
| Discord.TruncateIdempotent | internal/channel/adapters/discord/discord.go:308-314 | truncating twice is truncating once |
| Discord.TruncateUnchangedIff | internal/channel/adapters/discord/discord.go:308-314 | text is left alone exactly when it has at most 2000 bytes |
| Discord.MimeExtension | internal/channel/adapters/discord/discord.go:387-414 | the result is "" or a dotted extension |
| Discord.MimeExtensionIsTable | internal/channel/adapters/discord/discord.go:387-414 | the lookup agrees with an independent table, and every type outside it gives "" |
| Discord.MimeExtensionCases | internal/channel/adapters/discord/discord_test.go:8-30 | jpeg and jpg share ".jpg", mpeg and mp3 share ".mp3", the listed cases hold, and an unknown type gives "" |
| Discord.AttachmentName | internal/channel/adapters/discord/discord.go:319-326 | a given name is kept; an empty name becomes "attachment" followed by the MIME extension |
| Discord.FirstComma | internal/channel/adapters/discord/discord.go:379 | the index of the first comma, or none exactly when there is no comma |
| Discord.DataUrlBytes | internal/channel/adapters/discord/discord.go:378-384 | a URL without a comma is "invalid data URL" |
| Discord.DataUrlSplit | internal/channel/adapters/discord/discord.go:379-383 | everything after the first comma is decoded as standard base64, whatever follows it |
| Discord.DataUrlRoundTrip | internal/channel/adapters/discord/discord.go:378-384 | a data URL built from a comma-free header and encoded bytes yields those bytes |
| Discord.DataUrlHello | internal/channel/adapters/discord/discord_test.go:32-47 | "data:text/plain;base64,SGVsbG8=" decodes to "Hello" |
| Discord.DataUrlInvalid | internal/channel/adapters/discord/discord_test.go:32-47 | "invalid" is an invalid data URL |
| Discord.MetadataBotId | internal/channel/adapters/discord/discord.go:331-336 | a non-empty bot id is the string under the metadata key "bot_id" |
| Discord.AttachmentFile | internal/channel/adapters/discord/discord.go:317-375 | the file carries the fallback name; there is no file exactly when no source yields bytes |
| Discord.AttachmentSourcePriority | internal/channel/adapters/discord/discord.go:338-365 | stored bytes win over inline data, and inline data wins over the URL |
| Discord.InlineAttachmentSent | internal/channel/adapters/discord/discord.go:349-355 | an attachment with a valid inline data URL and nothing stored is sent with the encoded bytes |
| Discord.FilesOf | internal/channel/adapters/discord/discord.go:283-291 | at most one file per attachment |
| Discord.PrepareSend | internal/channel/adapters/discord/discord.go:267-302 | the files are the attachments that convert; the content is the truncated text, or U+200B for a files-only message; with neither content nor files the error is "cannot send empty message: no content and no valid attachments" |
| Discord.SendContent | internal/channel/adapters/discord/discord.go:293-296 | the content is within the limit; it is the truncated text when there is text, U+200B for files only, and empty only when there is nothing to send |
| Discord.SentContentNonEmpty | internal/channel/adapters/discord/discord.go:293-302 | a message that is sent always has non-empty content within the limit |
| Discord.IsBotMentioned | internal/channel/adapters/discord/discord.go:557-577 | a nil message is never a mention; a mention of the bot id or @everyone is one; otherwise it is one exactly when the lower-cased content contains either tag |
| Discord.MentionedIn | internal/channel/adapters/discord/discord.go:562-566 | the mention loop finds the bot exactly when its id is in the list |
| Discord.ContentMentionDetected | internal/channel/adapters/discord/discord.go:572-576 | content that spells the mention tag in any ASCII case mentions the bot |
| Discord.PlainMessageNotMentioned | internal/channel/adapters/discord/discord.go:557-577 | without mentions, @everyone or a '<' in the content, the bot is not mentioned |
| Discord.AttachmentOf | internal/channel/adapters/discord/discord.go:529-549 | the kind is image, video or audio exactly by content-type prefix, and file otherwise; width and height are copied for images only; the other fields are copied |
| Discord.CollectAttachments | internal/channel/adapters/discord/discord.go:522-555 | no message gives nothing; otherwise one converted attachment per input, in order |
| Discord.Live | internal/channel/adapters/discord/discord.go:590-594 | eviction keeps exactly the entries recorded no earlier than the cutoff |
| Discord.Dedup | internal/channel/adapters/discord/discord.go:579-602 | a blank token or message id is not a duplicate and leaves the cache alone; otherwise the answer is whether the key survives eviction, and only that key can be added |
| Discord.RepeatWithinTtlIsDuplicate | internal/channel/adapters/discord/discord.go:584-601 | a message accepted once is a duplicate when it arrives again within the TTL |
| Discord.FirstSightingRecorded | internal/channel/adapters/discord/discord.go:596-601 | a fresh sighting is not a duplicate and is recorded at the current time |
| Discord.RepeatAfterTtlAccepted | internal/channel/adapters/discord/discord.go:584-601 | once the TTL has passed, the same message is accepted again |
| Discord.Adapter.constructor | internal/channel/adapters/discord/discord.go:37-47 | a new adapter has no sessions, no handler removers and no seen messages |
| Discord.Adapter.EvictExpired | internal/channel/adapters/discord/discord.go:590-594 | the cache afterwards holds exactly the entries seen at or after the cutoff |
| Discord.Adapter.IsDuplicateInbound | internal/channel/adapters/discord/discord.go:579-602 | the method's answer and new cache are Dedup's; the other maps are unchanged |
| Discord.Adapter.SwapHandlerRemover | internal/channel/adapters/discord/discord.go:604-611 | the previous remover for the token runs, then the new one is stored |
| Discord.Adapter.ClearSessionState | internal/channel/adapters/discord/discord.go:613-620 | the token's handler and session are removed, and its remover is returned |
| Discord.Adapter.GetOrCreateSession | internal/channel/adapters/discord/discord.go:103-127 | a cached session is returned; otherwise a new "Bot "+token session is stored, unless creation fails |
| Discord.SwapTwice | internal/channel/adapters/discord/discord.go:604-611 | two swaps on a token call the first remover exactly once |
| Mcp.NewToolCallRequest | internal/mcp/service.go:28-43 | version "2.0", method "tools/call", params exactly {name, arguments} with a nil argument map as null, and an id that unquotes to the given id |
| Mcp.RawStringID | internal/mcp/service.go:45-47 | the id is written as a double-quoted string literal |
| Mcp.Unquote | internal/mcp/service.go:45-47 | a decoded literal comes from a string of at least two characters that opens and closes with a double quote, and is no longer than its body |
| Mcp.QuoteBodyRoundTrip | internal/mcp/service.go:45-47 | unescaping the quoted body of any string gives the string back |
| Mcp.QuoteRoundTrip | internal/mcp/service.go:45-47 | unquoting RawStringID(id) gives id back for every id |
| Mcp.PayloadError | internal/mcp/service.go:49-60 | a nil payload is "empty payload"; otherwise an error exists iff the payload has an "error" object; an error message is never empty |
| Mcp.PayloadErrorMessage | internal/mcp/service.go:53-58 | a non-empty string message is returned as is; a missing, non-string or empty message becomes "mcp error" |
| Mcp.ContentText | internal/mcp/service.go:94-105 | a non-empty text comes from the "text" string of the first object in a non-empty "content" array |
| Mcp.ContentTextOfTextBlock | internal/mcp/service.go:94-105 | a content array whose first block is a text block yields that block's text, whatever follows |
| Mcp.ResultError | internal/mcp/service.go:62-75 | an error exists iff the result object has isError true; its message is the content text when non-empty, and is never empty |
| Mcp.ResultErrorDefault | internal/mcp/service.go:67-74 | an error result without text is "mcp tool error"; without isError true there is no error |
| Mcp.StructuredContent | internal/mcp/service.go:77-92 | no result object is "missing result"; a structuredContent object wins; the only other errors are "missing structured content" |
| Mcp.StructuredFromText | internal/mcp/service.go:85-89 | without structuredContent, content text that decodes to an object gives that object |
| Contacts.ListTools | internal/mcp/providers/contacts/provider.go:31-51 | no tools without the route service; otherwise one get_contacts tool whose schema has properties and no required field |
| Contacts.NonEmptyAt | internal/mcp/providers/contacts/provider.go:88-95 | a metadata value counts iff it is a non-empty string |
| Contacts.DisplayName | internal/mcp/providers/contacts/provider.go:88-92 | conversation_name wins when set; otherwise sender_display_name |
| Contacts.Entry | internal/mcp/providers/contacts/provider.go:79-97 | the six route fields always; metadata, display_name and username only with non-empty metadata, each with its value; no other keys |
| Contacts.EntryWithoutMetadata | internal/mcp/providers/contacts/provider.go:87 | a route without metadata has only the six base keys |
| Contacts.Selected | internal/mcp/providers/contacts/provider.go:75-78 | filtering never adds routes |
| Contacts.SelectedMembership | internal/mcp/providers/contacts/provider.go:75-78 | a route is kept iff it is in the list and passes the platform filter |
| Contacts.SelectedAppend | internal/mcp/providers/contacts/provider.go:75-78 | filtering distributes over concatenation, so order is kept |
| Contacts.SelectedUnfiltered | internal/mcp/providers/contacts/provider.go:76 | an empty filter keeps every route |
| Contacts.FilterFromArgument | internal/mcp/providers/contacts/provider.go:72-76 | a route is kept iff the trimmed platform argument is empty or equals the route's platform ignoring case |
| Contacts.Entries | internal/mcp/providers/contacts/provider.go:74-99 | one entry per route, in order |
| Contacts.EntriesStep | internal/mcp/providers/contacts/provider.go:75-97 | one more route adds its entry at the end exactly when the filter keeps it |
| Contacts.CollectContacts | internal/mcp/providers/contacts/provider.go:74-99 | the loop's contacts are the entries of the routes the filter keeps, in order |
| Contacts.CallTool | internal/mcp/providers/contacts/provider.go:53-108 | unknown tool is ErrToolNotFound; no service and a blank bot id give their error results; otherwise the payload of the filtered routes' entries, or the listing error |
| Contacts.Payload | internal/mcp/providers/contacts/provider.go:101-106 | exactly ok true, the bot id, the count and the contacts |
| WebSearch.ListTools | internal/mcp/providers/web/provider.go:41-59 | no tools without both services; otherwise one web_search tool requiring "query" |
| WebSearch.StringValue | internal/mcp/providers/web/provider.go:394-399 | a string is trimmed; anything else is "" |
| WebSearch.StringValueTrimmed | internal/mcp/providers/web/provider.go:394-399 | the result is already trimmed |
| WebSearch.FirstIndex | internal/mcp/providers/web/provider.go:401-408 | the index found, if any, is in range |
| WebSearch.FirstIndexIsFirst | internal/mcp/providers/web/provider.go:401-408 | none iff no value is wanted; otherwise the value at the index is wanted and every earlier one is not |
| WebSearch.FirstNonBlankIsFirst | internal/mcp/providers/web/provider.go:401-408 | none iff all values are blank; otherwise the index holds a non-blank value and every earlier value is blank |
| WebSearch.FirstNonEmpty | internal/mcp/providers/web/provider.go:401-408 | "" iff all values are blank; otherwise the trimmed first non-blank value |
| WebSearch.ConfiguredEndpointWins | internal/mcp/providers/web/provider.go:121 | a non-blank configured base_url is used over the default endpoint |
| WebSearch.ProviderNamed | internal/mcp/providers/web/provider.go:105-116 | each of the four providers is chosen iff the trimmed name is its own |
| WebSearch.CountFor | internal/mcp/providers/web/provider.go:95-103 | the resolved count is always in 1..20 |
| WebSearch.ResolveCount | internal/mcp/providers/web/provider.go:95-103 | an argument error is passed on; the count is in 1..20, 5 when absent or not positive, the argument capped at 20 otherwise |
| WebSearch.KeyedHeaders | internal/mcp/providers/web/provider.go:137-141 | Accept is application/json; the key header is present iff the trimmed key is non-empty, and holds it |
| WebSearch.KeyHeader | internal/mcp/providers/web/provider.go:140 | the key header is never Accept, so the key cannot replace the JSON Accept header |
| WebSearch.KeyedGetRequest | internal/mcp/providers/web/provider.go:119-141 | a GET to the given endpoint whose query is exactly {q, count} and whose headers are the keyed headers above |
| WebSearch.GoogleQuery | internal/mcp/providers/web/provider.go:252-261 | the parameters are q, cx, num capped at 10, and key exactly when the trimmed key is non-empty, holding it |
| WebSearch.GoogleRequest | internal/mcp/providers/web/provider.go:241-262 | a blank cx gives the cx error result; otherwise a GET to the given endpoint with the parameters above |
| WebSearch.TavilyRequest | internal/mcp/providers/web/provider.go:308-327 | a blank api key gives the key error result; otherwise a POST with body exactly {query, max_results} and an Authorization header |
| WebSearch.BuildRequest | internal/mcp/providers/web/provider.go:105-116 | a sent request goes to the provider's endpoint and carries that provider's method, query parameters (q and count, or the Google parameters), keyed headers or Tavily body and Authorization header for the given query and count; an error result is given exactly for Google without cx and Tavily without an api key |
| WebSearch.CallWebSearch | internal/mcp/providers/web/provider.go:90-117 | a blank query and a count error give their error results; an unknown provider is unsupported; otherwise the Google cx error or the Tavily key error is given exactly when that provider lacks it, and a sent request goes to the named provider carrying the trimmed query and the resolved count (the whole case split is SearchOutcome) |
| WebSearch.CallTool | internal/mcp/providers/web/provider.go:61-88 | missing services, a blank bot id, a failed bot lookup, a blank provider id and a failed provider lookup give their error results, in that order; past them an unknown tool is not found, and web_search answers exactly what callWebSearch answers for the bot's provider row (SearchOutcome: query, count, provider and cx/key errors, or the request carrying the trimmed query and the resolved count) |
| WebSearch.SearchResult | internal/mcp/providers/web/provider.go:142-177 | a transport error passes its message; a non-2xx status is "search request failed"; an undecodable body is "invalid search response"; success carries the query and one result per item, in order |
| ContainerClient.NumberedIncreasing | agent/src/utils/container.ts:101-111 | the ids of requests sent by one client strictly increase |
| ContainerClient.CallOutcome | agent/src/utils/container.ts:124-136 | a failed fetch, a non-ok status and a JSON-RPC error each fail; the call succeeds iff none happens, with the response's result |
| ContainerClient.RpcClient.constructor | agent/src/utils/container.ts:100-106 | a new client has sent nothing |
| ContainerClient.RpcClient.Call | agent/src/utils/container.ts:108-137 | the counter is pre-incremented, the request with that id is appended to what was sent, and the outcome is that of its reply |
| ContainerClient.TwoCalls | agent/src/utils/container.ts:111 | two calls in a row carry consecutive ids |
| ContainerClient.FirstText | agent/src/utils/container.ts:150-154 | a text comes from the first block of the result's content array |
| ContainerClient.DecodeToolResult | agent/src/utils/container.ts:143-164 | an error result fails with its text or "Tool execution failed"; a truthy text gives its parsed JSON or the text itself; otherwise "No result content returned" |
| ContainerClient.PlainTextResult | agent/src/utils/container.ts:154-160 | a text that is not JSON is returned as a string |
| ContainerClient.SearchArgs | agent/src/utils/container.ts:275-278 | "-r" first; "-i" iff case-insensitive, "-n" iff line numbers, "-l" iff files only, in that order |
| ContainerClient.TrimmedNonEmpty | agent/src/utils/container.ts:287-289 | never longer than its input |
| ContainerClient.TrimmedNonEmptyClean | agent/src/utils/container.ts:287-289 | every kept line is non-empty and trimmed |
| ContainerClient.TrimmedNonEmptyFree | agent/src/utils/container.ts:287-289 | a character absent from every line stays absent |
| ContainerClient.TrimmedNonEmptyKeeps | agent/src/utils/container.ts:287-289 | already-clean lines are kept as they are |
| ContainerClient.TrimmedNonEmptyAppend | agent/src/utils/container.ts:287-289 | the cleanup distributes over concatenation |
| ContainerClient.FindFiles | agent/src/utils/container.ts:284-290 | every path is non-empty, trimmed and free of newlines |
| ContainerClient.FindFilesOfGrepOutput | agent/src/utils/container.ts:284-290 | newline-terminated grep -l output of clean paths gives exactly those paths back |
| ContainerClient.Appended | agent/src/utils/container.ts:241-248 | a missing path gets the content; a file gets its content followed by the new one; a directory is an error |
| ContainerClient.AppendTwice | agent/src/utils/container.ts:241-248 | appending a then b is appending a + b |
| ContainerClient.RemoteFs.constructor | agent/src/utils/container.ts:167-168 | the tree starts as given |
| ContainerClient.RemoteFs.Stat | agent/src/utils/container.ts:191-194 | succeeds iff the path exists, reporting whether it is a directory |
| ContainerClient.RemoteFs.Read | agent/src/utils/container.ts:170-173 | succeeds iff the path is a file, with its content |
| ContainerClient.RemoteFs.Write | agent/src/utils/container.ts:179-185 | the path becomes a file with the content, nothing else changes |
| ContainerClient.RemoteFs.Exists | agent/src/utils/container.ts:222-229 | true iff stat succeeds, that is iff the path exists |
| ContainerClient.RemoteFs.Append | agent/src/utils/container.ts:241-248 | the new tree is Appended of the old one; on error the tree is unchanged |
| ContainerClient.RemoteFs.Copy | agent/src/utils/container.ts:250-257 | a missing source and a directory source fail without change; a file source is copied to the destination, nothing else changes |
| MemoryMessages.Insert | packages/api/src/modules/memory/message/service.ts:17 | inserting adds exactly the one row |
| MemoryMessages.InsertOrdered | packages/api/src/modules/memory/message/service.ts:17 | inserting into an ordered sequence keeps it ordered |
| MemoryMessages.Sort | packages/api/src/modules/memory/message/service.ts:17 | sorting is a permutation |
| MemoryMessages.SortOrdered | packages/api/src/modules/memory/message/service.ts:17 | the sorted rows are in timestamp order |
| MemoryMessages.Where | packages/api/src/modules/memory/message/service.ts:16 | every kept row passes the condition, and each passing row is kept as often as it occurs |
| MemoryMessages.ListingPermutation | packages/api/src/modules/memory/message/service.ts:13-17 | the listing holds exactly the user's rows, each with its multiplicity |
| MemoryMessages.ListingOwned | packages/api/src/modules/memory/message/service.ts:16 | every listed row belongs to the user |
| MemoryMessages.ListingOrdered | packages/api/src/modules/memory/message/service.ts:17 | the listing is newest first |
| MemoryMessages.Window | packages/api/src/modules/memory/message/service.ts:18-19 | at most limit rows, the ones starting at the offset, in order |
| MemoryMessages.MemoryMessages | packages/api/src/modules/memory/message/service.ts:5-22 | fails iff the limit or the offset (page-1)*limit is negative; otherwise at most limit rows |
| MemoryMessages.Offset | packages/api/src/modules/memory/message/service.ts:19 | from page 1 on the offset is non-negative and page p ends at p*limit |
| MemoryMessages.PageRows | packages/api/src/modules/memory/message/service.ts:13-19 | row i of a page is row offset+i of the user's newest-first listing |
| MemoryMessages.WindowOrdered | packages/api/src/modules/memory/message/service.ts:17-19 | a window of an ordered sequence is ordered |
| MemoryMessages.PageOrdered | packages/api/src/modules/memory/message/service.ts:17-19 | every page is newest first |
| MemoryMessages.PageZeroRefused | packages/api/src/modules/memory/message/service.ts:19 | page 0 with a positive limit gives a negative offset and is refused |
| MemoryMessages.WindowsArePrefix | packages/api/src/modules/memory/message/service.ts:18-19 | consecutive windows concatenate to a prefix |
| MemoryMessages.PagesAreWindows | packages/api/src/modules/memory/message/service.ts:13-19 | the first count pages are the first count windows of the listing |
| MemoryMessages.PagesArePrefix | packages/api/src/modules/memory/message/service.ts:13-19 | reading pages 1..count in turn gives the first count*limit rows of the listing, with no gap and no repeat |
| MemoryMessages.MemoryMessagesFilter | packages/api/src/modules/memory/message/service.ts:24-43 | exactly the user's rows with from <= timestamp <= to, each with its multiplicity, oldest first |
| MemoryMessages.FilterSound | packages/api/src/modules/memory/message/service.ts:35-39 | every returned row is in range and the user's |
| MemoryMessages.FilterComplete | packages/api/src/modules/memory/message/service.ts:35-39 | every row of the user in range is returned |
| MemoryMessages.EmptyRange | packages/api/src/modules/memory/message/service.ts:36-37 | from after to returns nothing |
| SettingsService.OrNull | packages/api/src/modules/settings/service.ts:19-21 | an id is stored iff it is given and non-empty (`\|\| null`) |
| SettingsService.Patch | packages/api/src/modules/settings/service.ts:34-36 | an absent field keeps the column, null clears it, a value sets it |
| SettingsService.NewRow | packages/api/src/modules/settings/service.ts:14-25 | the row is the user's, its ids are OrNull of the given ones, and the overrides are unset |
| SettingsService.Patched | packages/api/src/modules/settings/service.ts:27-41 | only the three model ids change, each as Patch says |
| SettingsService.PatchNothing | packages/api/src/modules/settings/service.ts:33-37 | an empty update leaves the row as it was |
| SettingsService.PatchIdempotent | packages/api/src/modules/settings/service.ts:27-41 | applying the same update twice is applying it once |
| SettingsService.InsertAgreesWithPatch | packages/api/src/modules/settings/service.ts:43-62 | without empty-string ids, inserting is patching an empty row |
| SettingsService.SettingsTable.constructor | packages/api/src/modules/settings/service.ts:1-4 | the table starts empty |
| SettingsService.SettingsTable.Get | packages/api/src/modules/settings/service.ts:6-12 | the user's row iff one exists |
| SettingsService.SettingsTable.Create | packages/api/src/modules/settings/service.ts:14-25 | a second row for a user is a unique-key error and changes nothing; otherwise NewRow is stored |
| SettingsService.SettingsTable.Update | packages/api/src/modules/settings/service.ts:27-41 | no row gives nothing and changes nothing; otherwise the row becomes Patched |
| SettingsService.SettingsTable.Upsert | packages/api/src/modules/settings/service.ts:43-62 | NewRow when there is none, Patched otherwise; the user's row is the result |
| SettingsService.CreateThenUpsert | packages/api/src/modules/settings/service.ts:14-62 | create then upsert leaves one row for the user, the created row patched by the upsert |
| ModelService.ModelTable.constructor | packages/api/src/modules/model/service.ts:1-2 | the table starts empty |
| ModelService.ModelTable.Models | packages/api/src/modules/model/service.ts:7-10 | exactly the stored rows, each with its id |
| ModelService.ModelTable.GetById | packages/api/src/modules/model/service.ts:12-15 | the row with the id iff one exists |
| ModelService.ModelTable.Create | packages/api/src/modules/model/service.ts:17-23 | a taken id is a unique-key error and changes nothing; otherwise the model is stored under the new id and returned |
| ModelService.ModelTable.Update | packages/api/src/modules/model/service.ts:25-32 | a missing id gives nothing and changes nothing; otherwise the model is replaced and returned |
| ModelService.ModelTable.Delete | packages/api/src/modules/model/service.ts:34-40 | a missing id gives nothing; otherwise the row is removed and returned |
| ModelService.DefaultModel | packages/api/src/modules/model/service.ts:42-64 | nothing without settings or with a null or empty column; a result is the model named by the column; a set column naming a stored model always resolves |
| ModelService.DefaultModelReadsOwnColumn | packages/api/src/modules/model/service.ts:42-48 | the chat getter depends only on the chat column |
| ModelService.UpdatedDefaultResolves | packages/api/src/modules/model/service.ts:50-56 | a summary default set by an update resolves to that model |
| ModelService.DeletedModelNotResolved | packages/api/src/modules/model/service.ts:34-64 | a deleted model is nobody's resolved default |
| UserService.View | packages/api/src/modules/user/service.ts:32-50 | the public view carries the row's id, username, email and role, and no password hash |
| UserService.CreatedView | packages/api/src/modules/user/service.ts:92-101 | createUser returns the row's id, username, email, role, displayName, avatarUrl, isActive and createdAt; no hash, update time or login time |
| UserService.NonEmpty | packages/api/src/modules/user/service.ts:86-90 | `\|\| null`: a value is kept iff it is a non-empty string |
| UserService.NewUser | packages/api/src/modules/user/service.ts:79-101 | the username, the hashed password, the role or member, the optional fields as NonEmpty, active, created now |
| UserService.DefaultSettings | packages/api/src/modules/user/service.ts:104-113 | the new user's settings have no model ids, a load time of 60 and the language "Same as user input" |
| UserService.Patched | packages/api/src/modules/user/service.ts:141-147 | id, username, password hash and timestamps except updatedAt are kept; given fields replace the old ones |
| UserService.EmptyUpdateTouchesTime | packages/api/src/modules/user/service.ts:141-147 | an empty update only moves updatedAt |
| UserService.InsertKeepsConsistent | packages/api/src/modules/user/service.ts:55-91 | inserting a user whose username and email are free keeps usernames and emails unique |
| UserService.ReplaceKeepsConsistent | packages/api/src/modules/user/service.ts:121-147 | replacing a user whose email no one else holds keeps them unique |
| UserService.UserTable.constructor | packages/api/src/modules/user/service.ts:1-4 | the table starts empty |
| UserService.UserTable.GetById | packages/api/src/modules/user/service.ts:32-50 | the user's view iff the id exists |
| UserService.UserTable.Update | packages/api/src/modules/user/service.ts:121-162 | a missing user gives null and changes nothing; an email held by another user is refused and changes nothing; otherwise the update succeeds, the row becomes Patched and its view is returned |
| UserService.UserTable.Delete | packages/api/src/modules/user/service.ts:167-183 | a missing user gives null; otherwise the row is removed and its id and username are returned |
| UserService.UserTable.UpdatePassword | packages/api/src/modules/user/service.ts:188-212 | a missing user gives null; otherwise only the hash and updatedAt change |
| UserService.CreateUser | packages/api/src/modules/user/service.ts:55-116 | a taken username or a taken non-empty email is refused and changes nothing; otherwise a clashing user key or settings key is the only failure, and without one the user and its default settings are stored and the eight returned columns are the new row's |
| UserService.RegisterTwice | packages/api/src/modules/user/service.ts:57-64 | once a username is registered, registering it again fails |
| Zod.StringBetween | packages/api/src/modules/user/model.ts:8-10 | a string is accepted iff its UTF-16 length is within the bounds, and kept as is |
| Zod.AnyString | packages/api/src/modules/settings/model.ts:8 | exactly the strings are accepted, unchanged |
| Zod.IntBetween | packages/api/src/modules/settings/model.ts:7 | exactly the integral numbers within the bounds are accepted |
| Zod.PositiveInt | packages/api/src/modules/model/model.ts:19 | exactly the positive integral numbers are accepted |
| Zod.Optional | packages/api/src/modules/settings/model.ts:4-8 | an absent key is accepted as nothing; a present value must pass the inner check |
| Zod.Required | packages/api/src/modules/memory/model.ts:5-7 | the key must be present and its value pass the inner check |
| Zod.SampleUuid | packages/api/src/modules/user/model.ts:36 | a well-formed UUID is accepted |
| Zod.UuidCharacters | packages/api/src/modules/user/model.ts:36 | a character that is neither a hyphen nor a hex digit rules a UUID out |
| Zod.OneOf | packages/api/src/modules/user/model.ts:4 | exactly the listed strings are accepted |
| ModelSchema.ParseBase | packages/api/src/modules/model/model.ts:3-9 | accepted iff modelId and apiKey are non-empty strings and baseUrl, clientType (and name if present) are strings |
| ModelSchema.ParseChat | packages/api/src/modules/model/model.ts:12-14 | accepted iff the base fields are valid and type is absent or "chat"; the output is the body's modelId, baseUrl, apiKey, clientType and name, with type chat and no dimensions |
| ModelSchema.ParseEmbedding | packages/api/src/modules/model/model.ts:17-20 | accepted iff the base fields are valid, type is "embedding" and dimensions a positive integer; the output is the body's fields, with type embedding and the body's dimensions |
| ModelSchema.ParseModel | packages/api/src/modules/model/model.ts:23 | accepted iff either branch accepts; a body the chat branch accepts gives the chat model of its fields, any other accepted body the embedding model of its fields and dimensions; modelId and apiKey are non-empty and embedding dimensions positive |
| ModelSchema.TypeDefaultsToChat | packages/api/src/modules/model/model.ts:13 | a valid body without type is a chat model |
| ModelSchema.EmbeddingNeedsDimensions | packages/api/src/modules/model/model.ts:17-20 | an embedding body without dimensions is refused |
| ModelSchema.NameOnlyRejected | packages/api/test/model.test.ts:61-71 | a body with only a name is refused |
| UserSchema.ParseRole | packages/api/src/modules/user/model.ts:4 | exactly "admin" and "member" are roles |
| UserSchema.ParseCreateUser | packages/api/src/modules/user/model.ts:7-14 | accepted iff the create rules hold; the username, password, email, displayName and avatarUrl are the body's; the role is admin iff the body says "admin", and member otherwise, including when absent; the username is 3..50 long and a given email passes the format |
| UserSchema.ParseUpdateUser | packages/api/src/modules/user/model.ts:17-23 | accepted iff the update rules hold; email, displayName, avatarUrl and isActive are the body's values, absent when the key is; the role is the parsed role when present; isActive is "true" or "false" |
| UserSchema.EmptyUpdateAccepted | packages/api/src/modules/user/model.ts:17-23 | an empty update body is accepted and changes nothing |
| UserSchema.ParsePassword | packages/api/src/modules/user/model.ts:26-28 | accepted iff password is a string of at least 6, kept as is |
| UserSchema.PasswordRuleShared | packages/api/src/modules/user/model.ts:10 | a password accepted at creation is accepted by the password update |
| UserSchema.ParseUserId | packages/api/src/modules/user/model.ts:34-38 | the id parameter is accepted iff it is a UUID |
| UserSchema.ShortPasswordRejected | packages/api/src/modules/user/model.ts:27 | a five-character password is refused |
| SettingsSchema.ParseModelId | packages/api/src/modules/settings/model.ts:4-6 | absent stays absent, null clears, a UUID string is given; anything else is refused |
| SettingsSchema.ParseSettings | packages/api/src/modules/settings/model.ts:3-9 | accepted iff every field is valid; each model id is the body's (absent, null or the given UUID); the load time is the body's number, within 1..1440, absent iff the key is; the language is the body's string |
| SettingsSchema.EmptyBodyAccepted | packages/api/src/modules/settings/model.ts:3-9 | an empty body asks for no change |
| SettingsSchema.NonUuidRejected | packages/api/test/settings.test.ts:53-63 | "invalid-uuid" as a model id is refused |
| SettingsSchema.AcceptedBodyKeepsIdsWellFormed | packages/api/src/modules/settings/service.ts:14-41 | rows created or updated from accepted bodies only hold UUID model ids |
| AgentSchema.ParseAgentStream | packages/api/src/modules/agent/model.ts:3-10 | accepted iff the body is valid; the message is the body's and non-empty; the load time is the body's number within 1..1440, absent iff the key is; the language is the body's string |
| AgentSchema.EmptyMessageRejected | packages/api/src/modules/agent/model.ts:5 | an empty message is refused whatever else the body holds |
| AgentSchema.LoadTimeRuleShared | packages/api/src/modules/agent/model.ts:7 | the agent override accepts a load time iff the settings body does |
| MemorySchema.ParseMemoryUnit | packages/api/src/modules/memory/model.ts:4-8 | accepted iff messages is an array of objects, timestamp coerces to a date and user is a string; the message count is kept |
| MemorySchema.EmptyMessagesAccepted | packages/api/src/modules/memory/model.ts:5 | an empty message list is accepted |
| MemorySchema.MissingTimestampOrUserRejected | packages/api/test/memory.test.ts:27-38 | a body without timestamp or user is refused |
| MemorySchema.ParseSearchQuery | packages/api/src/modules/memory/model.ts:14-19 | accepted iff query and userId are present and non-empty |
| MemorySchema.StrFields | packages/api/src/modules/memory/model.ts:15 | query parameters become string values, key for key |
| MemorySchema.CoercedNumber | packages/api/src/modules/memory/message/model.ts:5-6 | an absent parameter takes its default; a present one is coerced |
| MemorySchema.ParsePageQuery | packages/api/src/modules/memory/message/model.ts:3-8 | accepted iff each present parameter coerces; limit defaults to 10 and page to 1 |
| MemorySchema.DefaultsGiveFirstPage | packages/api/src/modules/memory/message/model.ts:3-8 | no parameters give limit 10, page 1, that is the newest ten rows |
| MemorySchema.ParseFilterQuery | packages/api/src/modules/memory/message/model.ts:10-15 | accepted iff from and to are both present and coerce to dates, which are kept |
| MemorySchema.FilterNeedsBothEnds | packages/api/test/memory-message.test.ts:67-77 | a missing end is refused |
| TelegramStorage.ExtractTelegramId | packages/platform-telegram/src/storage.ts:75-77 | a match is the id whose userId key is the key, and has no line terminator |
| TelegramStorage.ExtractUserIdKey | packages/platform-telegram/src/storage.ts:75-77 | the userId key of an id gives that id back iff the pattern can capture it |
| TelegramStorage.KeysDistinct | packages/platform-telegram/src/storage.ts:19-24 | the token, userId and chatId keys never collide, and each determines its user |
| TelegramStorage.TelegramUserId | packages/platform-telegram/src/storage.ts:14-17 | no sender is "Unable to identify user"; otherwise the id in decimal |
| TelegramStorage.NumericIdsRoundTrip | packages/platform-telegram/src/storage.ts:75-77 | every numeric Telegram id is recovered from its userId key |
| TelegramStorage.Redis.constructor | packages/platform-telegram/src/storage.ts:18 | the store starts with the given entries |
| TelegramStorage.Lookup | packages/platform-telegram/src/storage.ts:19-22 | a key is read iff it exists, with its value |
| TelegramStorage.TokenStorage.constructor | packages/platform-telegram/src/storage.ts:25-26 | the storage holds the values read when it was made |
| TelegramStorage.TokenStorage.SetToken | packages/platform-telegram/src/storage.ts:36-41 | only the user's token key is set |
| TelegramStorage.TokenStorage.ClearToken | packages/platform-telegram/src/storage.ts:42-47 | only the user's token key is removed |
| TelegramStorage.TokenStorage.SetUserId | packages/platform-telegram/src/storage.ts:49-54 | only the user's userId key is set |
| TelegramStorage.TokenStorage.SetChatId | packages/platform-telegram/src/storage.ts:27-32 | only the user's chatId key is set |
| TelegramStorage.GetTokenStorage | packages/platform-telegram/src/storage.ts:13-26 | no sender fails without change; otherwise token and userId are read from their keys, and a chat id is stored and kept |
| TelegramStorage.TokenIsSnapshot | packages/platform-telegram/src/storage.ts:20-41 | after setToken(t) Redis holds t under the sender's token key and a storage made afterwards reads t, while the storage setToken was called on still answers the token read at its creation |
| TelegramStorage.GetTelegramIdByUserId | packages/platform-telegram/src/storage.ts:55-84 | the scan returns the first match over all batches in order, or null |
| TelegramStorage.FlattenAppend | packages/platform-telegram/src/storage.ts:60-81 | one more batch appends its keys |
| TelegramStorage.FirstMatchAppend | packages/platform-telegram/src/storage.ts:71-80 | a match in the first part wins; otherwise the search goes on in the second |
| TelegramStorage.ScanRest | packages/platform-telegram/src/storage.ts:71-78 | returning at the first matching key is the first match of the whole scan |
| TelegramStorage.FlattenConcat | packages/platform-telegram/src/storage.ts:60-81 | scanning in two runs is scanning once |
| TelegramStorage.FirstMatchSound | packages/platform-telegram/src/storage.ts:71-78 | a returned id's userId key was scanned and holds the user id |
| TelegramStorage.FirstMatchComplete | packages/platform-telegram/src/storage.ts:55-84 | if a scanned userId key of a capturable id holds the user id, some id is found |
| TelegramStorage.SetUserIdThenLookup | packages/platform-telegram/src/storage.ts:49-84 | after setUserId, the reverse lookup finds the Telegram id when no other holds the user id |
| ProviderIcons.RegistryIcon | packages/web/src/components/search-provider-logo/icons.ts:12-14 | only "brave" is registered, with the Brave icon |
| ProviderIcons.ProviderIcon | packages/web/src/components/search-provider-logo/icons.ts:18-21 | "" gives the globe; the Brave icon iff the trimmed lower-cased name is "brave"; otherwise the globe |
| ProviderIcons.IconLookupAsWritten | packages/web/src/components/search-provider-logo/icons.ts:20 | an inherited member is returned iff the normalised name is "constructor" or "__proto__"; otherwise ProviderIcon's answer |
| ProviderIcons.AsWrittenConstructorNotAnIcon | packages/web/src/components/search-provider-logo/icons.ts:20 | " Constructor" yields the inherited constructor, not an icon pair |
| ProviderIcons.TrimLeftPadded | packages/web/src/components/search-provider-logo/icons.ts:20 | leading whitespace is dropped up to the first visible character |
| ProviderIcons.TrimRightPadded | packages/web/src/components/search-provider-logo/icons.ts:20 | trailing whitespace is dropped back to the last visible character |
| ProviderIcons.BravePadded | packages/web/src/components/search-provider-logo/icons.ts:20 | "brave" in any case and with any surrounding whitespace gets the Brave icon |
| ProviderIcons.LowerKeepsTrimmed | packages/web/src/components/search-provider-logo/icons.ts:20 | lower-casing a trimmed name keeps it trimmed |
| ProviderIcons.KeyIdempotent | packages/web/src/components/search-provider-logo/icons.ts:20 | normalising twice is normalising once, and a normalised name gets the same icon |
| CliShared.ErrorMessage | packages/cli/src/cli/shared.ts:30-36 | an object's string message, otherwise "Unknown error" |
| CliShared.ErrorMessageOfError | packages/cli/src/cli/shared.ts:31-33 | an object with a string message gives back that message |
| CliShared.PresetBotId | packages/cli/src/cli/shared.ts:43-46 | a preset is used iff it is not blank, trimmed |
| CliShared.PresetUsedIffNotBlank | packages/cli/src/cli/shared.ts:44 | the preset wins exactly when it holds a visible character |

## Left out

- The memory engine itself (summarising, embedding, similarity search, `filterByTimestamp`) is not part of this model; its package is not among the modelled files, and its scoring is floating point.
- The HTTP route modules, their response envelopes and the JWT/bearer middleware are left out. They are plumbing around the modelled services. This includes the memory route's rule that the token's user overrides the body's user.
- Real file-system effects are parameters: `os.Stat`, the directory walk, `os.ReadDir`, MkdirAll, RemoveAll and the upload copy. The upload, mkdir and read handlers' I/O is not modelled beyond their path rules.
- Go's `filepath` is modelled for '/' separators only; Windows volume names and `FromSlash`/`ToSlash` conversions are identities here.
- FsRest.WalkUsage: sizes are unbounded integers, so int64 overflow of `totalBytes` is not modelled.
- Base64.DecodeString: a decoding failure is CorruptInput without the byte offset Go reports.
- Text.Lower and Text.EqualFold fold ASCII letters only; Go's `strings.ToLower`/`EqualFold` and JavaScript's `toLowerCase` also fold other scripts. Contacts.FilterFromArgument and ProviderIcons.ProviderIcon inherit this.
- Mcp.RawStringID: characters above U+007F that `strconv.Quote` would write as `\u` escapes (non-printable ones) are written as themselves; the round trip still holds.
- FsRest.ParseBoolMessage quotes its input with Mcp.RawStringID, so the same caveat applies to the quoted flag in the 400 message.
- Mcp.NewToolCallRequest: `json.Marshal` is not modelled. Marshalling a decoded JSON value cannot fail, so the error result never occurs.
- The HTTP transport is left out: the MCP client's requests, the web-search requests and responses, JSON decoding of provider replies, and the fetch transport of the container client. WebSearch.SearchResult takes the decoded reply as a parameter.
- WebSearch.GoogleQuery and WebSearch.KeyedGetRequest hold only the parameters the handlers set. Query parameters already in a configured base URL, which `reqURL.Query()` would keep, are not modelled.
- `url.Parse` of a configured base URL and its "invalid search provider base_url" result, `parseConfig` and `parseTimeout` are not modelled. The endpoint is kept as a string.
- The `mcpgw` helpers (`StringArg`, `IntArg`, `FirstStringArg`, `BuildToolErrorResult`, `BuildToolSuccessResult`) and the bot-settings and search-provider lookups are parameters. Their results are given as values.
- Concurrency is not modelled: the Discord adapter's mutex and its double-checked session creation, the handler goroutines, and the check-then-insert race in createUser. All operations run one at a time.
- The Discord connect/disconnect/send handlers (discordgo calls and attachment downloads) are not modelled beyond the helpers they use.
- JavaScript truthiness is modelled for the values the modelled code can see there: empty strings, null and undefined. Other falsy values are not modelled.
- Foreign keys between the settings table and the model and user tables are not checked. A default-model id may name a model that does not exist, which ModelService.DefaultModel then reports as nothing.
- MemoryMessages.Sort: rows with equal timestamps keep their stored order (a stable sort); the database gives no order among them.
- MemoryMessages.MemoryMessages takes an integer limit and page; coerced query numbers that are fractional, NaN or infinite are not modelled.
- Zod's `email()` and `url()` formats and the date and number coercions are parameters; their exact grammars are not modelled.
- Zod.IsUuid checks the 8-4-4-4-12 hex shape only. The installed zod version, and whether it also checks version and variant bits, is not part of this model. Zod's safe-integer bound on `int()` is not modelled.
- `z.object()` strips unknown keys; the parsed values here carry only the declared fields, and the stripped keys of each message object in a memory unit are not modelled.
- `getUsers` and `getModels`' row order are not modelled; ModelService.ModelTable.Models is a set.
- ContainerClient.RemoteFs: the container server's own error messages for missing paths are placeholders.
- The fetch-and-prompt branch of `resolveBotId` (the bot list from the API and the interactive choice) is not modelled; only the preset branch is.
- Redis `save()` and the asynchrony of the setters are left out. The setters are fire-and-forget in the source and apply in order here.
- `getApiUrl`/`setApiUrl` read the environment and do nothing; they are not modelled.
- CliShared.ErrorMessage sees only the value's own fields: a `message` inherited through a prototype (an `Error` instance's getter, say) is not modelled.
- TelegramStorage.GetTelegramIdByUserId: the scan's batches are a parameter. SCAN's duplicate or missing keys under concurrent writes are not modelled.

## Findings

| source | as written | input that shows it | evidently intended | confidence | as-written member | corrected member |
|---|---|---|---|---|---|---|
| internal/handlers/fs_rest.go:551-553 | a relative path that textually starts with ".." is invalid; the listings follow this rule | listing a directory that holds a file named "..foo": the entry is rejected with os.ErrInvalid, so the whole listing fails with 400 | reject only a relative path equal to ".." or starting with "../" | not executed | FsRest.AsWrittenRejectsDotDotChild | FsRest.EntryForJoined |
| packages/web/src/components/search-provider-logo/icons.ts:20 | `PROVIDER_ICONS[key] ?? DEFAULT_ICON` also reads inherited members | provider " Constructor" or "__proto__": the result is the object's constructor function or its prototype, not an icon pair | the globe default for every name that is not a registry entry | not executed | ProviderIcons.AsWrittenConstructorNotAnIcon | ProviderIcons.ProviderIcon |
