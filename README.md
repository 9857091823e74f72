# rs621 core, modelled in Dafny

rs621 is a Rust client for the e621 image-board API. This project models the sequential bookkeeping the client does around its HTTP calls, and proves properties of it:

- the pagination cursor (`Page(n)`, `Before(id)`, `After(id)`): how it is printed and parsed;
- building the user-agent header;
- assembling a request URL's query pairs, including login and logout;
- classifying a response into a value or an HTTP error;
- the tag query builder and the step that picks the next cursor from a page of tags;
- the pool search query string;
- the pool stream's state machine;
- the request cooldown shared by all requests, in the three limiter variants;
- post enumerations, parsers, defaults and the post's text display;
- splitting the `children` and `tags` fields of a post;
- the `Display` text of the client's errors.

Layout, one module per source file:

| module | source file |
|---|---|
| `Client` | `src/client.rs` |
| `Tag` | `src/tag.rs` |
| `Pool` | `src/pool.rs` |
| `Post` | `src/post.rs` |
| `Errors` | `src/error.rs` |
| `TokioRateLimit` | `src/client/tokio_rate_limit.rs` |
| `GlooRateLimit` | `src/client/gloo_rate_limit.rs` |
| `RateLimit` | `src/client/rate_limit.rs` |

Five helper modules support them:

- `Cooldown` states on values what every limiter promises.
- `Decimal` models Rust's unsigned integer `Display` and `FromStr`, and `u64` wrap-around.
- `Text` models `split`, `split_whitespace` and `join`.
- `Json` models the shape of a decoded `serde_json::Value`.
- `Wrappers` defines `Option` and `Result`.

State that the source changes in place is modelled as classes.

- **`Client.Client`**: `login` and `logout` assign its login field, and `url` loops over the extra query pairs.
- **`Pool.PoolStream`**: `poll_next` loops, mutating the page, buffer, ended flag and pending fetch. It is proved against the value-level step function `Pool.PollStep`. The first half of each round, which polls the pending fetch, is the method `PollQuery`, as the source computes its `QueryPollRes` before matching on it.
- **Each limiter's `RateLimit`**: it holds the shared deadline slot, and `Lock` is the source's retry loop.

Time is a whole number of milliseconds. The clock reading is an input, and so is how late a timer fires.

Inputs and parameters stand in for things the model does not compute:

- Fetch outcomes and responses are inputs to the step that observes them.
- `urlencoding::encode` is a function parameter `enc`. The model assumes one thing about it, and only in `Pool.SegmentAmpersands` and `Pool.ParametersPerCriterion`: it never writes '&'. The real encoder writes '&' as `%26`.
- The display of a `chrono` timestamp is a parameter `showTime`.

## Model

| member | source | states |
|---|---|---|
| `Errors.GenericReason` | src/error.rs:18-35 | Empty exactly for a code with no tabulated text; otherwise a space followed by that code's fixed explanation |
| `Errors.ReasonSuffix` | src/error.rs:15-36 | With a server reason the suffix is ": " then the reason verbatim; without one it is the generic reason; it always starts with ':' or ' ' or is empty |
| `Errors.Message` | src/error.rs:10-49 | An AboveLimit error displays the option, ":", the value's decimal, " is above the maximum value allowed in this context (", the maximum's decimal and ")". An HTTP error displays "HTTP error ", the decimal code, then the suffix. InvalidHeaderValue displays "Invalid header value" whatever its description |
| `Errors.HttpMessageBare` | src/error.rs:35 | A reasonless HTTP error displays exactly "HTTP error {code}" if and only if its code has no tabulated text |
| `Errors.HttpMessageNotFound` | src/error.rs:21 | A reasonless 404 displays "HTTP error 404 Not Found" |
| `Errors.SuffixDeterminesReason` | src/error.rs:15-36 | Equal suffixes for the same code mean equal optional reasons |
| `Errors.HttpMessageInjective` | src/error.rs:14-38 | Two HTTP errors with the same text have the same code and the same reason |
| `Errors.HttpMessageSplits` | src/error.rs:14-16 | An HTTP error's text is "HTTP error ", then the code, then its suffix |
| `Client.CursorText` | src/client.rs:100-108 | Page(p) prints as the decimal of p, Before(id) as "b" then the decimal, After(id) as "a" then the decimal |
| `Client.ParseCursor` | src/client.rs:86-98 | A leading 'a' parses the rest as After, a leading 'b' parses the rest as Before, and anything else parses the whole text as a Page, passing on the integer parse error |
| `Client.CursorRoundTrip` | src/client.rs:86-108 | Parsing the printed text of every cursor gives back that cursor |
| `Client.CursorParseEmpty` | src/client.rs:89-97 | "", "a" and "b" are refused as empty numbers |
| `Client.CursorParseNonNumeric` | src/client.rs:91-92 | After 'a' or 'b', a remainder holding a character that is neither a digit nor a leading '+' is refused |
| `Client.CursorLeadingZeros` | src/client.rs:91-92 | Any number of leading zeros after 'a' or 'b' parses to the same cursor |
| `Client.ZerosDecParses` | src/client.rs:91-92 | Any number of zeros before an id's decimal text still reads as that id |
| `Client.CursorNotInjective` | src/client.rs:86-108 | "b007" and "b7" both parse to Before(7), whose text is "b7", so printing after parsing is not the identity |
| `Client.CreateHeaderMap` | src/client.rs:36-52 | An empty user agent is refused with CannotCreateClient and its fixed text. A non-empty one with a byte not allowed in a header value is refused with InvalidHeaderValue. Otherwise the map holds exactly the user-agent entry |
| `Client.HeaderMapExamples` | src/client.rs:36-52 | A non-empty agent of visible ASCII yields the one-entry map, and a line feed is refused |
| `Client.LoginPairs` | src/client.rs:180-184 | No login adds no pairs; a login adds ("login", user) and then ("api_key", key) |
| `Client.Client.constructor` | src/client.rs:143-150 | A new client has its base URL and headers, no extra pairs and no login |
| `Client.Client.Login` | src/client.rs:169-171 | The login becomes the given credentials, replacing any before, and nothing else changes |
| `Client.Client.Logout` | src/client.rs:174-176 | The login becomes None and nothing else changes |
| `Client.Client.EndpointUrl` | src/client.rs:178-191 | A join failure is passed on. Otherwise the location is kept, and the query is the joined URL's pairs, then the login pairs, then the extra pairs in order |
| `Client.BodyReason` | src/client.rs:313-316 | The reason is present exactly when the body decodes and its "reason" member is a string, and then it is that string |
| `Client.JsonResponse` | src/client.rs:303-319 | A send failure gives CannotSendRequest. A success status gives the decoded body, or Serial when it does not decode. Any other status gives Http with that code and the body's reason |
| `Client.JsonResponseHttpIff` | src/client.rs:306-319 | A sent request ends in an HTTP error exactly when the status is not a success, and in a value exactly when the status is a success and the body decodes |
| `Client.ServerReasonShown` | src/client.rs:309-316 | A failure body with a string reason yields Http with that reason, which displays as "HTTP error {code}: {reason}" |
| `Client.GenericReasonShown` | src/client.rs:309-316 | A failure body without a string reason yields Http with no reason, which displays the code's generic text |
| `Tag.Code` | src/tag.rs:25-36 | Every category's discriminant is at most 8 and never 2 |
| `Tag.CategoryOfCode` | src/tag.rs:43-54 | A number names a category exactly when it is at most 8 and not 2, and then that category's discriminant is the number |
| `Tag.CodeInjective` | src/tag.rs:25-36 | Different categories have different discriminants |
| `Tag.ParseCategoryErrorText` | src/tag.rs:65-72 | The parse failure reads "category string is not a u8"; an unknown number reads "unknown category " then the number |
| `Tag.CategoryText` | src/tag.rs:59-63 | A category displays as the single decimal digit of its discriminant |
| `Tag.ParseCategory` | src/tag.rs:41-56 | Text that is not a u8 is refused with its integer parse error. A u8 is accepted exactly when it names a category, which then has that discriminant. Any other u8 is Unknown with that number |
| `Tag.CategoryRoundTrip` | src/tag.rs:25-63 | Parsing a category's display gives it back |
| `Tag.CategoryUnknown` | src/tag.rs:42-52 | 2 and every u8 above 8 parse to Unknown of that number |
| `Tag.CategoryTooLarge` | src/tag.rs:42 | A number above 255 is refused as an overflowing u8 |
| `Tag.NewQuery` | src/tag.rs:216-218 | The new query has no cursor, no order, no names and no categories, and it is coherent |
| `Tag.WithPage` | src/tag.rs:230-236 | The cursor is set. A Before/After cursor clears the order, and any other leaves it. No other field changes, and the result is coherent |
| `Tag.WithOrder` | src/tag.rs:248-254 | The order is set. Some order clears a Before/After cursor, and otherwise the cursor stays. No other field changes, and the result is coherent |
| `Tag.WithName` | src/tag.rs:273-276 | The names become [] or the one name, and nothing else changes |
| `Tag.WithNames` | src/tag.rs:281-284 | The names are replaced by the given list, and nothing else changes |
| `Tag.WithCategory` | src/tag.rs:290-293 | The categories become [] or the one category, and nothing else changes |
| `Tag.WithCategories` | src/tag.rs:298-301 | The categories are replaced by the given list, and nothing else changes |
| `Tag.Apply` | src/tag.rs:221-320 | Every builder other than page and order leaves cursor and order alone |
| `Tag.ApplyKeepsCoherent` | src/tag.rs:221-320 | Every builder step keeps a coherent query coherent, and page and order make any query coherent |
| `Tag.BuildCoherent` | src/tag.rs:214-321 | Any chain of builder calls from a new query never holds an order together with a Before/After cursor |
| `Tag.LastListWins` | src/tag.rs:273-301 | Whichever of name/names, or of category/categories, is called last decides the list |
| `Tag.BuildExample` | src/tag.rs:440-473 | The builder chain of the source's test yields the query that test expects |
| `Tag.MinId` | src/tag.rs:416 | Of a non-empty page, an id of the page no greater than any id on it |
| `Tag.MaxId` | src/tag.rs:416 | Of a non-empty page, an id of the page no smaller than any id on it |
| `Tag.NextCursor` | src/tag.rs:416-427 | Before gives Before(min id), After gives After(max id), Page(p) gives Page(p+1). With no cursor, no order, IdDsc or Date gives Before(min), IdAsc gives After(max), and any other order gives Page(2) |
| `Tag.SearchPage` | src/tag.rs:405-432 | No query ends the stream. An error is emitted alone, with no next query. An empty page ends the stream. Otherwise every tag is emitted in order, and the next query differs only in its cursor, which is the next cursor |
| `Wrappers.Oks` | src/tag.rs:430 | Each value becomes one Ok item, in order, as the tag and pool streams wrap the entries of a page |
| `Tag.SearchStream` | src/tag.rs:348-356 | The stream is empty when there is no query or no responses are left; what a non-empty stream holds is stated by the three Stream lemmas below |
| `Tag.PagesItems` | src/tag.rs:405-432 | What the responses emit on their own: nothing for no responses or an empty first page, exactly the error for a failed first request |
| `Tag.StreamIsPagesItems` | src/tag.rs:348-356 | The whole stream from any query is each non-empty page's tags in order, up to the first empty page, with an error as the last item |
| `Tag.StreamErrorIsLast` | src/tag.rs:405-432 | A stream holds at most one error, and only as its last item |
| `Tag.StreamStopsAtError` | src/tag.rs:410 | A failed first request makes the whole stream that one error |
| `Tag.StreamPagePrefix` | src/tag.rs:413-432 | A non-empty first page is emitted whole and in order at the head of the stream |
| `Pool.NewSearch` | src/pool.rs:139-141 | A new search has no criterion set |
| `Pool.WithNameMatches` | src/pool.rs:143-146 | The name criterion is set to the given value, and no other criterion changes |
| `Pool.WithId` | src/pool.rs:148-151 | The id list criterion is set to the given value, and no other criterion changes |
| `Pool.WithDescriptionMatches` | src/pool.rs:153-156 | The description criterion is set to the given value, and no other criterion changes |
| `Pool.WithCreatorName` | src/pool.rs:158-161 | The creator name criterion is set to the given value, and no other criterion changes |
| `Pool.WithCreatorId` | src/pool.rs:163-166 | The creator id criterion is set to the given value, and no other criterion changes |
| `Pool.WithIsActive` | src/pool.rs:168-171 | The active flag criterion is set to the given value, and no other criterion changes |
| `Pool.WithIsDeleted` | src/pool.rs:173-176 | The deleted flag criterion is set to the given value, and no other criterion changes |
| `Pool.WithCategory` | src/pool.rs:178-181 | The category criterion is set to the given value, and no other criterion changes |
| `Pool.WithOrder` | src/pool.rs:183-186 | The order criterion is set to the given value, and no other criterion changes |
| `Pool.PushParameter` | src/pool.rs:64-70 | The text grows by '&', the encoded key, '=' and the encoded value when the criterion is set, and is unchanged otherwise |
| `Pool.ToSearchParameters` | src/pool.rs:62-137 | The pushed text equals the nine parameters in source order: name_matches, id, description_matches, creator_name, creator_id, is_active, is_deleted, category, order |
| `Pool.NewSearchParameters` | src/pool.rs:62-63 | A new search adds nothing to the query string |
| `Pool.SegmentAmpersands` | src/pool.rs:64-70 | With an encoder that never writes '&', a set criterion's parameter holds one '&', and an unset one holds none |
| `Pool.ParametersPerCriterion` | src/pool.rs:62-137 | With an encoder that never writes '&', the query string has one '&' per criterion set, so exactly the set criteria contribute a parameter |
| `Pool.NameMatchesParameters` | src/pool.rs:64-70 | A search on the name alone gives just "&" + enc("search[name_matches]") + "=" + enc(name) |
| `Pool.IdsJoined` | src/pool.rs:76 | For any list of ids, the ids criterion is the ids' decimals joined by commas |
| `Pool.Initial` | src/pool.rs:208-220 | A new stream is at page 1, with nothing buffered, not ended, nothing pending and no URL |
| `Pool.Store` | src/pool.rs:246-256 | A completed fetch that did not fail leaves the stream ended or with something buffered |
| `Pool.PoolStream.constructor` | src/pool.rs:208-220 | The new stream's state is the initial one |
| `Pool.PoolStream.PollNext` | src/pool.rs:226-310 | One call moves the fields and answers exactly as the step function does on the old fields and this search's query string |
| `Pool.PoolStream.PollQuery` | src/pool.rs:237-270 | Polling leaves the fields alone when no fetch is pending or it is not ready, records the end on a failed fetch and stops the loop with its error, and otherwise buffers the page and lets the loop go on |
| `Pool.PollStepKeepsInv` | src/pool.rs:240-307 | A pending fetch only ever exists with an empty buffer on a stream that has not ended |
| `Pool.PollStepPage` | src/pool.rs:289-307 | A poll that starts a fetch requests the current page and moves the page on by exactly one; any other poll leaves page and URL alone |
| `Pool.Run` | src/pool.rs:226-310 | Successive polls answer once per outcome given |
| `Pool.RunPages` | src/pool.rs:292-300 | Over any run, the k-th fetch is of the starting page plus k, and the page ends one past the last fetched |
| `Pool.EndedStaysEnded` | src/pool.rs:276-280 | An ended stream with nothing pending answers None to every poll, fetches nothing and never changes |
| `Pool.ReverseLast` | src/pool.rs:249 | The last item of a reversed page is its first, and what precedes it is the reversed rest |
| `Pool.DrainInOrder` | src/pool.rs:249-287 | A buffered page comes out one item per poll in the order the server sent it, without any fetch |
| `Pool.FetchErrorOnce` | src/pool.rs:260-280 | A failed fetch is answered once as its error, and every later poll answers None |
| `Pool.UndecodableContinues` | src/pool.rs:251-255 | An undecodable page is answered as a Serial error, the stream does not end, and the next poll fetches the next page |
| `Pool.RunAppend` | src/pool.rs:226-310 | Running two batches of polls one after the other is the same as running them together |
| `Pool.RunByAppend` | src/pool.rs:226-310 | For any step function, running two batches of polls in turn equals running them together, polls and fetches concatenated |
| `Pool.RunIsRunBy` | src/pool.rs:226-310 | The stream's run is the run driven by one `poll_next` per outcome |
| `Pool.RunByPages` | src/pool.rs:292-300 | For any step that fetches nothing or the current page while moving one page on, the k-th fetch is of the starting page plus k |
| `Pool.RunOne` | src/pool.rs:226-310 | A run of one poll answers as that poll, fetching the current page only when the poll starts a fetch |
| `Pool.FirstPoll` | src/pool.rs:289-307 | The first poll of a new stream fetches page 1 and hands out that page's first pool |
| `Pool.EmptyPageEnds` | src/pool.rs:255-280 | With nothing buffered, an empty page answers None, ends the stream, and was fetched from the current page |
| `Pool.TwoPageSearch` | src/pool.rs:341-370 | A page of pools then an empty page yield those pools in order, then None, from pages 1 and 2 |
| `Cooldown.Admit` | src/client/tokio_rate_limit.rs:27-43 | A request starts at once when there is no deadline or it has passed; otherwise it starts when the deadline's timer fires, never before the deadline |
| `Cooldown.Expiry` | src/client/tokio_rate_limit.rs:19-24 | No deadline before the first request; afterwards, the last request's end plus the cooldown |
| `Cooldown.Schedule` | src/client/tokio_rate_limit.rs:45-53 | One span per request, and with no deadline the first starts when it arrives |
| `Cooldown.SpacedSnoc` | src/client/tokio_rate_limit.rs:36-41 | A spaced log stays spaced when a request that started after the current deadline is added |
| `Cooldown.ScheduleSpaced` | src/client/tokio_rate_limit.rs:45-53 | Each request starts at least a cooldown after the previous one ended, never before it arrives, and the first waits for any deadline already set |
| `TokioRateLimit.RateLimit.constructor` | src/client/tokio_rate_limit.rs:10-15 | A fresh limiter has no deadline and has served nothing |
| `TokioRateLimit.RateLimit.Lock` | src/client/tokio_rate_limit.rs:27-43 | The waiting loop, sleeping until the deadline, returns at the start the schedule admits and leaves the slot alone |
| `TokioRateLimit.RateLimit.Release` | src/client/tokio_rate_limit.rs:19-24 | The deadline becomes the release time plus the client's 600 ms cooldown |
| `TokioRateLimit.RateLimit.Check` | src/client/tokio_rate_limit.rs:45-53 | The wrapped result is returned unchanged, and the request's span is the one the schedule gives. The deadline is then set and the log stays spaced |
| `GlooRateLimit.RateLimit.constructor` | src/client/gloo_rate_limit.rs:10-14 | A fresh limiter has no deadline and has served nothing |
| `GlooRateLimit.RateLimit.Lock` | src/client/gloo_rate_limit.rs:26-42 | The waiting loop, sleeping for the time left until the deadline, returns at the start the schedule admits and leaves the slot alone |
| `GlooRateLimit.RateLimit.Release` | src/client/gloo_rate_limit.rs:18-23 | The deadline becomes the release time plus the client's 600 ms cooldown |
| `GlooRateLimit.RateLimit.Check` | src/client/gloo_rate_limit.rs:44-52 | The wrapped result is returned unchanged, and the request's span is the one the schedule gives. The deadline is then set and the log stays spaced |
| `RateLimit.RateLimit.constructor` | src/client/rate_limit.rs:12-17 | A fresh limiter has no deadline and has served nothing |
| `RateLimit.RateLimit.Lock` | src/client/rate_limit.rs:29-45 | The waiting loop returns at the start the schedule admits and leaves the slot alone |
| `RateLimit.RateLimit.Release` | src/client/rate_limit.rs:21-26 | The deadline becomes the release time plus the module's own 600 ms cooldown |
| `RateLimit.RateLimit.Check` | src/client/rate_limit.rs:47-55 | The wrapped result is returned unchanged, and the request's span is the one the schedule gives. The deadline is then set and the log stays spaced |
| `Post.IsDeleted` | src/post.rs:19-24 | True exactly for a Deleted status |
| `Post.PostIsDeleted` | src/post.rs:244-246 | A post is deleted exactly when its status is |
| `Post.ParseStatus` | src/post.rs:30-40 | Exactly "active", "flagged", "pending" and "deleted" are accepted. "active" gives Active, "flagged" Flagged and "pending" Pending. Only "deleted" gives a deleted status, which carries the given reason or "" |
| `Post.StatusFromJson` | src/post.rs:46-51 | A JSON value that is not a string is refused; a string is parsed as a status word |
| `Post.ParseRating` | src/post.rs:81-89 | Exactly "s", "q" and "e" are accepted |
| `Post.RatingFromJson` | src/post.rs:94-99 | A JSON value that is not a string is refused; a string is parsed as a rating code |
| `Post.RatingText` | src/post.rs:102-110 | A rating displays as a whole word of more than one letter |
| `Post.RatingInitialParses` | src/post.rs:81-110 | The first letter of a rating's display parses back to that rating |
| `Post.RatingTextNotParsed` | src/post.rs:81-110 | A rating's display is itself refused by the rating parser |
| `Post.ParseFormat` | src/post.rs:130-139 | Exactly "jpg", "png", "gif", "swf" and "webm" are accepted |
| `Post.FormatFromJson` | src/post.rs:145-150 | A JSON value that is not a string is refused; a string is parsed as an extension |
| `Post.FormatText` | src/post.rs:153-163 | A format displays as three or four upper-case letters; with `Post.FormatTextRoundTrip` this is exactly the upper-case form of its extension |
| `Post.FormatTextRoundTrip` | src/post.rs:130-163 | A format's upper-case display is refused, and its lower-cased display parses back to it |
| `Post.DefaultPost` | src/post.rs:249-293 | The default post is pending and not deleted, rated explicit, with id 0, no artists, tags or children, and no file format |
| `Post.ArtistList` | src/post.rs:302-309 | Empty exactly when there are no artists, and otherwise ends in a line break |
| `Post.WriteArtists` | src/post.rs:302-309 | The indexed loop writes exactly the artist list |
| `Post.WriteStep` | src/post.rs:303-309 | Writing the next name and its separator keeps the text written so far a prefix of the whole artist list |
| `Post.ArtistListFrom` | src/post.rs:303-309 | The list from any name on is that name, the separator its position calls for, and the rest |
| `Post.DisplayPost` | src/post.rs:295-327 | The written text is the headline, reason or artists, followed by the rating, score, favourites, optional type, creation time, tags and description lines |
| `Post.ArtistListJoined` | src/post.rs:302-309 | For two or more artists the list is all but the last joined by ", ", then " and " and the last, then a line break |
| `Post.DeletedIgnoresArtists` | src/post.rs:297-298 | A deleted post's text does not depend on its artists and begins "#id (deleted: reason)" and a line break |
| `Post.DefaultPostText` | src/post.rs:249-327 | The default post displays "#0 by " with no line break, then rating explicit, score 0, favourites 0, no type line, the epoch, no tags and no description |
| `Post.DefaultDetails` | src/post.rs:312-327 | After the default post's headline come rating explicit, score 0, favourites 0, no type line, the epoch, no tags and no description |
| `Post.ParseIds` | src/post.rs:380 | Every part parses as a u64 and the ids are those values in order, or some part does not parse |
| `Post.ChildrenField` | src/post.rs:376-382 | A missing, non-string or empty field has no children; otherwise the comma-separated parts are parsed as ids |
| `Decimal.DecAll` | src/post.rs:380 | The decimal text of each id, in order |
| `Post.ParseIdsDecAll` | src/post.rs:380 | The decimal texts of any ids parse back to those ids |
| `Post.ParseIdsCons` | src/post.rs:380 | Parts that parse one by one parse as a list, in order |
| `Post.ChildrenRoundTrip` | src/post.rs:376-382 | Any list of ids written comma-separated is read back exactly; the empty list is written as "" and read as no children |
| `Post.ChildrenTrailingComma` | src/post.rs:380 | "7," has an empty part that is not an id, so reading it fails |
| `Post.TagsField` | src/post.rs:366-369 | The tags are present exactly when the field is a string. They are non-empty, contain no whitespace, and together spell the field's text without its whitespace. These clauses alone do not fix where the tags break when runs of several whitespace characters separate them; `Post.TagsRoundTrip` fixes the result for single-space separation, the server's form |
| `Text.SplitWhitespaceJoin` | src/post.rs:366-369 | Non-empty words without whitespace, joined by single spaces, split back into exactly those words |
| `Text.WordsOfJoin` | src/post.rs:366-369 | Reading space-joined words after a partial word gives that word extended by the first, then the others one by one |
| `Text.WordsRun` | src/post.rs:366-369 | A run without whitespace only extends the word being read |
| `Post.TagsRoundTrip` | src/post.rs:366-369 | A tags field holding space-separated tags is read back as exactly those tags, so a tag breaks only at whitespace |
| `Post.StatusFieldAsWritten` | src/post.rs:349-352 | As written, the status is read as if no reason were given, whatever the post's "delreason" holds |
| `Post.StatusField` | src/post.rs:349-352 | Corrected: a status exactly for one of the four status words, and a deleted status carries the post's own "delreason" text, or "" without one |
| `Post.DelreasonLost` | src/post.rs:349-352 | As the source reads it, a deleted status always carries the empty reason |
| `Post.StatusFieldKeepsReason` | src/post.rs:349-352 | Read from the post, a deleted status carries the post's reason, where the source's reading gives "" |

## Left out

- Sending requests, receiving responses and decoding JSON (reqwest, serde, serde_json) are left out. Responses and decoded pages are inputs; a decoded value is a `Json.Value`.
- `Client::create`, `new` and `with_proxy` (src/client.rs:122-165) are left out. They build a reqwest client, a proxy and a parsed base URL, all foreign code. The constructor of `Client.Client` takes the resulting URL and headers.
- The wasm variants of `create_header_map` and `create_extra_query` (src/client.rs:31-34, 59-65) are left out because they are platform-specific. The non-wasm `create_extra_query` always yields no pairs, which is the constructor's empty extra query.
- `Client.Client.EndpointUrl` takes the result of `Url::join` as an input, because URL joining is foreign code. Percent-encoding of the appended pairs is not modelled.
- In `get_json_endpoint`, `Error::Http` also carries the request URL, but src/error.rs declares that variant without one. The model follows src/error.rs. It also leaves out how a URL-join failure becomes an error, since src/error.rs declares no conversion for it.
- The client's `rate_limit` field is not part of `Client.Client`. The limiters are modelled on their own, and `check` takes the request's result and duration as inputs.
- `Tag.NextCursor`, `Tag.SearchPage`, `Pool.Issue` and `Pool.PoolStream.PollNext` model `+ 1` on a `u64` page as wrapping, as a release build does. A debug build would panic on the largest page instead.
- Coherence is a property of builder chains only (see `Tag.BuildCoherent`): only the builders keep a query coherent. `tag_search_page` may install a Before/After cursor next to an order, for example a date order with no cursor is followed by a Before cursor.
- Async machinery (`Future`, `Pin`, `Context`, `Poll::Pending`, `unfold` and `flatten`) is left out. `Pool.PoolStream.PollNext` takes what polling the pending fetch reports as an input. At most one fetch is polled per call, so one input suffices.
- Pool timestamps (`created_at`, `updated_at`), the tag timestamps (`related_tags_updated_at`, `created_at`, `updated_at`; src/tag.rs:108-112) and the post's `created_at` display are not modelled, because chrono is foreign code. The display is the parameter `showTime`.
- The limiters run one request at a time in the model. Mutex fairness, interleaving of tasks and the wall clock are left out; waiting happens against a logical clock.
- `Post.Post` try_from (src/post.rs:340-419) is modelled only for its `status`, `children` and `tags` fields. The other fields are plain lookups of decoded values, and the error they raise, `PostDeserialization`, is not declared in src/error.rs.
- Errors.Message: the `Serial`, `Deserialization`, `CannotSendRequest` and `CannotCreateClient` texts are each a fixed prefix before a description that comes from foreign code (serde_json, reqwest), so the contract does not state them and no lemma is about them.
- src/client/dummy_rate_limit.rs is not part of this model, since it only awaits the wrapped future. src/lib.rs and src/utils.rs are not part of this model either.
- The source's examples, its tests that need a network, and the `From` conversions in src/error.rs are left out because they rely on foreign code.

## Findings

| source | as written | input that shows it | evidently intended | confidence | as-written member | corrected member |
|---|---|---|---|---|---|---|
| src/post.rs:349-352 | The status closure's parameter `v` shadows the post, so it reads `v["delreason"]` from the status string, which is never an object | A post whose "status" is "deleted" and whose "delreason" is "dup" | The reason "dup" comes from the post's own "delreason" member | high, not executed | `Post.DelreasonLost` | `Post.StatusFieldKeepsReason` |
