# cocoa-tracker, modelled in Dafny

cocoa-tracker watches a concert venue's page of "cocoa concerts". Each run does four things:

- It scrapes the event dates from the page.
- It compares them with the dates it stored last time.
- It sends a notification when new dates appear.
- It stores what it saw.

Two revisions of the program live side by side, and both are modelled here:

- **The older revision.** `lambda_function.py` drives `src/storage.py`: a `DateCache(bucket, file)` with `load_old_dates` and `save_dates` over S3. Messages go out through an SNS topic.
- **The newer revision.** `src/service.py`'s `ConcertTrackerService.run` drives `src/scraper.py` and a `DateCache(storage, key)`. That cache holds `.dates` and offers `find_new_dates` and `update`. Its source is not part of this model, so its contract is the one its tests fix (tests/test_storage.py).

The modules follow the program:

| module | file | models |
|---|---|---|
| `Text`, `Numerals`, `Lines` | text.dfy, numerals.dfy, lines.dfy | Python's `str.strip`, `str.lower` and `int` on ASCII text; `"\n".join` and its inverse split |
| `Dates` | dates.dfy | `datetime.date`: years 1 to 9999, the Gregorian month lengths, `strftime("%Y-%m-%d")` |
| `Functions` | functions.dfy | src/functions.py: `MONTHS`, `get_month_number`, `get_year` |
| `Scraper` | scraper.dfy | src/scraper.py: the entry loop of `parse_html_content`, and `fetch_concert_dates` |
| `Storage` | storage.dfy | src/storage.py: the older `DateCache` over an abstract bucket/key store |
| `Notifications` | notifications.dfy | src/notifications.py: the SNS message and its publish |
| `CacheContract` | date_cache.dfy | the newer `DateCache` over an abstract key/value store, as its tests fix it |
| `Service` | service.dfy | src/service.py: `ConcertTrackerService.run` |
| `LambdaFunction` | lambda_function.dfy | `list_article_tags_content`, `send_message` and `lambda_handler` |

How the Python maps onto Dafny:

- **Exceptions.** A Python call that may raise (`int`, the `MONTHS` lookup, `datetime.date`, a failed read) returns an `Option` or a `Result`. An entry the scraper drops is a `None`.
- **Page entries.** An HTML entry becomes an `Article`: a record of the four optional, already-stripped texts `get_text(strip=True)` yields. The optional texts are the event name, year, month and day.
- **Fetches.** A fetch is a `Page`. It is either `Fetched(articles)` or `FetchFailed`.
- **Imperative code.** The scraper's loop is a `while` loop proved against the specification function `KeptDates`. The caches, the service, the notifier and the SNS topic are classes whose methods update their fields.
- **Run decision.** What a run of the service sends and stores is the pure function `Service.Decide`. The properties of a run are lemmas about `Decide`, and `ConcertTrackerService.Run` is proved to do exactly what `Decide` says.

Where the code and its tests leave a choice open, the model makes these choices:

- **Stored elements.** The older load (src/storage.py:19) calls `dt.date(x)` with one string argument, which raises `TypeError` on ISO-string elements. The older save (src/storage.py:23) hands date objects to `json.dumps`, which raises `TypeError` on any non-empty list of dates. So the code has no working codec for stored dates. The model keeps stored elements abstract as dates and invents no codec; under "## Left out" this is listed as an idealisation.
- **Lists, not sets.** Both caches keep lists. The older handler saves the scraped list unchanged, with its order and duplicates.
- **New dates of the newer cache.** Its tests (tests/test_storage.py:127-162) compare the result of `find_new_dates` with ascending lists, and none of them has a new date twice. The model returns the new dates ascending and drops repeats; that second part is a choice of the model.
- **Message indentation.** The two message texts differ. `send_message` (lambda_function.py:66-68) keeps four spaces before the label line and before the first date line, because its triple-quoted string is indented. `send_sns_notification` (src/notifications.py:15-17) has no indentation. Each is modelled as written.

## Model

| member | source | states |
|---|---|---|
| Functions.MonthsKeys | src/functions.py:1-14 | the month table has exactly the twelve lowercase English month names as keys |
| Functions.MonthsOrder | src/functions.py:1-14 | the i-th month name in calendar order maps to i + 1 |
| Functions.MonthsTable | src/functions.py:1-14 | every value lies in 1..12 and names its own month; the table is injective |
| Functions.GetMonthNumber | src/functions.py:17-18 | a result exists exactly when the stripped, lowercased name is a month name; it is then in 1..12 and is that month's position; otherwise the lookup fails, with no default |
| Functions.MonthLookupNormalises | src/functions.py:18 | surrounding whitespace and letter case do not change the lookup |
| Functions.MonthExamples | src/functions.py:17-18 | "january" gives 1 and "february" gives 2 |
| Functions.MonthPaddedUpperExample | src/functions.py:18 | "  MARCH " gives 3 |
| Functions.MonthUnknownExample | src/functions.py:18 | a name outside the table ("Januar") fails |
| Functions.DropTrailingDot | src/functions.py:22-23 | removes the last character exactly when it is ".", and otherwise returns the text unchanged |
| Functions.GetYear | src/functions.py:21-25 | `get_year`; its contract is carried by GetYearAtMostOneDot, GetYearWithoutDot, GetYearDigits, GetYearRejects, YearWithSeparatorRejected and YearExamples |
| Functions.GetYearAtMostOneDot | src/functions.py:22-23 | a year text ending in "." parses only if the character before it is not "." |
| Functions.GetYearWithoutDot | src/functions.py:24-25 | every text without a trailing "." is read as a whole by `int()`, whether that parse succeeds or fails |
| Functions.GetYearDigits | src/functions.py:21-25 | for a digit string s, both s and s + "." give the decimal value of s |
| Functions.GetYearRejects | src/functions.py:22-23 | "." and any text ending in ".." fail |
| Functions.YearExamples | src/functions.py:21-25 | "2024" gives 2024 and "2023." gives 2023 |
| Functions.YearWithSeparatorRejected | src/functions.py:22-23 | "2023" followed by the separator 0x1C strips to "2023", yet "2023" + 0x1C + "." does not parse as a year, because `int()` does not skip 0x1C |
| Text.Strip | src/functions.py:18 | `str.strip()`; its contract is carried by StripLeftShape, StripRightShape, StripPadded and StripNoSpace |
| Text.StripLeftShape | src/functions.py:18 | stripping on the left keeps a suffix and drops only whitespace, ending at a non-space or at the end |
| Text.StripRightShape | src/functions.py:18 | stripping on the right keeps a prefix and drops only whitespace, ending at a non-space or at the start |
| Text.Lower | src/functions.py:18 | `str.lower()`: same length, each ASCII capital replaced by its lowercase letter, every other character kept |
| Text.StripPadded | src/functions.py:18 | stripping ignores whitespace added on either side |
| Text.LowerStrip | src/functions.py:18 | lowercasing and stripping commute |
| Numerals.ParseInt | src/functions.py:23-25 | `int(str)` on ASCII text; its contract is carried by ParseDigits, ParseIntShowNat, ParseSignedDigits and ParseIntRejectsTrailing |
| Numerals.IntSpaceNarrower | src/functions.py:23-25 | every character `int()` skips is also stripped by `str.strip()`, but 0x1C is stripped and not skipped |
| Numerals.ParseDigits | src/scraper.py:32 | a non-empty digit string parses to its decimal value |
| Numerals.ParseSignedDigits | src/functions.py:23-25 | a sign followed by digits parses to the signed value |
| Numerals.ParseIntShowNat | src/functions.py:23-25 | the integer parse reads back every decimal rendering, with or without a leading minus |
| Numerals.ParseIntRejectsTrailing | src/functions.py:23-25 | text ending in a character that is neither a digit nor whitespace `int()` skips (TAB, LF, VT, FF, CR, SPACE) does not parse |
| Dates.DaysInMonth | src/scraper.py:33 | month lengths 28..31; February has 29 days exactly in Gregorian leap years and 28 otherwise; April, June, September and November have 30; January, March, May, July, August, October and December have 31 |
| Dates.MakeDate | src/scraper.py:33 | `datetime.date(year, month, day)` succeeds exactly for a valid date (year 1..9999, month 1..12, day within the month) and keeps its components |
| Dates.ZeroNeverValid | src/scraper.py:30-33 | a 0 in any component never forms a date |
| Dates.BeforeStrictTotal | src/scraper.py:33 | date order is irreflexive, transitive and total on distinct dates |
| Dates.FormatIso | src/notifications.py:13 | ten characters: four year digits, "-", two month digits, "-", two day digits |
| Dates.IsoRoundTrip | src/notifications.py:13 | parsing the rendering of a date gives the date back |
| Dates.IsoInjective | src/notifications.py:13 | distinct dates render to distinct strings |
| Dates.IsoExample | src/notifications.py:13 | 27 October 2023 renders as "2023-10-27" |
| Scraper.ParseArticle | src/scraper.py:19-38 | one pass of the entry loop; its contract is carried by ParseArticleSound, ParseArticleAccepts and the skip lemmas |
| Scraper.ParseArticleSound | src/scraper.py:17-38 | an entry that yields a date has a name without "sold out" and all three fields; each field parses to its component, and the date is valid |
| Scraper.ParseArticleAccepts | src/scraper.py:17-38 | an entry with a clean name and fields that parse to a valid date yields exactly that date |
| Scraper.NamelessSkipped | src/scraper.py:19-22 | an entry without an event name yields nothing |
| Scraper.SoldOutSkipped | src/scraper.py:23-25 | an entry whose lowercased name contains "sold out" yields nothing, whatever its date fields |
| Scraper.SoldOutAnyCase | src/scraper.py:24 | a name containing "SOLD OUT" counts as sold out |
| Scraper.MissingFieldSkipped | src/scraper.py:26-38 | an entry missing its year, month or day yields nothing, because the default 0 never forms a date |
| Scraper.KeptDates | src/scraper.py:17-40 | the dates the entries yield, in order: at most one date per entry |
| Scraper.KeptDatesAppend | src/scraper.py:17-40 | extraction distributes over concatenation of entry lists, so order is document order |
| Scraper.SkippedEntry | src/scraper.py:29-38 | a malformed entry is dropped without affecting the dates of the entries before or after it |
| Scraper.KeptEntry | src/scraper.py:33-34 | a well-formed entry contributes its date exactly at its position |
| Scraper.KeptDatesMembers | src/scraper.py:17-40 | a date is in the result exactly when some entry yields it |
| Scraper.KeptDatesValid | src/scraper.py:33 | every returned date is valid |
| Scraper.ParseHtmlContent | src/scraper.py:12-40 | the loop returns exactly the dates the entries yield, in input order |
| Scraper.FetchConcertDates | src/scraper.py:43-54 | a failed fetch gives the empty list, a fetched page the extracted dates |
| Scraper.SessionExampleParses | src/scraper.py:29-34 | the entry ("Kakaókoncert", "2025.", "October", "11") yields 11 October 2025 |
| Scraper.DuplicateDatesExample | src/scraper.py:34 | two entries of the same date yield that date twice |
| Storage.LoadFrom | src/storage.py:12-19 | an absent key loads as the empty list; a readable body loads as its dates in stored order; an unreadable body is an error that propagates |
| Storage.SaveTo | src/storage.py:21-23 | a save sets the body at its own location and leaves every other location as it was |
| Storage.SaveThenLoad | src/storage.py:21-23 | a save is loaded back exactly |
| Storage.SaveKeepsOthers | src/storage.py:23 | a save changes no other location |
| Storage.LaterSaveWins | src/storage.py:23 | after two saves only the second list is seen |
| Storage.DateCache.constructor | src/storage.py:8-10 | bucket and key are fixed at construction |
| Storage.DateCache.LoadOldDates | src/storage.py:12-19 | loads from the cache's own bucket and key |
| Storage.DateCache.SaveDates | src/storage.py:21-23 | overwrites the cache's own bucket and key with the whole list, and nothing else |
| Storage.SaveIsSeenByAnotherCache | src/storage.py:8-23 | a cache built on the same bucket and key loads what another one saved |
| Notifications.SnsMessage | src/notifications.py:13-17 | the message text; its contract is carried by SnsMessageLines and SnsMessageNoDates |
| Notifications.SnsMessageLines | src/notifications.py:13-17 | the message lines are the headline, "Dátumok:" and one rendered date per line in order, with no trailing newline; n ≥ 1 dates give n + 2 lines |
| Notifications.SnsMessageNoDates | src/notifications.py:13-17 | with no dates the message ends after the label's newline |
| Notifications.SnsMessageExample | src/notifications.py:13-17 | for 27 October 2023 the third line of the SNS body is "2023-10-27", the same `strftime` rendering the Telegram notifier's test expects |
| Notifications.Outbox.Publish | src/notifications.py:19-23 | a delivered publish appends the message to the topic; an undelivered one changes nothing |
| Notifications.SendSnsNotification | src/notifications.py:9-26 | the message is published to the given topic; a failed publish is swallowed and the call returns normally |
| CacheContract.Insert | tests/test_storage.py:127-158 | inserting into an ascending, repeat-free list keeps it so and adds exactly the one date |
| CacheContract.NewDates | tests/test_storage.py:127-162 | the result is ascending with no repeats, and holds exactly the incoming dates that are not cached |
| CacheContract.SortedUnique | tests/test_storage.py:127-162 | two ascending lists with the same members are equal |
| CacheContract.NewDatesIsSortedDifference | tests/test_storage.py:127-162 | the result is the ascending listing of set(incoming) − set(cached) |
| CacheContract.NewDatesEmptyIff | tests/test_storage.py:135-138 | nothing is new exactly when every incoming date is cached |
| CacheContract.NewDatesAllCached | tests/test_storage.py:135-138 | incoming dates that are all cached give the empty list |
| CacheContract.KeyValueStore.Read | tests/test_storage.py:32-37 | a missing key reads as nothing, a present one as its value |
| CacheContract.KeyValueStore.Write | tests/test_storage.py:43-46 | a write replaces the value at its key and nothing else |
| CacheContract.DateCache.constructor | tests/test_storage.py:55-56 | a new cache holds what its key stores, or nothing |
| CacheContract.DateCache.FindNewDates | tests/test_storage.py:127-162 | the incoming dates that are not cached, ascending, each once |
| CacheContract.DateCache.Update | tests/test_storage.py:101-119 | replaces the cached list wholesale and writes it through under the cache's key |
| CacheContract.UpdatePersists | tests/test_storage.py:113-119 | a cache built later on the same store and key sees the last update |
| CacheContract.AllNewWhenCacheEmpty | tests/test_storage.py:128-133 | with nothing cached, all incoming dates are new, ascending |
| CacheContract.DetectsSingleNewDate | tests/test_storage.py:140-144 | one added date is the only new one |
| CacheContract.DetectsMultipleNewDates | tests/test_storage.py:146-158 | three uncached dates out of four come back ascending |
| Service.EmptyScrapeIsNoOp | src/service.py:26-30 | a non-force run after an empty scrape sends and stores nothing |
| Service.ForceRun | src/service.py:32-37 | a force run sends the cached list if it is non-empty, otherwise the scraped one, nothing when both are empty, and never stores |
| Service.NonForceRun | src/service.py:39-46 | a non-force run sends exactly when some scraped date is not cached; it then sends those dates ascending and stores exactly the scrape; otherwise it does nothing |
| Service.Decide | src/service.py:26-46 | no run sends an empty list, and a run stores only when it also sends |
| Service.ScrapedDatesAreCached | src/service.py:39-46 | after a non-force run every scraped date is cached |
| Service.NonForceIdempotent | src/service.py:39-46 | a second non-force run on the same scrape sends and stores nothing |
| Service.Notifier.SendNotification | src/service.py:36 | each request is recorded once, in order |
| Service.ConcertTrackerService.constructor | src/service.py:12-20 | the service's cache is built on the given store and storage key |
| Service.ConcertTrackerService.Run | src/service.py:22-46 | a run sends at most one list and stores what the run decision says, and changes nothing else |
| Service.NewDatesScenario | tests/test_service.py:26-47 | two fresh dates are sent ascending and both stored; the repeat run sends nothing |
| Service.ForceScenario | tests/test_service.py:50-65 | a forced run re-sends a cached date that is not new |
| Service.TwoRunsScenario | tests/test_service.py:26-47 | two runs through the service send one notification and leave both dates cached |
| LambdaFunction.ListArticleTagsContent | lambda_function.py:19-55 | a failed fetch gives []; otherwise the same entry loop, skipping entries without a name or marked sold out, keeping only valid dates |
| LambdaFunction.LambdaMessage | lambda_function.py:64-68 | the message text; its contract is carried by LambdaMessageLines |
| LambdaFunction.LambdaMessageLines | lambda_function.py:64-68 | the message lines are the headline, the indented label, the first date indented by four spaces, then the other dates unindented in order |
| LambdaFunction.SendMessage | lambda_function.py:58-77 | publishes the message to the topic; a failed publish is swallowed |
| LambdaFunction.Unseen | lambda_function.py:90 | the reported dates are exactly those scraped and not stored |
| LambdaFunction.UnseenFacts | lambda_function.py:90-91 | the reported dates are disjoint from the stored ones and a subset of the scraped ones; there are some exactly when some scraped date is not stored |
| LambdaFunction.Enumerate | lambda_function.py:64 | iterating the set visits each element once |
| LambdaFunction.LambdaHandler | lambda_function.py:80-96 | a load error propagates before anything is sent or saved; a notification goes out exactly when some scraped date is not stored, with the new dates, and the scrape is then saved whole, delivery or not; otherwise nothing changes |

## Left out

- HTTP fetching (`requests.get`, `raise_for_status`, the timeout) is not modelled. A fetch is the input `Page`, either the entries of a page or a failure.
- HTML parsing with BeautifulSoup (`find_all`, `find`, `get_text(strip=True)`) is not modelled. An entry is a record of optional, already-stripped texts. The two revisions select entries differently: lambda_function.py:28 takes every `<article>`, and src/scraper.py:14 only those with class `event`. Both models take the already-selected entries of one `Page`, so this difference is not captured.
- The S3 and SNS clients are not modelled. The store is the map `Storage.ObjectStore.objects`. SNS is `Notifications.Outbox`, which records delivered messages. Whether a publish is delivered is a boolean input. The handler's bucket and topic, read from the environment in the source, are parameters.
- Notifications.Outbox.Publish: it does not model SNS's response or the exception's content. A failure only means nothing was delivered.
- The element codec of src/storage.py is not modelled, because neither `dt.date(x)` on a string (line 19) nor `json.dumps` on dates (line 23) encodes a date. A stored body is either a list of dates or a body that cannot be read back.
- Storage.SaveDates: idealised. In the source, `json.dumps(dates)` (src/storage.py:23) raises `TypeError` for a non-empty list of dates, so nothing is written; the model writes the list.
- Storage.SaveThenLoad: idealised. In the source a stored list of ISO strings does not load back, because `dt.date(x)` with one str argument (src/storage.py:19) raises `TypeError`; the model loads the saved dates back.
- LambdaFunction.LambdaHandler: idealised in the same two places, and the exception that `save_dates` raises after the message was published (lambda_function.py:93-94), which ends the handler with the store unsaved, is not modelled; the model saves the scrape after publishing.
- CacheContract.NewDates: dropping repeated new dates is a choice of the model; the tests never contain a new date twice. Service.NonForceRun's "each once" rests on this choice.
- Storage.LoadFrom: every read failure other than a missing key is one error, `ReadFailed`. Malformed JSON, access errors and so on are not told apart.
- The newer `DateCache`'s source is not part of this model. CacheContract is what its tests fix. Its byte serialisation, `LocalStorage` and `S3Storage` are left out. `update` is modelled as keeping the list in the given order, where no test fixes the order of two or more cached dates.
- `src/config.py` and `create_service` (src/service.py:49-54) are configuration wiring with no logic and are not modelled.
- The Telegram notifier is not modelled: message text, webhook parsing, chat-id authorisation, force-flag extraction and status responses. The service's notifier only records the lists it is asked to send.
- Python's `int()`, `str.lower()` and `str.strip()` are modelled on ASCII only. `int()` skips TAB, LF, VT, FF, CR and SPACE around the literal; `str.strip()` also drops the separators 0x1C-0x1F. Unicode digits, Unicode case, underscores in numerals and non-ASCII whitespace are left out.
- Numerals.ParseInt: the limit on the number of digits `int()` accepts (4300 by default in recent CPython, counting leading zeros, and configurable through `PYTHONINTMAXSTRDIGITS` or `sys.set_int_max_str_digits`) is not modelled. A longer digit string parses here, where the source raises `ValueError`; so a year such as 4300 zeros followed by "2025." gives 2025 in `Functions.GetYear` and a kept date in `Scraper.ParseArticle`, and the source drops that entry.
- Dates.FormatIso: years are always padded to four digits; the platform-dependent `%Y` padding for years below 1000 is not modelled.
- LambdaFunction.Enumerate: the order in which the Python set is iterated is left open. The model only states that each new date appears once.
- A string-valued `force` and its truthiness (src/service.py:22) are left out. `force` is a `bool`.
- Logging is left out.
- The `__main__` block of lambda_function.py (lines 99-102) is a manual entry point and is not modelled.
