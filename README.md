# Grab restaurant scraper — a Dafny model

This project models the core of a Java scraper for GrabFood search results.

- For one location, `RestaurantScrapingService.scrape` pages through the search endpoint 26 results at a time.
  - It keeps only merchants whose id starts with `"4-"`.
  - It builds a validated `Restaurant` from each one and counts per-field data quality in a `MetaData`.
  - It stops at a cap of 250, on a failed response, or on a result that is not an array.
- An older variant, `service/RestaurantScraper.scrape`, works on a raw JSON payload string and checks the cap after a page rather than before it.
- The HTTP client `GrabApiClient` makes up to three attempts per request.
- The multi-location layer runs one scraping task per payload and combines the results:
  - `MultiLocationScrapingService` and `api/RestaurantScraper` build the union of the restaurant sets, a map from restaurant id to (delivery fee, delivery time), and the aggregated MetaData reports;
  - `MultiLocationScraper` is the older union over raw payloads.
- `GeoCodingUtil` formats an address for the geocoding URL and reads the first geocoding result.

The model follows the source's own form:
- `Payload`, `MetaData`, the scraping services, the HTTP client and the entry point are classes whose methods change their fields or the client.
- Each loop of the source is a method with a loop, proved against a recursive specification function that mirrors it:
  - `ScrapingService.Loop` for the pagination loop;
  - `LegacyScraper.LegacyLoop` for the older pagination loop;
  - `GrabClient.RetryFrom` for the retry loop;
  - `MultiLocationService.FetchFrom` for the loop that submits tasks;
  - `ScrapingService.BuildPage` for the loop over one page.
- Lemmas about those functions state what the source promises.
- The record validation, the field counters and the address formatting are pure functions.

The network, JSON parsing and number parsing are inputs to the model:
- A `Wire.ScriptedClient` holds the replies the server will give, in order, and records every request sent. Once its script is used up it answers as a failed response.
- `GrabApiClient` holds a script of attempt outcomes instead.
- A search result entry (`Wire.Entry`) holds the texts and numbers `extractRestaurantData` reads from the JSON.
- `Double.parseDouble` of the fee text is a parameter `parseDouble: string -> Option<real>`.
- Rewriting a JSON payload's offset is a parameter `setOffset: (string, int) -> Option<string>`, where `None` stands for a payload that is not a JSON object.
- The geocoding service is a parameter `geocode: string -> GeoReply`.

Files:

| file | module | models |
|---|---|---|
| common.dfy | Common | Option, Result, futures, Java `trim`, `isEmpty` on trimmed text, `startsWith`, and the set of a sequence |
| payload.dfy | PayloadModel | model/Payload.java |
| restaurant.dfy | RestaurantModel | model/Restaurant.java |
| metadata.dfy | MetaDataModel | model/MetaData.java |
| wire.dfy | Wire | the scripted client and the search result entry |
| scraping_service.dfy | ScrapingService | service/RestaurantScrapingService.java |
| legacy_scraper.dfy | LegacyScraper | service/RestaurantScraper.java |
| grab_client.dfy | GrabClient | client/GrabApiClient.java |
| multi_location_service.dfy | MultiLocationService | service/MultiLocationScrapingService.java |
| api.dfy | Api | api/RestaurantScraper.java |
| legacy_multi_location.dfy | LegacyMultiLocation | service/MultiLocationScraper.java |
| geocoding.dfy | GeoCoding | utils/GeoCodingUtil.java, model/Location.java |

Three behaviours of the code are easy to miss:
- An empty result array does not end the pagination: the offset advances and the next page is requested.
- The count can exceed 250, because the cap is not checked in the middle of a page.
- An exception from the client, or an invalid merchant, propagates out of `scrape`. The result is then a failure, not a partial set.

## Model

| member | source | states |
|---|---|---|
| Common.TrimStartFacts | src/main/java/org/webscraper/model/Restaurant.java:31 | removing leading whitespace leaves a suffix of the text that is empty or starts with a non-whitespace character, and everything removed was whitespace (`trim` cuts characters up to U+0020) |
| Common.TrimEndFacts | src/main/java/org/webscraper/model/Restaurant.java:31 | removing trailing whitespace leaves a prefix of the text that is empty or ends with a non-whitespace character, and everything removed was whitespace |
| Common.TrimEmptyIffAllTrimmable | src/main/java/org/webscraper/model/Restaurant.java:31 | `s.trim().isEmpty()` holds exactly when every character of `s` is at most U+0020 |
| Common.ElemsMembers | src/main/java/org/webscraper/service/RestaurantScrapingService.java:68 | the `HashSet` built by adding a sequence of restaurants contains exactly the restaurants of that sequence |
| Common.ElemsBound | src/main/java/org/webscraper/service/RestaurantScrapingService.java:68-69 | the set never has more elements than the additions that built it |
| Common.ElemsAppend | src/main/java/org/webscraper/service/RestaurantScrapingService.java:68 | adding two sequences one after the other gives the union of their sets |
| PayloadModel.Payload.Default | src/main/java/org/webscraper/model/Payload.java:11-12 | the no-argument constructor leaves the three strings null and both ints 0 |
| PayloadModel.Payload.constructor | src/main/java/org/webscraper/model/Payload.java:15-21 | the five-argument constructor stores each argument in its own field, with no validation (any offset and page size are accepted) |
| PayloadModel.Payload.SetLatlng | src/main/java/org/webscraper/model/Payload.java:28-30 | only `latlng` changes, and it holds the new value, which the getter then returns |
| PayloadModel.Payload.SetKeyword | src/main/java/org/webscraper/model/Payload.java:36-38 | only `keyword` changes, to the new value |
| PayloadModel.Payload.SetOffset | src/main/java/org/webscraper/model/Payload.java:44-46 | only `offset` changes, to the new value, negative values included |
| PayloadModel.Payload.SetPageSize | src/main/java/org/webscraper/model/Payload.java:52-54 | only `pageSize` changes, to the new value |
| PayloadModel.Payload.SetCountryCode | src/main/java/org/webscraper/model/Payload.java:60-62 | only `countryCode` changes, to the new value |
| RestaurantModel.NewRestaurant | src/main/java/org/webscraper/model/Restaurant.java:30-49 | construction succeeds exactly when all six checks pass and then yields the given components; each exception is thrown exactly when its check is the first one to fail (blank name, blank cuisine, rating outside [0, 5], negative delivery time, negative distance, blank id); the other seven components are never checked |
| RestaurantModel.BlankMeansOnlyTrimmable | src/main/java/org/webscraper/model/Restaurant.java:31-36 | a text fails the null-or-blank checks exactly when it is null or made only of characters at most U+0020 |
| RestaurantModel.SameIdOtherRatingIsDistinct | src/main/java/org/webscraper/model/Restaurant.java:10-24 | record equality is component-wise: the same restaurant with another rating is a different value, and a set keeps both |
| MetaDataModel.FieldOf | src/main/java/org/webscraper/model/MetaData.java:47-61 | the string switch selects only a field whose label is the given name |
| MetaDataModel.FieldOfKey | src/main/java/org/webscraper/model/MetaData.java:47-61 | every field is selected by its own label, `"estimatedDeliveryTimeMinutes"` included |
| MetaDataModel.FieldOfSelects | src/main/java/org/webscraper/model/MetaData.java:47-61 | the switch selects field g exactly for g's label, and selects no field exactly when the name is no field's label |
| MetaDataModel.IncrementAtKnownKey | src/main/java/org/webscraper/model/MetaData.java:46-80 | incrementing by a field's label counts one more null (or not-null) observation of that field |
| MetaDataModel.IncrementAtUnknownKey | src/main/java/org/webscraper/model/MetaData.java:46-80 | a name with no `case` changes no counter, since there is no default branch |
| MetaDataModel.AddOnlyChangesField | src/main/java/org/webscraper/model/MetaData.java:46-80 | one more observation of a field raises exactly one of that field's counters by one; the total and the other 24 counters stay as they were |
| MetaDataModel.WithOnlyChangesField | src/main/java/org/webscraper/model/MetaData.java:10-35 | replacing one field's counter pair leaves the total and every other pair alone |
| MetaDataModel.ZeroCounts | src/main/java/org/webscraper/model/MetaData.java:9-35 | the total and all 26 per-field counters are zero |
| MetaDataModel.MetaData.constructor | src/main/java/org/webscraper/model/MetaData.java:37-39 | the location is stored and all 27 counters start at zero; the location is a constant that no method changes |
| MetaDataModel.MetaData.IncrementTotalCount | src/main/java/org/webscraper/model/MetaData.java:42-44 | the total rises by one and nothing else changes |
| MetaDataModel.MetaData.IncrementNullCount | src/main/java/org/webscraper/model/MetaData.java:46-62 | the counters become those of one more null observation of the named field, or stay unchanged for an unknown name |
| MetaDataModel.MetaData.IncrementNotNullCount | src/main/java/org/webscraper/model/MetaData.java:64-80 | the same for the not-null side |
| MetaDataModel.MetaData.GetLocation | src/main/java/org/webscraper/model/MetaData.java:82-84 | returns the location and changes nothing |
| MetaDataModel.MetaData.GetTotalCount | src/main/java/org/webscraper/model/MetaData.java:86-88 | returns the total and changes nothing |
| MetaDataModel.MetaData.GetNullCount | src/main/java/org/webscraper/model/MetaData.java:90-188 | returns the null counter of the given field and changes nothing; it stands for the thirteen `get...NullCount` getters |
| MetaDataModel.MetaData.GetNotNullCount | src/main/java/org/webscraper/model/MetaData.java:94-192 | returns the not-null counter of the given field and changes nothing; it stands for the thirteen `get...NotNullCount` getters |
| ScrapingService.StripCurrency | src/main/java/org/webscraper/service/RestaurantScrapingService.java:116 | deleting `"S$"` never lengthens the text |
| ScrapingService.StripCurrencyWithoutMarker | src/main/java/org/webscraper/service/RestaurantScrapingService.java:116 | a text without `"S$"` is left as it is |
| ScrapingService.StripCurrencyAppend | src/main/java/org/webscraper/service/RestaurantScrapingService.java:116 | `replace("S$", "")` works piece by piece: the marker alone becomes empty, and a text is stripped as its two parts stripped separately whenever the first part does not end in an 'S' |
| ScrapingService.StripCurrencySinglePass | src/main/java/org/webscraper/service/RestaurantScrapingService.java:116 | the deletion is one left-to-right pass: `"SS$$"` becomes `"S$"`, and `"S$5.00"` becomes `"5.00"` |
| ScrapingService.CandidateExtraction | src/main/java/org/webscraper/service/RestaurantScrapingService.java:95-138 | `ExtractRestaurantData`: for a `"4-"` entry, extraction fails exactly when the name or cuisine is blank, the rating is outside [0, 5], or the time or distance is negative; on success the id is the entry's, and the fee is absent exactly when the price text is empty or does not parse after `"S$"` is removed; a parse failure is not an error |
| ScrapingService.ExtractedIsExtracted | src/main/java/org/webscraper/service/RestaurantScrapingService.java:95-138 | `ExtractRestaurantData`: a restaurant extracted from a `"4-"` entry is valid, has a `"4-"` id, and has a promo description and closing-soon text, even empty ones |
| ScrapingService.ExtractedNullFields | src/main/java/org/webscraper/service/RestaurantScrapingService.java:140-209 | for an extracted restaurant only the image link and the fee can be counted as null |
| ScrapingService.TallyRecordsEachField | src/main/java/org/webscraper/service/RestaurantScrapingService.java:140-209 | one `updateMetaData` raises the total by one and, for each of the 13 fields, exactly one of its counters: the null counter when the field is missing or blank, otherwise the not-null counter |
| ScrapingService.TallyAllCounts | src/main/java/org/webscraper/service/RestaurantScrapingService.java:67-69 | recording a sequence of restaurants raises the total by its length, and each field's null counter by the number of restaurants lacking that field and its not-null counter by the rest |
| ScrapingService.AlwaysPresentNeverNull | src/main/java/org/webscraper/service/RestaurantScrapingService.java:158-194 | rating, delivery time, distance, the promo flag, latitude and longitude are never counted as null |
| ScrapingService.TallyAllAppend | src/main/java/org/webscraper/service/RestaurantScrapingService.java:64-71 | recording two pages one after the other is recording their concatenation |
| ScrapingService.BuildPageFacts | src/main/java/org/webscraper/service/RestaurantScrapingService.java:64-71 | a page that completes builds one restaurant per `"4-"` entry, and a page that fails builds fewer; every restaurant built is an extracted one |
| ScrapingService.BuildPageFailureSticks | src/main/java/org/webscraper/service/RestaurantScrapingService.java:66 | once an entry fails validation, nothing after it on the page is built |
| ScrapingService.NoCandidatesBuildNothing | src/main/java/org/webscraper/service/RestaurantScrapingService.java:64-71 | a page without `"4-"` entries builds nothing and changes no state |
| ScrapingService.RequestsArePaged | src/main/java/org/webscraper/service/RestaurantScrapingService.java:52-57 | the k-th request has offset 26·k and page size 26, and copies latlng, keyword and country code from the caller's payload |
| ScrapingService.LoopBounds | src/main/java/org/webscraper/service/RestaurantScrapingService.java:55-80 | from any state the loop only extends the requests and restaurants; a state below the cap sends at least one more request; a cap stop has at least 250 restaurants; from below the cap it ends below 250 plus the largest page |
| ScrapingService.CountBounds | src/main/java/org/webscraper/service/RestaurantScrapingService.java:55-72 | a scrape sends between one request and one more than the replies scripted; the count never exceeds 250 by a whole page (it ends below 250 plus the largest page) |
| ScrapingService.EmptyArrayContinues | src/main/java/org/webscraper/service/RestaurantScrapingService.java:63-72 | an array without `"4-"` entries, the empty array included, only advances the offset by 26 and the loop goes on |
| ScrapingService.TurnBound | src/main/java/org/webscraper/service/RestaurantScrapingService.java:59-79 | one turn builds no more restaurants than its page holds, and only extracted ones |
| ScrapingService.RunBuildsExtracted | src/main/java/org/webscraper/service/RestaurantScrapingService.java:64-71 | every restaurant a scrape returns is valid and has a `"4-"` id |
| ScrapingService.SetNoLargerThanCount | src/main/java/org/webscraper/service/RestaurantScrapingService.java:68-69 | the returned set has no more restaurants than `count`, since structurally equal restaurants collapse |
| ScrapingService.RestaurantScrapingService.Scrape | src/main/java/org/webscraper/service/RestaurantScrapingService.java:50-83 | the requests sent are the run's paged requests, the MetaData has recorded exactly the restaurants built (duplicates included), and the result is their set with the MetaData, or the exception that ended the loop |
| ScrapingService.RestaurantScrapingService.NextPage | src/main/java/org/webscraper/service/RestaurantScrapingService.java:56-79 | one pass of the `while` body: sends the request for the current offset and records and adds what that page builds |
| ScrapingService.RestaurantScrapingService.ScrapeEntries | src/main/java/org/webscraper/service/RestaurantScrapingService.java:64-71 | the `for` loop over one page: non-`"4-"` entries change nothing; the rest are extracted, recorded, added and counted until one fails |
| ScrapingService.RestaurantScrapingService.PrepareExistingPayload | src/main/java/org/webscraper/service/RestaurantScrapingService.java:85-93 | a new payload with the given offset, page size 26, and the caller's latlng, keyword and country code |
| ScrapingService.RestaurantScrapingService.UpdateMetaData | src/main/java/org/webscraper/service/RestaurantScrapingService.java:140-209 | the MetaData counters become those of one more recorded restaurant: the total and exactly one counter per field |
| ScrapingService.RestaurantScrapingService.RecordNameAndCuisine | src/main/java/org/webscraper/service/RestaurantScrapingService.java:142-155 | the total, then name and cuisine: null when missing or blank after trim |
| ScrapingService.RestaurantScrapingService.RecordFigures | src/main/java/org/webscraper/service/RestaurantScrapingService.java:158-167 | rating, delivery time, distance and the promo flag are counted as present |
| ScrapingService.RestaurantScrapingService.RecordTexts | src/main/java/org/webscraper/service/RestaurantScrapingService.java:170-188 | the promo description is null only when absent; image link and id are null when missing or blank |
| ScrapingService.RestaurantScrapingService.RecordPlaceAndExtras | src/main/java/org/webscraper/service/RestaurantScrapingService.java:191-208 | latitude and longitude are counted as present; fee and closing-soon text are null only when absent |
| LegacyScraper.LegacyRequestsChain | src/main/java/org/webscraper/service/RestaurantScraper.java:27-70 | the first request is the caller's payload unchanged (the address is never read), and each later request is the previous one with its offset rewritten to the next multiple of 26 |
| LegacyScraper.LegacyOffsets | src/main/java/org/webscraper/service/RestaurantScraper.java:64-70 | when the rewrite always succeeds, the k-th later request carries offset 26·k |
| LegacyScraper.LegacyInvalidJsonResends | src/main/java/org/webscraper/service/RestaurantScraper.java:92-101 | when the payload is not a JSON object, every request re-sends it unchanged |
| LegacyScraper.LegacyCountBounds | src/main/java/org/webscraper/service/RestaurantScraper.java:39-78 | one to one more than the scripted replies are sent; a cap stop has at least 250 restaurants; the count ends below 250 plus the largest page |
| LegacyScraper.LegacyEmptyArrayContinues | src/main/java/org/webscraper/service/RestaurantScraper.java:48-70 | an array without `"4-"` entries advances the offset, rewrites the payload and goes on |
| LegacyScraper.LegacyRunAgreesWithServiceRun | src/main/java/org/webscraper/service/RestaurantScraper.java:39-78 | over the same replies the two variants build the same restaurants, stop for the same reason and send as many requests: checking the cap after a page instead of before the next one changes nothing |
| LegacyScraper.LegacyOverNullClient | src/main/java/org/webscraper/service/RestaurantScraper.java:42-77 | a null or unsuccessful first response ends the scrape after one request with an empty set |
| LegacyScraper.LegacyRunBuildsExtracted | src/main/java/org/webscraper/service/RestaurantScraper.java:57-61 | every restaurant returned is valid and has a `"4-"` id |
| LegacyScraper.LegacyRestaurantScraper.Scrape | src/main/java/org/webscraper/service/RestaurantScraper.java:27-81 | the requests sent are the run's chained payloads, and the result is the set of the restaurants built, or the exception that ended the loop |
| LegacyScraper.LegacyRestaurantScraper.AddPage | src/main/java/org/webscraper/service/RestaurantScraper.java:49-62 | the `for` loop over one page: `"4-"` entries are extracted, added and counted until one fails |
| LegacyScraper.LegacyRestaurantScraper.PreparePayloadFromExistingPayload | src/main/java/org/webscraper/service/RestaurantScraper.java:92-101 | the payload with its offset rewritten, or the payload unchanged when it is not a JSON object |
| GrabClient.RetryReturnsFirstSuccess | src/main/java/org/webscraper/client/GrabApiClient.java:54-74 | between 1 and 3 attempts are made, and every attempt before the last failed and waited out its delay; the result is a response exactly when the last attempt succeeded, and it is that successful response; the InterruptedException of the `catch` block's sleep is thrown exactly when the last attempt's delay was interrupted there, possibly after fewer than 3 attempts; "max retries exceeded" is thrown exactly when 3 attempts failed and were waited out |
| GrabClient.RetryFromIsFirstStop | src/main/java/org/webscraper/client/GrabApiClient.java:56-72 | the loop ends at the first attempt that succeeds or whose `catch`-block sleep (:70) is interrupted, after exactly that many attempts, returning that response or throwing the interruption; an unsuccessful response or an I/O error whose delays complete costs one attempt, and an interrupted sleep after an unsuccessful response (:65) is caught and costs one attempt too |
| GrabClient.FirstStopIsLeast | src/main/java/org/webscraper/client/GrabApiClient.java:59-72 | the attempt the loop ends at is the earliest among the first three that succeeds or has its `catch`-block sleep interrupted |
| GrabClient.RetriedNeverRefused | src/main/java/org/webscraper/client/GrabApiClient.java:59-73 | a caller never receives an unsuccessful response, and every failure reaches it as an exception (max retries exceeded, or an interrupted delay); it receives a response exactly when one of the first three attempts succeeds and no earlier attempt's delay escaped as an interruption |
| GrabClient.InterruptedDelayEndsEarly | src/main/java/org/webscraper/client/GrabApiClient.java:67-71 | an I/O error whose `catch`-block sleep is interrupted ends the call after one attempt, although the next attempt would have succeeded; when that sleep completes, the second attempt's response is returned |
| GrabClient.GrabApiClient.MakeRawRequest | src/main/java/org/webscraper/client/GrabApiClient.java:33-36 | always returns null and sends nothing |
| GrabClient.GrabApiClient.MakeRequest | src/main/java/org/webscraper/client/GrabApiClient.java:38-52 | a null payload throws before any attempt and changes nothing; otherwise the payload is sent once per attempt and the retry loop's result is returned |
| GrabClient.GrabApiClient.ExecuteRequestWithRetry | src/main/java/org/webscraper/client/GrabApiClient.java:54-74 | the result and the number of attempts are those of the retry specification, an interrupted `catch`-block sleep included, and the same request is sent once per attempt |
| MultiLocationService.StartedAcceptsTasks | src/main/java/org/webscraper/service/MultiLocationScrapingService.java:44-48 | after `startService` the pool accepts tasks; the pool is replaced exactly when the old one was shut down or terminated |
| MultiLocationService.StopIsIdempotent | src/main/java/org/webscraper/service/MultiLocationScrapingService.java:53-61 | `stopService` leaves the pool shut down, also when its wait is interrupted; the pool is terminated afterwards exactly when it already was or its tasks finished in time, and an interrupted stop leaves it not terminated; a second stop changes nothing and never throws |
| MultiLocationService.MultiLocationScrapingService.constructor | src/main/java/org/webscraper/service/MultiLocationScrapingService.java:35-39 | stores the client and starts with a running pool |
| MultiLocationService.MultiLocationScrapingService.StartService | src/main/java/org/webscraper/service/MultiLocationScrapingService.java:44-48 | the pool becomes the started pool |
| MultiLocationService.MultiLocationScrapingService.StopService | src/main/java/org/webscraper/service/MultiLocationScrapingService.java:53-61 | the pool becomes the stopped pool, terminated or not according to whether its tasks finished within the timeout; the InterruptedException of `awaitTermination` is thrown exactly when a running pool's wait is interrupted, and `shutdownNow` is then skipped |
| MultiLocationService.FetchOnePerPayload | src/main/java/org/webscraper/service/MultiLocationScrapingService.java:69-83 | one future per payload, in payload order; each completed future holds a MetaData made for its own payload's latlng that has counted at least as many restaurants as its set holds |
| MultiLocationService.MultiLocationScrapingService.FetchScrapedData | src/main/java/org/webscraper/service/MultiLocationScrapingService.java:69-84 | a shut-down pool rejects a non-empty list and nothing is sent; otherwise the futures are those of one task per payload, run in payload order over the shared client |
| MultiLocationService.MultiLocationScrapingService.RunTask | src/main/java/org/webscraper/service/MultiLocationScrapingService.java:72-80 | a task runs a fresh scraper with a fresh MetaData for the payload's latlng; a thrown exception becomes a failed future |
| MultiLocationService.LastHolderIsLast | src/main/java/org/webscraper/service/MultiLocationScrapingService.java:94-107 | an id occurs in some future exactly when it has a last holder, which holds that id while no later future does |
| MultiLocationService.FeeTimeMapSnoc | src/main/java/org/webscraper/service/MultiLocationScrapingService.java:94-107 | processing one more future over the map of the earlier ones gives the map of all of them: later puts win |
| MultiLocationService.OverwritesStep | src/main/java/org/webscraper/service/MultiLocationScrapingService.java:99-102 | one more `put` for a restaurant keeps the map a correct overwrite of the set so far |
| MultiLocationService.NothingOverwritesNothing | src/main/java/org/webscraper/service/MultiLocationScrapingService.java:96-103 | a future that failed or holds null leaves the map unchanged |
| MultiLocationService.UniqueIdMapsToItsPair | src/main/java/org/webscraper/service/MultiLocationScrapingService.java:98-103 | a restaurant whose id no other restaurant shares maps to its own fee (0.0 if absent) and delivery time |
| MultiLocationService.AllIdsMembers | src/main/java/org/webscraper/service/MultiLocationScrapingService.java:98-103 | the id of every restaurant of every completed future is a key of the map |
| MultiLocationService.MultiLocationScrapingService.ProcessScrapedData | src/main/java/org/webscraper/service/MultiLocationScrapingService.java:92-110 | the keys are exactly the ids of the restaurants of the completed futures; each maps to the fee (0.0 if absent) and delivery time of a restaurant with that id in the last future that has one; failed and null futures add nothing |
| MultiLocationService.MultiLocationScrapingService.PutAll | src/main/java/org/webscraper/service/MultiLocationScrapingService.java:99-102 | the `forEach` over one set adds each of its ids with the pair of one of its restaurants, and leaves every other key alone |
| MultiLocationService.AggregateReportFails | src/main/java/org/webscraper/service/MultiLocationScrapingService.java:117-140 | the reports are produced exactly when no future failed; otherwise the cause of the first failed future is thrown |
| MultiLocationService.AggregateReportStops | src/main/java/org/webscraper/service/MultiLocationScrapingService.java:118-119 | once a future has failed, the futures after it make no difference |
| MultiLocationService.MultiLocationScrapingService.GenerateAggregateMetaData | src/main/java/org/webscraper/service/MultiLocationScrapingService.java:117-140 | the futures are joined in order, null results are skipped, and the first failure propagates |
| Api.UnionOfMembers | src/main/java/org/webscraper/api/RestaurantScraper.java:50-59 | a restaurant is in the union exactly when some future that completed with a value holds it |
| Api.ScrapeLocationsFailsIffATaskFailed | src/main/java/org/webscraper/api/RestaurantScraper.java:46-64 | `scrapeLocations` returns exactly when no future failed, and then returns every restaurant of every future; a failed future skipped by the union still makes the later aggregate step throw |
| Api.FetchedRestaurantsAreExtracted | src/main/java/org/webscraper/api/RestaurantScraper.java:46-64 | every restaurant returned for several locations is valid and has a `"4-"` id |
| Api.RestaurantScraper.constructor | src/main/java/org/webscraper/api/RestaurantScraper.java:33-36 | the given map becomes the initial fee and time map |
| Api.RestaurantScraper.ScrapeLocations | src/main/java/org/webscraper/api/RestaurantScraper.java:46-64 | a rejected submission changes nothing; otherwise the fee and time map is replaced, not merged, by the processed map of the fetched futures, and the result is the union or the failure |
| Api.RestaurantScraper.UniteSets | src/main/java/org/webscraper/api/RestaurantScraper.java:50-59 | the loop adds the set of every future that completed with a value, skipping failed and null ones |
| Api.RestaurantScraper.ShowEstimatedFeeTime | src/main/java/org/webscraper/api/RestaurantScraper.java:71-79 | a known id gives its pair, an unknown one throws, and nothing changes |
| LegacyMultiLocation.CollectedMembers | src/main/java/org/webscraper/service/MultiLocationScraper.java:50-57 | a restaurant is collected exactly when some task that did not fail returned it; a failed task counts as an empty set |
| LegacyMultiLocation.LegacyScrapeLocationsFacts | src/main/java/org/webscraper/service/MultiLocationScraper.java:31-57 | one task per payload, and every restaurant collected is valid with a `"4-"` id |
| LegacyMultiLocation.MultiLocationScraper.ScrapeLocations | src/main/java/org/webscraper/service/MultiLocationScraper.java:31-67 | a shut-down pool rejects a non-empty list; otherwise each payload is scraped in order with a null address, the pool is shut down, and the union is returned unless the wait was interrupted; `locations` is never read |
| LegacyMultiLocation.MultiLocationScraper.SubmitAll | src/main/java/org/webscraper/service/MultiLocationScraper.java:34-47 | one task per payload, in order, each running the legacy scrape over the shared client |
| LegacyMultiLocation.MultiLocationScraper.CollectAll | src/main/java/org/webscraper/service/MultiLocationScraper.java:50-57 | the union of the sets of all tasks that did not fail |
| GeoCoding.FormatAddressPiecewise | src/main/java/org/webscraper/utils/GeoCodingUtil.java:72-74 | `FormatAddress` works character by character: each character outside ASCII letters, digits, `\s` and comma is deleted, each space becomes '+', and every other character (tab and newline included) is kept in order |
| GeoCoding.FormatAddressShape | src/main/java/org/webscraper/utils/GeoCodingUtil.java:73 | the output of `FormatAddress` has one character per kept character, contains no space, and consists only of kept characters and '+' |
| GeoCoding.DropUnkeptKeeps | src/main/java/org/webscraper/utils/GeoCodingUtil.java:73 | what survives the deletion consists of kept characters of the input, and an input of kept characters only survives whole |
| GeoCoding.FormatTwiceIffNoSpace | src/main/java/org/webscraper/utils/GeoCodingUtil.java:73 | formatting is idempotent on an address exactly when no space survives the deletion, since the '+' written for a space is deleted by a second pass |
| GeoCoding.FormatTwiceDiffers | src/main/java/org/webscraper/utils/GeoCodingUtil.java:73 | "a b" formats to "a+b", which formats to "ab" |
| GeoCoding.GetCountryCode | src/main/java/org/webscraper/utils/GeoCodingUtil.java:61-64 | the country code when the result has an address object that has one, "" otherwise |
| GeoCoding.GetLocationOutcomes | src/main/java/org/webscraper/utils/GeoCodingUtil.java:31-53 | `GetLocationFromAddress` gives null exactly for an empty result array; a Location exactly when the first element is an object with both coordinates, built from them and its country code; each exception (the client's IOException, an unexpected code, an interruption, a body that is not an array, a first element that is not an object) exactly on its own failure |
| GeoCoding.FirstResultOnly | src/main/java/org/webscraper/utils/GeoCodingUtil.java:31-53 | `GetLocationFromAddress` reads only the first result: results that agree on their first element give the same location, and a location is returned exactly when that element is an object with both coordinates |
| GeoCoding.SameFormatSameLocation | src/main/java/org/webscraper/utils/GeoCodingUtil.java:32-33 | the service sees only the formatted address: addresses that format alike are geocoded alike |

## Left out

- Concurrency: the thread pools run tasks in parallel and interleave their requests on the shared client; the model runs them one after another in payload order over one scripted client, so the order of requests across tasks is one possible interleaving.
- Thread and pool sizes (`THREAD_COUNT`), the 30-second task and termination timeouts, the rate-limit sleeps and the length of the retry delay are timing and are not modelled (whether a retry sleep is interrupted is part of each scripted attempt); `stopService`'s wait is a parameter saying whether all tasks finished in time, the timeout passed, or the wait was interrupted; what `shutdownNow` does to running tasks is not modelled, since tasks run one after another.
- HTTP, OkHttp, `Client.java`, `GeoCodeClient.java` and request building are I/O: replies and attempt outcomes are scripted, and a script that is used up answers as a failed response (for the scrapers) or an I/O error whose retry delay completes (for the retry loop).
- Jackson and org.json parsing are library calls: an entry is a record of the values `extractRestaurantData` reads, the `isArray` test is the `NotArray` reply, a body Jackson cannot parse (where `readTree` throws out of `scrape` after the request was sent) is folded into the `Raised` reply, and the offset rewrite of a JSON payload is the `setOffset` parameter.
- `Double.parseDouble` and all floating point: doubles are `real`, the fee parse is the `parseDouble` parameter, and NaN, infinities and rounding are not modelled.
- Java `int` overflow of `offset`, `count` and the MetaData counters is not modelled: they are unbounded integers.
- `preparePayload(Location)` and its `%f` formatting in service/RestaurantScraper.java are unused by `scrape` and not modelled.
- Logging, the console printing of `generateAggregateMetaData`, `FileUtil` and `Main` are output and wiring.
- A null element in a list of payloads is not modelled (payload lists hold non-null objects); a null address passed to `formatAddress` is not modelled.
- `ScrapedData` and `Location` are plain records and are datatypes; `ScrapedData` carries the MetaData's counters as a value taken when the scrape ends.
- MetaDataModel.MetaData.GetNullCount: the 26 per-field getters are two methods taking the field.
- ScrapingService.RestaurantScrapingService.UpdateMetaData: its thirteen checks are grouped into four helper steps that count fields directly rather than through the string names; the string-keyed increments are proved to select the same counters.
- MultiLocationService.MultiLocationScrapingService.ProcessScrapedData: the iteration order of each `HashSet` is not modelled, so when two restaurants of one future share an id the map holds the pair of one of them, not a determined one.
- `CompletionException` and `ScrapingException` wrapping: a failed future carries the scrape's own error.
- `GeoCodingUtil.getLocationFromAddress`'s call through the shared static client is the `geocode` parameter. Its replies cover the client's `IOException`, an unsuccessful response, an interruption, a body that is not a JSON array and a first element that is not an object, each ending in its own error; a result whose `lat` or `lon` is missing is modelled as the `getDouble` exception.
