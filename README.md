# MTA subway arrival tool — Dafny model

This project models the core of the `mta_subway_tracker` tool server. Its one
tool, `get_next_mta_train`, takes a target station name, a target direction
code ("N" or "S") and a GTFS-realtime feed id (default `"1"`). It loads the
feed, flattens each trip into a record of line, direction and stop-time updates,
and renders every predicted arrival as `HH:MM:SS`. It then answers with one
sentence for each stop-time update whose stop is the target station on a trip
that runs in the target direction. A failed fetch, an empty feed and a feed
with no match each get a fixed sentence instead.

Modules:

- `Wrappers`: the `Option` type that stands for Python's `None`-or-value.
- `TimeFormat`: `strftime("%H:%M:%S")` on the clock part of an arrival instant,
  and a parser. The parser is not in the program. It is the inverse that shows
  the rendering is injective and loses nothing.
- `Subway`: the feed and record datatypes, plus `convert_datetime_to_string`
  and `get_train_info_list`. `get_train_info_list` is a method with a loop,
  proved equal to the function `TrainInfoList`.
  - `get_next_mta_train` is the method `GetNextMtaTrain`. Its two loops are the
    methods `MatchLines` and `TripLines`.
  - Each method is proved equal to a specification function:
    `GetTrainInfoList` to `TrainInfoList`, `GetNextMtaTrain` to `NextTrain`,
    and `MatchLines` and `TripLines` to `Render` of `Sightings` and of
    `TripSightings`.
- `SubwayProperties`: what the answer promises. Lemmas state which pairs
  produce a line, in what order, how many lines there are, what each line says,
  and when the fallback sentences appear. One independent definition underlies
  them: "update `j` of trip `i` matches" (`IsMatchingPair`), with its count
  (`MatchCount`).

The feed fetch is a parameter: `FetchOutcome` is either the trips the decoder
delivered, or the text of the exception raised while fetching.

## Model

| member | source | states |
|---|---|---|
| Subway.ConvertDatetimeToString | subway.py:22-25 | The result is `None` exactly when the input is `None`. A present instant becomes a non-empty, newline-free string that parses back to that same clock time. |
| TimeFormat.ParseFormat | subway.py:25 | Parsing the `%H:%M:%S` rendering of any clock time gives back that time. |
| TimeFormat.FormatParse | subway.py:25 | Every string the parser accepts is exactly the rendering of the time it returns, so rendering and parsing are inverse. |
| TimeFormat.FormatHms | subway.py:25 | The rendering is always eight characters: two colons at positions 2 and 5, and decimal digits everywhere else. |
| Subway.StopInfoOf | subway.py:39 | One flattened update: the stop name, and the arrival passed through `ConvertDatetimeToString`. Its properties are stated by `Subway.TrainInfoList`. |
| Subway.StopInfoList | subway.py:38-41 | The comprehension over a trip's updates: one flattened update per update, in order. |
| Subway.TrainInfoOf | subway.py:32-41 | One flattened trip: its route as `line`, its direction, and its flattened updates. |
| Subway.TrainInfoList | subway.py:29-43 | One record per trip, in feed order. Each record keeps the route as `line` and keeps the direction. It keeps as many updates as the trip has, each with the same stop name. Each arrival is rendered, and is present exactly when the feed has one. |
| Subway.GetTrainInfoList | subway.py:29-43 | The loop that appends one record per trip returns exactly `TrainInfoList` of its input. |
| Subway.TripLines | subway.py:84-96 | The inner loop over one trip's updates returns the sentences of that trip's matches, in update order. A trip in another direction gives the empty string. |
| Subway.MatchLines | subway.py:82-96 | The nested loops return the concatenated sentences of all matches, trip by trip and then update by update. |
| Subway.StopSightings | subway.py:84-92 | The matches among one trip's updates, in update order. An update matches when its stop is the target station, and then carries the trip's line and the update's arrival. Its properties are stated by `SubwayProperties.StopSightingsSound`, `StopSightingsComplete` and `StopSightingsCount`. |
| Subway.TripSightings | subway.py:84-88 | A trip's matches: none unless it runs in the target direction. |
| Subway.Sightings | subway.py:83-92 | All matches of the snapshot, trip by trip. Its properties are stated by `SubwayProperties.SightingsSound`, `SightingsComplete` and `SightingsCount`. |
| Subway.Truthy | subway.py:93 | Python truthiness of the rendered arrival: present and not the empty string. |
| Subway.ArrivingSentence | subway.py:94 | The arrival sentence in the program's wording: direction, line, station and arrival time, ending in ".\n". |
| Subway.UnavailableSentence | subway.py:96 | The unavailable sentence in the program's wording: direction, line and station, ending in "available.\n". |
| Subway.Sentence | subway.py:93-96 | The line for one match: the arrival sentence when the arrival is truthy, the unavailable sentence otherwise. Every such line is non-empty. |
| Subway.FetchFailedMessage | subway.py:76 | The failure sentence: the feed id and the error text in the program's wording. |
| Subway.EmptyFeedMessage | subway.py:79 | The empty-feed sentence: the feed id in the program's wording. |
| Subway.NoMatchMessage | subway.py:98 | The no-match sentence: direction, station and feed id in the program's wording. |
| Subway.GetNextMtaTrain | subway.py:68-99 | On every path the method returns `NextTrain` of its fetch outcome: the failure sentence, the empty-feed sentence, the no-match sentence or the match lines. |
| Subway.NextTrain | subway.py:68-99 | The answer to any fetch outcome is never the empty string. |
| Subway.Report | subway.py:97-99 | The answer over a non-empty snapshot is never empty. The no-match sentence replaces an empty accumulation. |
| Subway.Render | subway.py:82-96 | The accumulated text is empty exactly when there is no match. |
| Subway.RenderStep | subway.py:93-96 | Appending the arriving sentence (truthy arrival) or the unavailable sentence (any other arrival) to the text so far gives the text with one more match. |
| Subway.RenderAppend | subway.py:82-96 | The text of two runs of matches is the text of the first followed by the text of the second. |
| Subway.ConcatAppend | subway.py:94-96 | Accumulating two runs of sentences with `+=` is accumulating each run and joining them. |
| Subway.TripSightingsStep | subway.py:84-92 | One more update of a trip adds a match exactly when its stop is the station and the trip runs in the direction. Otherwise the matches are unchanged. |
| Subway.SightingsPrefixStep | subway.py:83-84 | One more trip appends that trip's matches after those of the earlier trips. |
| Subway.MatchLinesStep | subway.py:83-96 | After one more trip, the text so far plus that trip's text is the text of the longer prefix. |
| SubwayProperties.StopSightingsAppend | subway.py:84-88 | The matches of consecutive runs of updates are the matches of each run, in order. |
| SubwayProperties.SightingsAppend | subway.py:83-88 | The matches of a snapshot split in two are the first part's matches followed by the second part's. |
| SubwayProperties.OtherDirectionSilent | subway.py:85-88 | Inserting a trip in another direction anywhere in the snapshot changes no match, whatever its stops. |
| SubwayProperties.StopSightingsSound | subway.py:84-88 | Every match of a trip comes from one of its updates at the station, with that update's arrival. |
| SubwayProperties.StopSightingsComplete | subway.py:84-88 | Every update at the station yields a match of the trip. |
| SubwayProperties.SightingsSound | subway.py:83-92 | Every match comes from a (trip, update) pair whose stop is the station and whose trip runs in the direction. It carries that trip's line and that update's arrival. |
| SubwayProperties.SightingsComplete | subway.py:83-92 | Every such pair yields a match carrying its line and arrival. |
| SubwayProperties.StopSightingsCount | subway.py:38-41 | A trip gets as many matches as it has updates at the station. |
| SubwayProperties.SightingsCount | subway.py:81-88 | There are exactly as many matches as matching pairs of the raw feed, duplicates included. |
| SubwayProperties.RenderEndsInNewline | subway.py:94-96 | The text of at least one match ends in a newline. |
| SubwayProperties.SentenceNewlines | subway.py:93-96 | With newline-free inputs, each match line holds exactly one newline. |
| SubwayProperties.RenderNewlines | subway.py:82-96 | With newline-free inputs, the accumulated text holds exactly one newline per match. |
| SubwayProperties.FetchFailedReport | subway.py:75-76 | A failed fetch is answered with "Failed to load MTA feed data for feed ID <id>: <error>", whatever the station and direction. |
| SubwayProperties.EmptyFeedReport | subway.py:78-79 | An empty feed is answered with "No train data found for feed ID <id>.", whatever the station and direction. |
| SubwayProperties.MatchingPreserved | subway.py:29-43 | Flattening keeps the matching test: a pair matches on the records exactly when it matches on the raw feed. |
| SubwayProperties.NoMatchIff | subway.py:83-98 | Over a non-empty feed, the answer is the no-match sentence if and only if no update is at the station on a trip in the direction. |
| SubwayProperties.LineCount | subway.py:83-99 | With a match, and with a newline-free station, direction and route id on every trip in the target direction, the answer holds one newline per matching pair and ends in a newline. |
| SubwayProperties.ReportOfMatches | subway.py:97-99 | A non-empty feed with matches is answered with the match lines themselves. |
| SubwayProperties.MatchingFeedReport | subway.py:97-99 | A feed with a matching pair is answered with the match lines themselves. |
| SubwayProperties.SentenceChoice | subway.py:93-96 | The line of a match is the arrival sentence with the `HH:MM:SS` time when the feed predicts one, and the unavailable sentence when it does not. |
| SubwayProperties.ReportSound | subway.py:81-96 | Every line of the answer comes from a matching pair of the raw feed, with its route and its rendered arrival. |
| SubwayProperties.ReportComplete | subway.py:81-96 | Every matching pair of the raw feed has its line in the answer. |
| SubwayProperties.TrainInfoListAppend | subway.py:29-43 | Flattening a feed split in two is flattening each part, in order. |
| SubwayProperties.ReportInFeedOrder | subway.py:83-99 | When both parts of a feed match, the whole feed's answer is the first part's answer followed by the second's. Lines keep feed order. |
| SubwayProperties.OneTripOneStop | subway.py:78-99 | A one-trip, one-update feed gets exactly that update's sentence when it matches, and the no-match sentence otherwise. |
| SubwayProperties.TwoTripsInFeedOrder | subway.py:83-96 | Two matching one-update trips are reported in feed order, whatever their arrival times. |
| SubwayProperties.TimesSquareArriving | subway.py:93-94 | A northbound 1 train predicted at Times Sq-42 St at 08:15 gets the arrival sentence with "08:15:00". |
| SubwayProperties.TimesSquareUnavailable | subway.py:95-96 | The same trip with no predicted arrival gets the unavailable sentence. |
| SubwayProperties.MatchingIsCaseSensitive | subway.py:85-88 | Station matching is exact: "times sq-42 st" does not match "Times Sq-42 St" and gets the no-match sentence. |

## Left out

- Feed acquisition: `NYCTFeed(feed_id)` and `feed.trips` download and decode protobuf data over the network. The model takes their result as a `FetchOutcome` value. The error text is whatever `str(e)` of the raised exception would be.
- The tool server: the `FastMCP` wrapper, the `@mcp.tool()` registration, the stdio transport and the `__main__` entry point.
- Asynchrony: `get_next_mta_train` is `async` but awaits nothing. The model is a plain method.
- The `"name": str(train)` field of each flattened record: no one reads it, and the decoder's string form of a trip is not part of this model.
- The date part of an arrival `datetime`: `%H:%M:%S` shows only the time of day. An arrival is therefore modelled by its hour, minute and second.
- Feed-specific content: stop names, route ids and direction codes are arbitrary strings. No table of stations is modelled.
- Subway.MatchLines: the nested loops are modelled as two methods, `MatchLines` over trips and `TripLines` over one trip's updates. The outer loop appends each trip's text. Together they append the same sentences in the same order as the original single function body.
- SubwayProperties.LineCount: the line count is stated only when the station, the direction and the route id of every trip in the target direction are newline-free. The rendered arrivals are always newline-free. Texts containing newlines would make the count of newlines larger than the count of lines.
- SubwayProperties.TimesSquareArriving: the examples are stated through `ArrivingSentence`, `UnavailableSentence` and `NoMatchMessage` applied to literal arguments rather than as one spelled-out literal answer. The sentence templates themselves are written out once, in `Subway`.
