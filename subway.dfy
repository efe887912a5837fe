/**
 * The arrival filter and formatter of the MTA subway tool (subway.py).
 *
 * The feed decoder hands over a snapshot of trips; each trip is flattened
 * into a record of its line, direction and stop-time updates, with every
 * arrival instant rendered as `HH:MM:SS`.  The tool then walks every trip and
 * every update in order and writes one newline-terminated sentence per update
 * whose stop is the target station on a trip heading the target direction.
 * A failed fetch, an empty feed and a report with no match are each answered
 * with a fixed sentence instead.
 */
module Subway {
  import opened Wrappers
  import opened TimeFormat

  // ---------------------------------------------------------------------------
  // The feed as the decoding library delivers it
  // ---------------------------------------------------------------------------

  /** One predicted stop event: the station and, when known, the arrival instant. */
  datatype FeedStopUpdate = FeedStopUpdate(stopName: string, arrival: Option<Instant>)

  /** One in-service train: its route, its direction code and its stop-time updates in path order. */
  datatype FeedTrip = FeedTrip(routeId: string, direction: string, stopTimeUpdates: seq<FeedStopUpdate>)

  /** What acquiring the feed for a feed id yields: the trips, or the text of the error raised. */
  datatype FetchOutcome = Fetched(trips: seq<FeedTrip>) | FetchFailed(message: string)

  // ---------------------------------------------------------------------------
  // The flattened records the report is built from
  // ---------------------------------------------------------------------------

  /** A stop-time update with its arrival already rendered (`"stop_name"`, `"arrival"`). */
  datatype StopInfo = StopInfo(stopName: string, arrival: Option<string>)

  /** A flattened trip (`"line"`, `"direction"`, `"stop_time_updates"`). */
  datatype TrainInfo = TrainInfo(line: string, direction: string, stopTimeUpdates: seq<StopInfo>)

  /** An absent instant stays absent; a present one becomes its non-empty `HH:MM:SS` rendering. */
  function ConvertDatetimeToString(t: Option<Instant>): (r: Option<string>)
    ensures r.None? <==> t.None?
    ensures r.Some? ==> r.value != "" && '\n' !in r.value && ParseHms(r.value) == Some(t.value)
  {
    if t.None? then None else ParseFormat(t.value); Some(FormatHms(t.value))
  }

  function StopInfoOf(u: FeedStopUpdate): StopInfo {
    StopInfo(u.stopName, ConvertDatetimeToString(u.arrival))
  }

  /** The updates of one trip, flattened one for one (the list comprehension). */
  function StopInfoList(us: seq<FeedStopUpdate>): seq<StopInfo> {
    seq(|us|, j requires 0 <= j < |us| => StopInfoOf(us[j]))
  }

  function TrainInfoOf(t: FeedTrip): TrainInfo {
    TrainInfo(t.routeId, t.direction, StopInfoList(t.stopTimeUpdates))
  }

  /**
   * The flattened snapshot: one record per trip, in trip order, each keeping
   * its line, its direction and its updates in order, with arrivals present
   * exactly where the feed has them.
   */
  function TrainInfoList(trips: seq<FeedTrip>): (r: seq<TrainInfo>)
    ensures |r| == |trips|
    ensures forall i :: 0 <= i < |r| ==> r[i] == TrainInfoOf(trips[i])
    ensures forall i :: 0 <= i < |r| ==>
      r[i].line == trips[i].routeId && r[i].direction == trips[i].direction
      && |r[i].stopTimeUpdates| == |trips[i].stopTimeUpdates|
    ensures forall i, j :: 0 <= i < |r| && 0 <= j < |r[i].stopTimeUpdates| ==>
      r[i].stopTimeUpdates[j].stopName == trips[i].stopTimeUpdates[j].stopName
      && (r[i].stopTimeUpdates[j].arrival.Some? <==> trips[i].stopTimeUpdates[j].arrival.Some?)
  {
    if trips == [] then [] else [TrainInfoOf(trips[0])] + TrainInfoList(trips[1..])
  }

  /** The loop of `get_train_info_list`: append one flattened record per trip. */
  method GetTrainInfoList(trainsData: seq<FeedTrip>) returns (trainInfoList: seq<TrainInfo>)
    ensures trainInfoList == TrainInfoList(trainsData)
  {
    trainInfoList := [];
    for i := 0 to |trainsData|
      invariant |trainInfoList| == i
      invariant forall k :: 0 <= k < i ==> trainInfoList[k] == TrainInfoOf(trainsData[k])
    {
      var train := trainsData[i];
      var trainInfo := TrainInfo(train.routeId, train.direction, []);
      trainInfo := trainInfo.(stopTimeUpdates := StopInfoList(train.stopTimeUpdates));
      trainInfoList := trainInfoList + [trainInfo];
    }
  }

  // ---------------------------------------------------------------------------
  // The report
  // ---------------------------------------------------------------------------

  /** A matched (trip, update) pair, as far as its sentence needs it: the trip's line and the update's arrival. */
  datatype Sighting = Sighting(line: string, arrival: Option<string>)

  /** The matches among one trip's updates, in update order. */
  function StopSightings(line: string, updates: seq<StopInfo>, station: string): seq<Sighting> {
    if updates == [] then []
    else
      var last := updates[|updates| - 1];
      StopSightings(line, updates[..|updates| - 1], station)
      + (if last.stopName == station then [Sighting(line, last.arrival)] else [])
  }

  /** The matches of one trip: none at all unless it runs in the target direction. */
  function TripSightings(t: TrainInfo, station: string, direction: string): seq<Sighting> {
    if t.direction == direction then StopSightings(t.line, t.stopTimeUpdates, station) else []
  }

  /** The matches of the whole snapshot, trip by trip. */
  function Sightings(trains: seq<TrainInfo>, station: string, direction: string): seq<Sighting> {
    if trains == [] then []
    else
      Sightings(trains[..|trains| - 1], station, direction)
      + TripSightings(trains[|trains| - 1], station, direction)
  }

  /** Python truthiness of the rendered arrival: present and not the empty string. */
  predicate Truthy(arrival: Option<string>) {
    arrival.Some? && arrival.value != ""
  }

  function ArrivingSentence(direction: string, line: string, station: string, arrival: string): string {
    "The next " + direction + " bound " + line + " train arriving at " + station
    + " will arrive at " + arrival + ".\n"
  }

  /** The fixed tail is written in three pieces only to keep proofs about its characters small. */
  function UnavailableSentence(direction: string, line: string, station: string): string {
    "The next " + direction + " bound " + line + " train is scheduled at " + station
    + ", but arrival time" + " is not currently" + " available.\n"
  }

  /** The line written for one match. */
  function Sentence(direction: string, station: string, s: Sighting): (r: string)
    ensures |r| > 0
  {
    if Truthy(s.arrival) then ArrivingSentence(direction, s.line, station, s.arrival.value)
    else UnavailableSentence(direction, s.line, station)
  }

  /** The strings of `lines` joined end to end. */
  function Concat(lines: seq<string>): string {
    if lines == [] then "" else Concat(lines[..|lines| - 1]) + lines[|lines| - 1]
  }

  /** One sentence per match, in match order. */
  function Lines(ss: seq<Sighting>, station: string, direction: string): (r: seq<string>)
    ensures |r| == |ss|
    ensures forall k :: 0 <= k < |ss| ==> r[k] == Sentence(direction, station, ss[k])
  {
    seq(|ss|, k requires 0 <= k < |ss| => Sentence(direction, station, ss[k]))
  }

  /** The match lines concatenated in order; empty exactly when there is no match. */
  function Render(ss: seq<Sighting>, station: string, direction: string): (r: string)
    ensures r == "" <==> ss == []
  {
    ConcatEndsWithLast(Lines(ss, station, direction));
    Concat(Lines(ss, station, direction))
  }

  function FetchFailedMessage(feedId: string, error: string): string {
    "Failed to load MTA feed data for feed ID " + feedId + ": " + error
  }

  function EmptyFeedMessage(feedId: string): string {
    "No train data found for feed ID " + feedId + "."
  }

  function NoMatchMessage(direction: string, station: string, feedId: string): string {
    "No " + direction + " bound trains found for " + station + " on feed " + feedId + " at this time."
  }

  /** The report over a non-empty flattened snapshot: the match lines, or the no-match sentence. */
  function Report(trains: seq<TrainInfo>, station: string, direction: string, feedId: string): (r: string)
    ensures r != ""
  {
    var lines := Render(Sightings(trains, station, direction), station, direction);
    if lines == "" then NoMatchMessage(direction, station, feedId) else lines
  }

  /** What the tool answers for a fetch outcome; never the empty string. */
  function NextTrain(fetch: FetchOutcome, station: string, direction: string, feedId: string): (r: string)
    ensures r != ""
  {
    match fetch
    case FetchFailed(e) => FetchFailedMessage(feedId, e)
    case Fetched(trips) =>
      if trips == [] then EmptyFeedMessage(feedId)
      else Report(TrainInfoList(trips), station, direction, feedId)
  }

  /** Extending a trip's updates by one adds that update's match, if it is one, at the end. */
  lemma StopSightingsSnoc(line: string, updates: seq<StopInfo>, u: StopInfo, station: string)
    ensures StopSightings(line, updates + [u], station)
      == StopSightings(line, updates, station) + (if u.stopName == station then [Sighting(line, u.arrival)] else [])
  {
    assert (updates + [u])[..|updates|] == updates;
  }

  /** Extending the snapshot by one trip adds that trip's matches at the end. */
  lemma SightingsSnoc(trains: seq<TrainInfo>, t: TrainInfo, station: string, direction: string)
    ensures Sightings(trains + [t], station, direction)
      == Sightings(trains, station, direction) + TripSightings(t, station, direction)
  {
    assert (trains + [t])[..|trains|] == trains;
  }

  /** Joined strings end with the last of them. */
  lemma ConcatEndsWithLast(lines: seq<string>)
    ensures lines == [] ==> Concat(lines) == ""
    ensures lines != [] ==> |Concat(lines)| >= |lines[|lines| - 1]|
  {
  }

  /** Joining one more string appends it. */
  lemma ConcatSnoc(lines: seq<string>, t: string)
    ensures Concat(lines + [t]) == Concat(lines) + t
  {
    assert (lines + [t])[..|lines|] == lines;
  }

  /** Joining two runs of strings is joining each and appending. */
  lemma {:induction false} ConcatAppend(a: seq<string>, b: seq<string>)
    ensures Concat(a + b) == Concat(a) + Concat(b)
    decreases |b|
  {
    if b == [] {
      assert a + b == a;
    } else {
      var init, last := b[..|b| - 1], b[|b| - 1];
      assert b == init + [last];
      assert a + b == (a + init) + [last];
      ConcatSnoc(a + init, last);
      ConcatSnoc(init, last);
      ConcatAppend(a, init);
    }
  }

  /** The text of consecutive matches is the text of each part, in order. */
  lemma RenderAppend(a: seq<Sighting>, b: seq<Sighting>, station: string, direction: string)
    ensures Render(a + b, station, direction) == Render(a, station, direction) + Render(b, station, direction)
  {
    var whole, left, right := Lines(a + b, station, direction), Lines(a, station, direction), Lines(b, station, direction);
    forall k | 0 <= k < |a + b|
      ensures whole[k] == (left + right)[k]
    {
      if k < |a| {
        assert (a + b)[k] == a[k];
      } else {
        assert (a + b)[k] == b[k - |a|];
      }
    }
    assert whole == left + right;
    ConcatAppend(left, right);
  }

  /** One more match adds its sentence at the end of the text. */
  lemma RenderSnoc(ss: seq<Sighting>, s: Sighting, station: string, direction: string)
    ensures Render(ss + [s], station, direction) == Render(ss, station, direction) + Sentence(direction, station, s)
  {
    var lines := Lines(ss, station, direction);
    assert Lines(ss + [s], station, direction) == lines + [Sentence(direction, station, s)];
    ConcatSnoc(lines, Sentence(direction, station, s));
  }

  /** The text after one more match, written out as the two branches of the loop write it. */
  lemma RenderStep(found: seq<Sighting>, s: Sighting, station: string, direction: string, text: string)
    requires text == Render(found, station, direction)
    ensures Truthy(s.arrival) ==>
      text + ArrivingSentence(direction, s.line, station, s.arrival.value) == Render(found + [s], station, direction)
    ensures !Truthy(s.arrival) ==>
      text + UnavailableSentence(direction, s.line, station) == Render(found + [s], station, direction)
  {
    RenderSnoc(found, s, station, direction);
  }

  /** One more update of a trip adds a match exactly when the loop's test holds. */
  lemma TripSightingsStep(train: TrainInfo, j: nat, station: string, direction: string, found: seq<Sighting>)
    requires j < |train.stopTimeUpdates|
    requires found == if train.direction == direction
      then StopSightings(train.line, train.stopTimeUpdates[..j], station) else []
    ensures var stop := train.stopTimeUpdates[j];
      var next := if train.direction == direction
        then StopSightings(train.line, train.stopTimeUpdates[..j + 1], station) else [];
      if stop.stopName == station && train.direction == direction
      then next == found + [Sighting(train.line, stop.arrival)]
      else next == found
  {
    var updates := train.stopTimeUpdates;
    assert updates[..j + 1] == updates[..j] + [updates[j]];
    StopSightingsSnoc(train.line, updates[..j], updates[j], station);
  }

  /** The matches of one more trip of the snapshot follow those of the trips before it. */
  lemma SightingsPrefixStep(trains: seq<TrainInfo>, i: nat, station: string, direction: string)
    requires i < |trains|
    ensures Sightings(trains[..i + 1], station, direction)
      == Sightings(trains[..i], station, direction) + TripSightings(trains[i], station, direction)
  {
    assert trains[..i + 1] == trains[..i] + [trains[i]];
    SightingsSnoc(trains[..i], trains[i], station, direction);
  }

  /** One more trip appends the text of its own matches. */
  lemma MatchLinesStep(trains: seq<TrainInfo>, i: nat, station: string, direction: string, text: string, tripText: string)
    requires i < |trains|
    requires text == Render(Sightings(trains[..i], station, direction), station, direction)
    requires tripText == Render(TripSightings(trains[i], station, direction), station, direction)
    ensures text + tripText == Render(Sightings(trains[..i + 1], station, direction), station, direction)
  {
    SightingsPrefixStep(trains, i, station, direction);
    RenderAppend(Sightings(trains[..i], station, direction), TripSightings(trains[i], station, direction), station, direction);
  }

  /**
   * The inner loop of `get_next_mta_train` over one trip: every update, in
   * order, adds its sentence when its stop is the target station and the trip
   * runs in the target direction.
   */
  method TripLines(train: TrainInfo, targetStation: string, targetDirection: string)
    returns (tripString: string)
    ensures tripString == Render(TripSightings(train, targetStation, targetDirection), targetStation, targetDirection)
  {
    tripString := "";
    ghost var found: seq<Sighting> := [];
    for j := 0 to |train.stopTimeUpdates|
      invariant found == if train.direction == targetDirection
        then StopSightings(train.line, train.stopTimeUpdates[..j], targetStation) else []
      invariant tripString == Render(found, targetStation, targetDirection)
    {
      var stop := train.stopTimeUpdates[j];
      TripSightingsStep(train, j, targetStation, targetDirection, found);
      if stop.stopName == targetStation && train.direction == targetDirection {
        var trainLine := train.line;
        var trainArrival := stop.arrival;
        ghost var s := Sighting(trainLine, trainArrival);
        RenderStep(found, s, targetStation, targetDirection, tripString);
        if Truthy(trainArrival) {
          tripString := tripString + ArrivingSentence(targetDirection, trainLine, targetStation, trainArrival.value);
        } else {
          tripString := tripString + UnavailableSentence(targetDirection, trainLine, targetStation);
        }
        found := found + [s];
      }
    }
    assert train.stopTimeUpdates[..|train.stopTimeUpdates|] == train.stopTimeUpdates;
  }

  /**
   * The nested loops of `get_next_mta_train`: the matches of every trip, in
   * feed order.
   */
  method MatchLines(trainInfoProcessed: seq<TrainInfo>, targetStation: string, targetDirection: string)
    returns (trainInfoString: string)
    ensures trainInfoString
      == Render(Sightings(trainInfoProcessed, targetStation, targetDirection), targetStation, targetDirection)
  {
    trainInfoString := "";
    for i := 0 to |trainInfoProcessed|
      invariant trainInfoString
        == Render(Sightings(trainInfoProcessed[..i], targetStation, targetDirection), targetStation, targetDirection)
    {
      var train := trainInfoProcessed[i];
      var tripString := TripLines(train, targetStation, targetDirection);
      MatchLinesStep(trainInfoProcessed, i, targetStation, targetDirection, trainInfoString, tripString);
      trainInfoString := trainInfoString + tripString;
    }
    assert trainInfoProcessed[..|trainInfoProcessed|] == trainInfoProcessed;
  }

  /** `get_next_mta_train`, with the feed acquisition handed in as its outcome. */
  method GetNextMtaTrain(fetch: FetchOutcome, targetStation: string, targetDirection: string, feedId: string := "1")
    returns (report: string)
    ensures report == NextTrain(fetch, targetStation, targetDirection, feedId)
  {
    if fetch.FetchFailed? {
      return FetchFailedMessage(feedId, fetch.message);
    }
    var trainsData := fetch.trips;
    if trainsData == [] {
      return EmptyFeedMessage(feedId);
    }
    var trainInfoProcessed := GetTrainInfoList(trainsData);
    var trainInfoString := MatchLines(trainInfoProcessed, targetStation, targetDirection);
    if trainInfoString == "" {
      return NoMatchMessage(targetDirection, targetStation, feedId);
    }
    return trainInfoString;
  }
}
