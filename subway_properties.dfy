/**
 * What the arrival report promises, stated over the feed snapshot handed to
 * `get_next_mta_train`: which (trip, update) pairs produce a line, in what
 * order, how many lines there are, which sentence each line is, and when the
 * fixed fallback sentences are returned instead.
 */
module SubwayProperties {
  import opened Wrappers
  import opened TimeFormat
  import opened Subway

  // ---------------------------------------------------------------------------
  // Reference definitions over the raw feed
  // ---------------------------------------------------------------------------

  /** Update `j` of trip `i` is at the target station on a trip running in the target direction. */
  predicate IsMatchingPair(trips: seq<FeedTrip>, station: string, direction: string, i: int, j: int) {
    0 <= i < |trips| && 0 <= j < |trips[i].stopTimeUpdates|
    && trips[i].direction == direction && trips[i].stopTimeUpdates[j].stopName == station
  }

  /** The same condition on the flattened records. */
  predicate IsMatchAt(trains: seq<TrainInfo>, station: string, direction: string, i: int, j: int) {
    0 <= i < |trains| && 0 <= j < |trains[i].stopTimeUpdates|
    && trains[i].direction == direction && trains[i].stopTimeUpdates[j].stopName == station
  }

  /** The number of updates at the target station. */
  function StopCount(updates: seq<FeedStopUpdate>, station: string): nat {
    if updates == [] then 0
    else (if updates[0].stopName == station then 1 else 0) + StopCount(updates[1..], station)
  }

  /** The number of matching (trip, update) pairs, counted with repetitions. */
  function MatchCount(trips: seq<FeedTrip>, station: string, direction: string): nat {
    if trips == [] then 0
    else
      (if trips[0].direction == direction then StopCount(trips[0].stopTimeUpdates, station) else 0)
      + MatchCount(trips[1..], station, direction)
  }

  /** The number of occurrences of `c` in `s`. */
  function CountChar(s: string, c: char): nat {
    if s == "" then 0 else (if s[0] == c then 1 else 0) + CountChar(s[1..], c)
  }

  // ---------------------------------------------------------------------------
  // Order: matches follow trip order, then update order
  // ---------------------------------------------------------------------------

  /** The matches of consecutive updates are the matches of each part, in order. */
  lemma {:induction false} StopSightingsAppend(line: string, a: seq<StopInfo>, b: seq<StopInfo>, station: string)
    ensures StopSightings(line, a + b, station) == StopSightings(line, a, station) + StopSightings(line, b, station)
    decreases |b|
  {
    if b == [] {
      assert a + b == a;
    } else {
      var init, last := b[..|b| - 1], b[|b| - 1];
      assert b == init + [last];
      assert a + b == (a + init) + [last];
      StopSightingsSnoc(line, a + init, last, station);
      StopSightingsSnoc(line, init, last, station);
      StopSightingsAppend(line, a, init, station);
    }
  }

  /** The matches of a snapshot split in two are those of the first part followed by those of the second. */
  lemma {:induction false} SightingsAppend(a: seq<TrainInfo>, b: seq<TrainInfo>, station: string, direction: string)
    ensures Sightings(a + b, station, direction) == Sightings(a, station, direction) + Sightings(b, station, direction)
    decreases |b|
  {
    if b == [] {
      assert a + b == a;
    } else {
      var init, last := b[..|b| - 1], b[|b| - 1];
      assert b == init + [last];
      assert a + b == (a + init) + [last];
      SightingsSnoc(a + init, last, station, direction);
      SightingsSnoc(init, last, station, direction);
      SightingsAppend(a, init, station, direction);
      SightingsAssoc(Sightings(a, station, direction), Sightings(init, station, direction),
        TripSightings(last, station, direction));
    }
  }

  /**
   * Regrouping matches.  Dafny knows this fact; naming the three parts keeps the
   * step of `SightingsAppend` that needs it small.
   */
  lemma SightingsAssoc(x: seq<Sighting>, y: seq<Sighting>, z: seq<Sighting>)
    ensures (x + y) + z == x + (y + z)
  {
  }

  /** A match line ends in a newline. */
  lemma SentenceEndsInNewline(direction: string, station: string, s: Sighting)
    ensures var r := Sentence(direction, station, s); r[|r| - 1] == '\n'
  {
  }

  /** The sentences of some matches and of one more. */
  lemma LinesSnoc(ss: seq<Sighting>, s: Sighting, station: string, direction: string)
    ensures Lines(ss + [s], station, direction) == Lines(ss, station, direction) + [Sentence(direction, station, s)]
  {
  }

  /** The text of at least one match ends in a newline. */
  lemma RenderEndsInNewline(ss: seq<Sighting>, station: string, direction: string)
    requires ss != []
    ensures var r := Render(ss, station, direction); r[|r| - 1] == '\n'
  {
  }

  /** A lone trip contributes exactly its own matches. */
  lemma SightingsOfOne(t: TrainInfo, station: string, direction: string)
    ensures Sightings([t], station, direction) == TripSightings(t, station, direction)
  {
    assert [t][..0] == [];
  }

  /** A trip running in another direction contributes nothing, whatever its stops, wherever it stands. */
  lemma OtherDirectionSilent(before: seq<TrainInfo>, t: TrainInfo, after: seq<TrainInfo>, station: string, direction: string)
    requires t.direction != direction
    ensures Sightings(before + [t] + after, station, direction) == Sightings(before + after, station, direction)
  {
    SightingsAppend(before + [t], after, station, direction);
    SightingsAppend(before, [t], station, direction);
    SightingsOfOne(t, station, direction);
    SightingsAppend(before, after, station, direction);
    assert Sightings(before, station, direction) + [] == Sightings(before, station, direction);
  }

  // ---------------------------------------------------------------------------
  // Soundness and completeness of the filter
  // ---------------------------------------------------------------------------

  lemma {:induction false} StopSightingsSound(line: string, updates: seq<StopInfo>, station: string, k: int)
    requires 0 <= k < |StopSightings(line, updates, station)|
    ensures exists j :: (0 <= j < |updates| && updates[j].stopName == station
      && StopSightings(line, updates, station)[k] == Sighting(line, updates[j].arrival))
    decreases |updates|
  {
    var init, last := updates[..|updates| - 1], updates[|updates| - 1];
    if k < |StopSightings(line, init, station)| {
      StopSightingsSound(line, init, station, k);
      var j :| 0 <= j < |init| && init[j].stopName == station
        && StopSightings(line, init, station)[k] == Sighting(line, init[j].arrival);
      assert updates[j] == init[j];
    } else {
      assert updates[|updates| - 1].stopName == station;
    }
  }

  lemma {:induction false} StopSightingsComplete(line: string, updates: seq<StopInfo>, station: string, j: int)
    requires 0 <= j < |updates| && updates[j].stopName == station
    ensures Sighting(line, updates[j].arrival) in StopSightings(line, updates, station)
    decreases |updates|
  {
    var init := updates[..|updates| - 1];
    if j < |init| {
      StopSightingsComplete(line, init, station, j);
      assert init[j] == updates[j];
    }
  }

  /** Every match line comes from a pair whose stop is the station and whose trip runs in the direction. */
  lemma {:induction false} SightingsSound(trains: seq<TrainInfo>, station: string, direction: string, k: int)
    requires 0 <= k < |Sightings(trains, station, direction)|
    ensures exists i, j :: (IsMatchAt(trains, station, direction, i, j)
      && Sightings(trains, station, direction)[k] == Sighting(trains[i].line, trains[i].stopTimeUpdates[j].arrival))
    decreases |trains|
  {
    var n := |trains| - 1;
    var init, last := trains[..n], trains[n];
    var head := Sightings(init, station, direction);
    if k < |head| {
      SightingsSound(init, station, direction, k);
      var i, j :| IsMatchAt(init, station, direction, i, j)
        && head[k] == Sighting(init[i].line, init[i].stopTimeUpdates[j].arrival);
      assert init[i] == trains[i];
      assert IsMatchAt(trains, station, direction, i, j);
    } else {
      StopSightingsSound(last.line, last.stopTimeUpdates, station, k - |head|);
      var j :| 0 <= j < |last.stopTimeUpdates| && last.stopTimeUpdates[j].stopName == station
        && StopSightings(last.line, last.stopTimeUpdates, station)[k - |head|]
           == Sighting(last.line, last.stopTimeUpdates[j].arrival);
      assert IsMatchAt(trains, station, direction, n, j);
    }
  }

  /** Every matching pair produces a line. */
  lemma {:induction false} SightingsComplete(trains: seq<TrainInfo>, station: string, direction: string, i: int, j: int)
    requires IsMatchAt(trains, station, direction, i, j)
    ensures Sighting(trains[i].line, trains[i].stopTimeUpdates[j].arrival) in Sightings(trains, station, direction)
    decreases |trains|
  {
    var n := |trains| - 1;
    var init := trains[..n];
    if i < n {
      assert init[i] == trains[i];
      SightingsComplete(init, station, direction, i, j);
    } else {
      StopSightingsComplete(trains[n].line, trains[n].stopTimeUpdates, station, j);
    }
  }

  // ---------------------------------------------------------------------------
  // Counting: one line per matching pair, no deduplication
  // ---------------------------------------------------------------------------

  lemma {:induction false} StopSightingsCount(line: string, updates: seq<FeedStopUpdate>, station: string)
    ensures |StopSightings(line, StopInfoList(updates), station)| == StopCount(updates, station)
    decreases |updates|
  {
    if updates != [] {
      var first := StopInfoOf(updates[0]);
      assert StopInfoList(updates) == [first] + StopInfoList(updates[1..]);
      StopSightingsAppend(line, [first], StopInfoList(updates[1..]), station);
      assert [first][..0] == [];
      StopSightingsCount(line, updates[1..], station);
    }
  }

  /** There are exactly as many matches as matching (trip, update) pairs in the feed. */
  lemma {:induction false} SightingsCount(trips: seq<FeedTrip>, station: string, direction: string)
    ensures |Sightings(TrainInfoList(trips), station, direction)| == MatchCount(trips, station, direction)
    decreases |trips|
  {
    if trips != [] {
      var first := TrainInfoOf(trips[0]);
      SightingsAppend([first], TrainInfoList(trips[1..]), station, direction);
      SightingsOfOne(first, station, direction);
      StopSightingsCount(first.line, trips[0].stopTimeUpdates, station);
      SightingsCount(trips[1..], station, direction);
    }
  }

  lemma {:induction false} CountCharAppend(a: string, b: string, c: char)
    ensures CountChar(a + b, c) == CountChar(a, c) + CountChar(b, c)
    decreases |a|
  {
    if a != "" {
      assert (a + b)[1..] == a[1..] + b;
      CountCharAppend(a[1..], b, c);
    } else {
      assert a + b == b;
    }
  }

  lemma {:induction false} CountCharAbsent(s: string, c: char)
    requires c !in s
    ensures CountChar(s, c) == 0
    decreases |s|
  {
    if s != "" {
      assert s[0] != c;
      assert forall k :: 0 <= k < |s[1..]| ==> s[1..][k] == s[k + 1];
      CountCharAbsent(s[1..], c);
    }
  }

  /** No newline in the texts a line is built from. */
  predicate NewlineFree(s: string) {
    '\n' !in s
  }

  /** Newline-free words followed by a newline hold exactly one newline. */
  lemma NewlineEnding(words: string)
    requires NewlineFree(words)
    ensures CountChar(words + "\n", '\n') == 1
  {
    CountCharAbsent(words, '\n');
    assert "\n"[1..] == "";
    CountCharAppend(words, "\n", '\n');
  }

  /** The fixed words of the arrival sentence hold no newline; its ending holds exactly one. */
  lemma ArrivingWordsNewlines()
    ensures NewlineFree("The next ") && NewlineFree(" bound ") && NewlineFree(" train arriving at ")
    ensures NewlineFree(" will arrive at ") && CountChar(".\n", '\n') == 1
  {
    assert ".\n" == "." + "\n";
    NewlineEnding(".");
  }

  /** The fixed words of the unavailable sentence hold no newline. */
  lemma UnavailableWordsNewlineFree()
    ensures NewlineFree("The next ") && NewlineFree(" bound ") && NewlineFree(" train is scheduled at ")
    ensures NewlineFree(", but arrival time") && NewlineFree(" is not currently")
  {
  }

  /** The ending of the unavailable sentence holds exactly one newline. */
  lemma AvailableEnding()
    ensures CountChar(" available.\n", '\n') == 1
  {
    assert " available.\n" == " available." + "\n";
    NewlineEnding(" available.");
  }

  lemma ArrivingNewlines(direction: string, line: string, station: string, arrival: string)
    requires NewlineFree(direction) && NewlineFree(line) && NewlineFree(station) && NewlineFree(arrival)
    ensures CountChar(ArrivingSentence(direction, line, station, arrival), '\n') == 1
  {
    var body := "The next " + direction + " bound " + line + " train arriving at " + station
      + " will arrive at " + arrival;
    ArrivingWordsNewlines();
    CountCharAbsent(body, '\n');
    CountCharAppend(body, ".\n", '\n');
  }

  lemma UnavailableNewlines(direction: string, line: string, station: string)
    requires NewlineFree(direction) && NewlineFree(line) && NewlineFree(station)
    ensures CountChar(UnavailableSentence(direction, line, station), '\n') == 1
  {
    var body := "The next " + direction + " bound " + line + " train is scheduled at " + station
      + ", but arrival time" + " is not currently";
    UnavailableWordsNewlineFree();
    AvailableEnding();
    CountCharAbsent(body, '\n');
    CountCharAppend(body, " available.\n", '\n');
  }

  /** With newline-free station, direction, line and arrival, a match line has exactly one newline, at its end. */
  lemma SentenceNewlines(direction: string, station: string, s: Sighting)
    requires NewlineFree(direction) && NewlineFree(station) && NewlineFree(s.line)
    requires s.arrival.Some? ==> NewlineFree(s.arrival.value)
    ensures CountChar(Sentence(direction, station, s), '\n') == 1
  {
    if Truthy(s.arrival) {
      ArrivingNewlines(direction, s.line, station, s.arrival.value);
    } else {
      UnavailableNewlines(direction, s.line, station);
    }
  }

  lemma {:induction false} RenderNewlines(ss: seq<Sighting>, station: string, direction: string)
    requires NewlineFree(direction) && NewlineFree(station)
    requires forall k :: 0 <= k < |ss| ==> NewlineFree(ss[k].line)
    requires forall k :: 0 <= k < |ss| && ss[k].arrival.Some? ==> NewlineFree(ss[k].arrival.value)
    ensures CountChar(Render(ss, station, direction), '\n') == |ss|
    decreases |ss|
  {
    if ss != [] {
      var init, last := ss[..|ss| - 1], ss[|ss| - 1];
      assert ss == init + [last];
      LinesSnoc(init, last, station, direction);
      ConcatSnoc(Lines(init, station, direction), Sentence(direction, station, last));
      RenderNewlines(init, station, direction);
      SentenceNewlines(direction, station, last);
      CountCharAppend(Render(init, station, direction), Sentence(direction, station, last), '\n');
    }
  }

  // ---------------------------------------------------------------------------
  // The tool's answer over the raw feed
  // ---------------------------------------------------------------------------

  /** An empty feed is answered with the empty-feed sentence, whatever the station or direction. */
  lemma EmptyFeedReport(station: string, direction: string, feedId: string)
    ensures NextTrain(Fetched([]), station, direction, feedId) == "No train data found for feed ID " + feedId + "."
  {
  }

  /** A failed fetch is answered with the failure sentence carrying the feed id and the error text. */
  lemma FetchFailedReport(error: string, station: string, direction: string, feedId: string)
    ensures NextTrain(FetchFailed(error), station, direction, feedId)
      == "Failed to load MTA feed data for feed ID " + feedId + ": " + error
  {
  }

  /** The matching condition read on the flattened records is the one on the feed. */
  lemma MatchingPreserved(trips: seq<FeedTrip>, station: string, direction: string, i: int, j: int)
    ensures IsMatchingPair(trips, station, direction, i, j) <==> IsMatchAt(TrainInfoList(trips), station, direction, i, j)
  {
  }

  /**
   * Over a non-empty feed the answer is the no-match sentence exactly when no
   * update is at the target station on a trip in the target direction.
   */
  lemma NoMatchIff(trips: seq<FeedTrip>, station: string, direction: string, feedId: string)
    requires trips != []
    ensures NextTrain(Fetched(trips), station, direction, feedId) == NoMatchMessage(direction, station, feedId)
      <==> !exists i, j :: IsMatchingPair(trips, station, direction, i, j)
  {
    var trains := TrainInfoList(trips);
    var ss := Sightings(trains, station, direction);
    var msg := NoMatchMessage(direction, station, feedId);
    assert msg[|msg| - 1] == '.';
    if exists i, j :: IsMatchingPair(trips, station, direction, i, j) {
      var i, j :| IsMatchingPair(trips, station, direction, i, j);
      MatchingPreserved(trips, station, direction, i, j);
      SightingsComplete(trains, station, direction, i, j);
      assert ss != [];
      RenderEndsInNewline(ss, station, direction);
    } else if ss != [] {
      SightingsSound(trains, station, direction, 0);
      var i, j :| IsMatchAt(trains, station, direction, i, j) && ss[0] == Sighting(trains[i].line, trains[i].stopTimeUpdates[j].arrival);
      MatchingPreserved(trips, station, direction, i, j);
      assert false;
    }
  }

  /**
   * When something matches, the answer holds one newline-terminated line per
   * matching pair, counted with repetitions (given texts without newlines).
   */
  lemma LineCount(trips: seq<FeedTrip>, station: string, direction: string, feedId: string)
    requires trips != [] && MatchCount(trips, station, direction) > 0
    requires NewlineFree(station) && NewlineFree(direction)
    requires forall i :: 0 <= i < |trips| && trips[i].direction == direction ==> NewlineFree(trips[i].routeId)
    ensures var r := NextTrain(Fetched(trips), station, direction, feedId);
      CountChar(r, '\n') == MatchCount(trips, station, direction) && r[|r| - 1] == '\n'
  {
    var trains := TrainInfoList(trips);
    var ss := Sightings(trains, station, direction);
    SightingsCount(trips, station, direction);
    forall k | 0 <= k < |ss|
      ensures NewlineFree(ss[k].line) && (ss[k].arrival.Some? ==> NewlineFree(ss[k].arrival.value))
    {
      ReportSound(trips, station, direction, k);
    }
    RenderNewlines(ss, station, direction);
    RenderEndsInNewline(ss, station, direction);
    ReportOfMatches(trips, station, direction, feedId);
  }

  /** A non-empty feed whose snapshot has matches is answered with their lines. */
  lemma ReportOfMatches(trips: seq<FeedTrip>, station: string, direction: string, feedId: string)
    requires trips != [] && Sightings(TrainInfoList(trips), station, direction) != []
    ensures NextTrain(Fetched(trips), station, direction, feedId)
      == Render(Sightings(TrainInfoList(trips), station, direction), station, direction)
  {
  }

  /** The line of a match: the arrival sentence with `HH:MM:SS` when the feed predicts a time, the unavailable sentence otherwise. */
  lemma SentenceChoice(direction: string, station: string, t: FeedTrip, j: int)
    requires 0 <= j < |t.stopTimeUpdates|
    ensures var u := t.stopTimeUpdates[j];
      Sentence(direction, station, Sighting(t.routeId, ConvertDatetimeToString(u.arrival)))
      == if u.arrival.Some?
         then ArrivingSentence(direction, t.routeId, station, FormatHms(u.arrival.value))
         else UnavailableSentence(direction, t.routeId, station)
  {
  }

  /** Every line of the answer belongs to a matching pair of the feed and is built from its trip's route and its update's arrival. */
  lemma ReportSound(trips: seq<FeedTrip>, station: string, direction: string, k: int)
    requires 0 <= k < |Sightings(TrainInfoList(trips), station, direction)|
    ensures exists i, j :: (IsMatchingPair(trips, station, direction, i, j)
      && Sightings(TrainInfoList(trips), station, direction)[k]
         == Sighting(trips[i].routeId, ConvertDatetimeToString(trips[i].stopTimeUpdates[j].arrival)))
  {
    var trains := TrainInfoList(trips);
    SightingsSound(trains, station, direction, k);
    var i, j :| IsMatchAt(trains, station, direction, i, j)
      && Sightings(trains, station, direction)[k] == Sighting(trains[i].line, trains[i].stopTimeUpdates[j].arrival);
    MatchingPreserved(trips, station, direction, i, j);
  }

  /** Every matching pair of the feed has its line in the answer. */
  lemma ReportComplete(trips: seq<FeedTrip>, station: string, direction: string, i: int, j: int)
    requires IsMatchingPair(trips, station, direction, i, j)
    ensures Sighting(trips[i].routeId, ConvertDatetimeToString(trips[i].stopTimeUpdates[j].arrival))
      in Sightings(TrainInfoList(trips), station, direction)
  {
    MatchingPreserved(trips, station, direction, i, j);
    SightingsComplete(TrainInfoList(trips), station, direction, i, j);
  }

  // ---------------------------------------------------------------------------
  // Worked examples
  // ---------------------------------------------------------------------------

  /** The answer for a single trip with a single update, spelled out. */
  lemma OneTripOneStop(t: FeedTrip, station: string, direction: string, feedId: string)
    requires |t.stopTimeUpdates| == 1
    ensures var u := t.stopTimeUpdates[0];
      var s := Sighting(t.routeId, ConvertDatetimeToString(u.arrival));
      NextTrain(Fetched([t]), station, direction, feedId)
      == if t.direction == direction && u.stopName == station then Sentence(direction, station, s)
         else NoMatchMessage(direction, station, feedId)
  {
    var trains := TrainInfoList([t]);
    assert trains == [TrainInfoOf(t)];
    var info := StopInfoOf(t.stopTimeUpdates[0]);
    assert TrainInfoOf(t).stopTimeUpdates == [info];
    SightingsOfOne(TrainInfoOf(t), station, direction);
    assert [info][..0] == [];
    var s := Sighting(t.routeId, info.arrival);
    assert StopSightings(t.routeId, [info], station) == if info.stopName == station then [s] else [];
    LinesSnoc([], s, station, direction);
    assert [] + [s] == [s];
    ConcatSnoc([], Sentence(direction, station, s));
    assert [] + [Sentence(direction, station, s)] == [Sentence(direction, station, s)];
    assert "" + Sentence(direction, station, s) == Sentence(direction, station, s);
  }

  /** A northbound 1 train predicted at Times Sq-42 St at 08:15:00. */
  lemma TimesSquareArriving()
    ensures NextTrain(Fetched([FeedTrip("1", "N", [FeedStopUpdate("Times Sq-42 St", Some(Clock(8, 15, 0)))])]),
                      "Times Sq-42 St", "N", "1")
      == ArrivingSentence("N", "1", "Times Sq-42 St", "08:15:00")
  {
    var t := FeedTrip("1", "N", [FeedStopUpdate("Times Sq-42 St", Some(Clock(8, 15, 0)))]);
    OneTripOneStop(t, "Times Sq-42 St", "N", "1");
    assert FormatHms(Clock(8, 15, 0)) == "08:15:00";
  }

  /** A lower-case station name does not match the feed's capitalised one. */
  lemma MatchingIsCaseSensitive()
    ensures NextTrain(Fetched([FeedTrip("1", "N", [FeedStopUpdate("Times Sq-42 St", Some(Clock(8, 15, 0)))])]),
                      "times sq-42 st", "N", "1")
      == NoMatchMessage("N", "times sq-42 st", "1")
  {
    var t := FeedTrip("1", "N", [FeedStopUpdate("Times Sq-42 St", Some(Clock(8, 15, 0)))]);
    OneTripOneStop(t, "times sq-42 st", "N", "1");
    assert "Times Sq-42 St"[0] != "times sq-42 st"[0];
  }

  /** The same trip with no predicted arrival gets the unavailable sentence. */
  lemma TimesSquareUnavailable()
    ensures NextTrain(Fetched([FeedTrip("1", "N", [FeedStopUpdate("Times Sq-42 St", None)])]),
                      "Times Sq-42 St", "N", "1")
      == UnavailableSentence("N", "1", "Times Sq-42 St")
  {
    var t := FeedTrip("1", "N", [FeedStopUpdate("Times Sq-42 St", None)]);
    OneTripOneStop(t, "Times Sq-42 St", "N", "1");
  }

  /** A feed with a match is answered with its match lines. */
  lemma MatchingFeedReport(trips: seq<FeedTrip>, station: string, direction: string, feedId: string)
    requires exists i, j :: IsMatchingPair(trips, station, direction, i, j)
    ensures NextTrain(Fetched(trips), station, direction, feedId)
      == Render(Sightings(TrainInfoList(trips), station, direction), station, direction)
  {
    var i, j :| IsMatchingPair(trips, station, direction, i, j);
    ReportComplete(trips, station, direction, i, j);
  }

  lemma TrainInfoListAppend(a: seq<FeedTrip>, b: seq<FeedTrip>)
    ensures TrainInfoList(a + b) == TrainInfoList(a) + TrainInfoList(b)
  {
  }

  /**
   * When both parts of a feed have a match, the answer for the whole feed is
   * the answer for the first part followed by the answer for the second: lines
   * keep feed order and are never re-sorted.
   */
  lemma ReportInFeedOrder(a: seq<FeedTrip>, b: seq<FeedTrip>, station: string, direction: string, feedId: string)
    requires exists i, j :: IsMatchingPair(a, station, direction, i, j)
    requires exists i, j :: IsMatchingPair(b, station, direction, i, j)
    ensures NextTrain(Fetched(a + b), station, direction, feedId)
      == NextTrain(Fetched(a), station, direction, feedId) + NextTrain(Fetched(b), station, direction, feedId)
  {
    var ia, ja :| IsMatchingPair(a, station, direction, ia, ja);
    assert IsMatchingPair(a + b, station, direction, ia, ja);
    MatchingFeedReport(a, station, direction, feedId);
    MatchingFeedReport(b, station, direction, feedId);
    MatchingFeedReport(a + b, station, direction, feedId);
    TrainInfoListAppend(a, b);
    var sa, sb := Sightings(TrainInfoList(a), station, direction), Sightings(TrainInfoList(b), station, direction);
    SightingsAppend(TrainInfoList(a), TrainInfoList(b), station, direction);
    RenderAppend(sa, sb, station, direction);
  }

  /**
   * Two matching trips are reported in feed order, whatever their arrival
   * times: the lines are not sorted by arrival.
   */
  lemma TwoTripsInFeedOrder(t1: FeedTrip, t2: FeedTrip, station: string, direction: string, feedId: string)
    requires |t1.stopTimeUpdates| == 1 && t1.direction == direction && t1.stopTimeUpdates[0].stopName == station
    requires |t2.stopTimeUpdates| == 1 && t2.direction == direction && t2.stopTimeUpdates[0].stopName == station
    ensures NextTrain(Fetched([t1, t2]), station, direction, feedId)
      == Sentence(direction, station, Sighting(t1.routeId, ConvertDatetimeToString(t1.stopTimeUpdates[0].arrival)))
         + Sentence(direction, station, Sighting(t2.routeId, ConvertDatetimeToString(t2.stopTimeUpdates[0].arrival)))
  {
    var both := [t1] + [t2];
    assert both == [t1, t2];
    assert IsMatchingPair([t1], station, direction, 0, 0);
    assert IsMatchingPair([t2], station, direction, 0, 0);
    ReportInFeedOrder([t1], [t2], station, direction, feedId);
    OneTripOneStop(t1, station, direction, feedId);
    OneTripOneStop(t2, station, direction, feedId);
  }
}
