/**
 * The cleanup-event table (`mockCleanups`), the shape of the NEA forecast
 * payload, and what merging the payload into the table does
 * (`loadCleanupCards`).
 */
module Feed {

  import opened Wrappers
  import opened Text
  import opened WeatherIcons

  datatype Difficulty = Easy | Moderate | Hard

  /**
   * A card's weather text, kept as the two parts it is written from: every
   * weather text the page holds is an icon and a temperature, rendered by
   * `WeatherText`.
   */
  datatype Weather = Weather(icon: Icon, celsius: int)

  /** `${icon} ${temp}°C`. */
  function WeatherText(w: Weather): string
  {
    Glyph(w.icon) + " " + IntToString(w.celsius) + "\U{B0}C"
  }

  datatype CleanupEvent = CleanupEvent(
    id: int,
    title: string,
    location: string,
    date: string,
    time: string,
    attendees: nat,
    weather: Weather,
    difficulty: Difficulty,
    image: string)

  /** The three seeded Singapore beach cleanups, in display order. */
  const MockCleanups: seq<CleanupEvent> := [
    CleanupEvent(1, "Pasir Ris Beach Sunrise Cleanup", "Pasir Ris Beach, Singapore",
      "2025-12-05", "7:00 AM", 24, Weather(Sun, 28), Easy,
      "https://images.unsplash.com/photo-1559827260-dc66d52bef19?w=400"),
    CleanupEvent(2, "East Coast Park Beach Sweep", "East Coast Park, Singapore",
      "2025-12-06", "8:30 AM", 18, Weather(PartlyCloudy, 29), Moderate,
      "https://images.unsplash.com/photo-1505142468610-359e7d316be0?w=400"),
    CleanupEvent(3, "Sentosa Beach Squad Day", "Sentosa Beach, Singapore",
      "2025-12-07", "9:00 AM", 32, Weather(Sun, 30), Easy,
      "https://images.unsplash.com/photo-1507525428034-b723cf961d3e?w=400")
  ]

  /** `temperature: { high, low }` of one forecast record. */
  datatype Temperature = Temperature(high: Option<int>, low: Option<int>)

  /** One entry of `data.records`; every field may be missing from the JSON. */
  datatype ForecastRecord = ForecastRecord(
    date: Option<string>,
    forecast: Option<string>,
    temperature: Option<Temperature>)

  datatype WeatherData = WeatherData(records: Option<seq<ForecastRecord>>)

  /** The parsed response of the forecast endpoint; the fetch itself yields `Option<Payload>`. */
  datatype Payload = Payload(data: Option<WeatherData>)

  /** `weatherData && weatherData.data`. */
  predicate HasData(weather: Option<Payload>)
  {
    weather.Some? && weather.value.data.Some?
  }

  /** JavaScript's `v || d` on an optional number: both a missing value and 0 give `d`. */
  function OrDefault(v: Option<int>, d: int): int
  {
    match v
    case Some(x) => if x != 0 then x else d
    case None => d
  }

  /** `temperature?.high`. */
  function High(t: Option<Temperature>): Option<int>
  {
    if t.Some? then t.value.high else None
  }

  /** `temperature?.low`. */
  function Low(t: Option<Temperature>): Option<int>
  {
    if t.Some? then t.value.low else None
  }

  /** The temperature a card shows: the record's high, or 30. */
  function CardTemperature(t: Option<Temperature>): int
  {
    OrDefault(High(t), 30)
  }

  /** The weather `loadCleanupCards` writes for a record: its icon and its high, or 30. */
  function ReportedWeather(forecast: string, t: Option<Temperature>): Weather
  {
    Weather(WeatherIcon(forecast), CardTemperature(t))
  }

  /** The event with its weather replaced by what `record` says. */
  function Enrich(event: CleanupEvent, record: ForecastRecord): CleanupEvent
    requires record.forecast.Some?
  {
    event.(weather := ReportedWeather(record.forecast.value, record.temperature))
  }

  /** Two events that agree on everything but the weather text. */
  predicate SameButWeather(a: CleanupEvent, b: CleanupEvent)
  {
    a.(weather := b.weather) == b
  }

  /**
   * The table after the merge loop, and the index at which it stopped by
   * throwing (a matched record without `forecast` text), if it did.
   */
  datatype Merge = Merge(events: seq<CleanupEvent>, failedAt: Option<nat>)

  /**
   * Pairs event i with record i, front to back. A matched record with no
   * forecast text stops the merge there; earlier events keep their update.
   */
  function MergeRecords(events: seq<CleanupEvent>, records: seq<ForecastRecord>): (m: Merge)
    ensures |m.events| == |events|
    ensures m.failedAt.Some? ==>
      m.failedAt.value < |events| && m.failedAt.value < |records|
      && records[m.failedAt.value].forecast.None?
    decreases |events|
  {
    if events == [] || records == [] then Merge(events, None)
    else if records[0].forecast.None? then Merge(events, Some(0))
    else
      var rest := MergeRecords(events[1..], records[1..]);
      Merge([Enrich(events[0], records[0])] + rest.events,
            if rest.failedAt.Some? then Some(rest.failedAt.value + 1) else None)
  }

  /** The merge changes no field of any event but its weather text. */
  lemma {:induction false} MergeKeepsOtherFields(events: seq<CleanupEvent>, records: seq<ForecastRecord>)
    ensures forall i :: 0 <= i < |events| ==> SameButWeather(MergeRecords(events, records).events[i], events[i])
    decreases |events|
  {
    if events != [] && records != [] && records[0].forecast.Some? {
      var m := MergeRecords(events, records);
      var rest := MergeRecords(events[1..], records[1..]);
      MergeKeepsOtherFields(events[1..], records[1..]);
      forall i | 0 < i < |events| ensures SameButWeather(m.events[i], events[i]) {
        assert m.events[i] == rest.events[i - 1] && events[i] == events[1..][i - 1];
      }
    }
  }

  /** The records the merge loop sees: none unless the payload has `data` and `records`. */
  function RecordsToMerge(weather: Option<Payload>): seq<ForecastRecord>
  {
    if HasData(weather) && weather.value.data.value.records.Some?
    then weather.value.data.value.records.value else []
  }

  /** The table after `loadCleanupCards`' merge step, given what the fetch returned. */
  function MergeFeed(events: seq<CleanupEvent>, weather: Option<Payload>): Merge
  {
    MergeRecords(events, RecordsToMerge(weather))
  }

  /** Where the merge loop stops: the failing index, or the end of the table. */
  function Stop(m: Merge, n: nat): nat
  {
    if m.failedAt.Some? then m.failedAt.value else n
  }

  /** The merge fails exactly at the first matched record that lacks forecast text. */
  lemma {:induction false} MergeFailsAtFirstGap(events: seq<CleanupEvent>, records: seq<ForecastRecord>)
    ensures var m := MergeRecords(events, records);
      && (m.failedAt.None? <==>
          forall j :: 0 <= j < |events| && j < |records| ==> records[j].forecast.Some?)
      && (m.failedAt.Some? ==>
          forall j :: 0 <= j < m.failedAt.value ==> records[j].forecast.Some?)
    decreases |events|
  {
    if events != [] && records != [] && records[0].forecast.Some? {
      MergeFailsAtFirstGap(events[1..], records[1..]);
      forall j | 0 < j < |events| && j < |records| ensures records[j].forecast == records[1..][j - 1].forecast { }
    }
  }

  /** A gap at `i` after usable records only is where the merge fails. */
  lemma {:induction false} MergeFailsAt(events: seq<CleanupEvent>, records: seq<ForecastRecord>, i: nat)
    requires i < |events| && i < |records| && records[i].forecast.None?
    requires forall k :: 0 <= k < i ==> records[k].forecast.Some?
    ensures MergeRecords(events, records).failedAt == Some(i)
    decreases i
  {
    if i > 0 {
      assert records[0].forecast.Some?;
      forall k | 0 <= k < i - 1 ensures records[1..][k].forecast.Some? {
        assert records[1..][k] == records[k + 1];
      }
      MergeFailsAt(events[1..], records[1..], i - 1);
    }
  }

  /**
   * Event i after the merge: enriched from record i when the loop reached it
   * and the record exists, otherwise exactly as before.
   */
  lemma {:induction false} MergeRecordsAt(events: seq<CleanupEvent>, records: seq<ForecastRecord>, i: nat)
    requires i < |events|
    ensures var m := MergeRecords(events, records);
      && (i < Stop(m, |events|) && i < |records| ==>
          records[i].forecast.Some? && m.events[i] == Enrich(events[i], records[i]))
      && (i >= Stop(m, |events|) || i >= |records| ==> m.events[i] == events[i])
    decreases |events|
  {
    if events != [] && records != [] && records[0].forecast.Some? && i > 0 {
      MergeRecordsAt(events[1..], records[1..], i - 1);
    }
  }

  /**
   * The `|| 30` of an enriched event's temperature: it is never 0, it is record
   * i's high exactly when that high is non-zero, and 30 when the high is
   * missing or 0.
   */
  lemma MergedTemperature(events: seq<CleanupEvent>, records: seq<ForecastRecord>, i: nat)
    requires i < |events|
    ensures var m := MergeRecords(events, records);
      i < Stop(m, |events|) && i < |records| ==>
        var high, celsius := High(records[i].temperature), m.events[i].weather.celsius;
        && celsius != 0
        && (high.Some? ==> (celsius == high.value <==> high.value != 0))
        && (high.None? || high == Some(0) ==> celsius == 30)
  {
    MergeRecordsAt(events, records, i);
  }

  /**
   * One step of the merge loop: once every matched record up to `i` has
   * forecast text, event i of the merged table is event i enriched from
   * record i, or untouched when there is no record i.
   */
  lemma MergeStep(events: seq<CleanupEvent>, records: seq<ForecastRecord>, i: nat)
    requires i < |events|
    requires forall k :: 0 <= k <= i && k < |records| ==> records[k].forecast.Some?
    ensures i < |records| ==>
      records[i].forecast.Some? && MergeRecords(events, records).events[i] == Enrich(events[i], records[i])
    ensures i >= |records| ==> MergeRecords(events, records).events[i] == events[i]
  {
    var m := MergeRecords(events, records);
    MergeFailsAtFirstGap(events, records);
    assert m.failedAt.Some? ==> m.failedAt.value > i;
    MergeRecordsAt(events, records, i);
  }

  /** One turn of the merge loop keeps the table merged below the cursor and original from it on. */
  lemma MergeLoopStep(events0: seq<CleanupEvent>, records: seq<ForecastRecord>,
                      events: seq<CleanupEvent>, i: nat, next: seq<CleanupEvent>)
    requires |events| == |events0| && i < |events|
    requires forall k :: 0 <= k < i ==> events[k] == MergeRecords(events0, records).events[k]
    requires forall k :: i <= k < |events| ==> events[k] == events0[k]
    requires forall k :: 0 <= k <= i && k < |records| ==> records[k].forecast.Some?
    requires next == if i < |records| then events[i := Enrich(events[i], records[i])] else events
    ensures |next| == |events0|
    ensures forall k :: 0 <= k <= i ==> next[k] == MergeRecords(events0, records).events[k]
    ensures forall k :: i < k < |next| ==> next[k] == events0[k]
  {
    MergeStep(events0, records, i);
  }

  /**
   * A table that agrees with the merged table below `i` and with the original
   * from `i` on, where the loop stopped either at the end or at a matched
   * record without forecast text, is exactly the merged table; and the stop is
   * a failure iff the merge fails.
   */
  lemma MergeLoopResult(events0: seq<CleanupEvent>, records: seq<ForecastRecord>,
                        events: seq<CleanupEvent>, i: nat, failed: bool)
    requires |events| == |events0| && i <= |events|
    requires forall k :: 0 <= k < i ==> events[k] == MergeRecords(events0, records).events[k]
    requires forall k :: i <= k < |events| ==> events[k] == events0[k]
    requires forall k :: 0 <= k < i && k < |records| ==> records[k].forecast.Some?
    requires failed ==> i < |events| && i < |records| && records[i].forecast.None?
    requires !failed ==> i == |events0|
    ensures events == MergeRecords(events0, records).events
    ensures failed <==> MergeRecords(events0, records).failedAt.Some?
  {
    var m := MergeRecords(events0, records);
    if failed {
      MergeFailsAt(events0, records, i);
      forall k | 0 <= k < |events| ensures events[k] == m.events[k] {
        if k >= i {
          MergeRecordsAt(events0, records, k);
        }
      }
    } else {
      MergeFailsAtFirstGap(events0, records);
    }
  }

  /** No forecast data: nothing is merged and nothing fails. */
  lemma FallbackKeepsTable(events: seq<CleanupEvent>, weather: Option<Payload>)
    requires !HasData(weather) || weather.value.data.value.records.None?
    ensures MergeFeed(events, weather) == Merge(events, None)
  {
  }

  /** A single usable record enriches the first seeded event and no other. */
  lemma MergeOfMockCleanupsWithOneRecord(record: ForecastRecord)
    requires record.forecast.Some?
    ensures MergeRecords(MockCleanups, [record]).events
      == [Enrich(MockCleanups[0], record), MockCleanups[1], MockCleanups[2]]
    ensures MergeRecords(MockCleanups, [record]).failedAt.None?
  {
    var m := MergeRecords(MockCleanups, [record]);
    MergeRecordsAt(MockCleanups, [record], 0);
    MergeRecordsAt(MockCleanups, [record], 1);
    MergeRecordsAt(MockCleanups, [record], 2);
  }

  /**
   * The payload `{data:{records:[{forecast:"Thunder Storms", temperature:{high:31}}]}}`
   * turns the first event's weather into "⛈️ 31°C" and leaves the other two as seeded.
   */
  // `text` stands for the literal so that the verifier does not unfold the
  // string's characters into every step; it has exactly one value.
  lemma ThunderStormExample(text: string)
    requires text == "Thunder Storms"
    ensures var weather := Some(Payload(Some(WeatherData(Some([
              ForecastRecord(None, Some(text), Some(Temperature(Some(31), None)))])))));
      var m := MergeFeed(MockCleanups, weather);
      && m.failedAt.None?
      && m.events[0].weather == Weather(Storm, 31)
      && WeatherText(m.events[0].weather) == "\U{26C8}\U{FE0F} 31\U{B0}C"
      && m.events[1] == MockCleanups[1] && m.events[2] == MockCleanups[2]
  {
    var record := ForecastRecord(None, Some(text), Some(Temperature(Some(31), None)));
    ThunderStormWeather(text, record.temperature);
    MergeOfMockCleanupsWithOneRecord(record);
  }

  /**
   * "Thunder Storms" with a high of 31 is written as "⛈️ 31°C"; `text` and `t`
   * stand for those values for the same reason as above.
   */
  lemma ThunderStormWeather(text: string, t: Option<Temperature>)
    requires text == "Thunder Storms" && t == Some(Temperature(Some(31), None))
    ensures ReportedWeather(text, t) == Weather(Storm, 31)
    ensures WeatherText(ReportedWeather(text, t)) == "\U{26C8}\U{FE0F} 31\U{B0}C"
  {
    assert Lower(text) == "thunder storms";
    ThunderStormsShowsStorm(text);
    assert IntToString(31) == "31";
  }

  /** The seeded weather values render as the texts the table is written with. */
  lemma SeededWeatherTexts()
    ensures WeatherText(MockCleanups[0].weather) == "\U{2600}\U{FE0F} 28\U{B0}C"
    ensures WeatherText(MockCleanups[1].weather) == "\U{26C5} 29\U{B0}C"
    ensures WeatherText(MockCleanups[2].weather) == "\U{2600}\U{FE0F} 30\U{B0}C"
  {
    assert IntToString(28) == "28";
    assert IntToString(29) == "29";
    assert IntToString(30) == "30";
  }

  /** The icon a glyph stands for, if it is one of the six. */
  function IconOfGlyph(g: string): Option<Icon>
  {
    if g == Glyph(Rain) then Some(Rain)
    else if g == Glyph(Storm) then Some(Storm)
    else if g == Glyph(Cloud) then Some(Cloud)
    else if g == Glyph(PartlyCloudy) then Some(PartlyCloudy)
    else if g == Glyph(Sun) then Some(Sun)
    else if g == Glyph(Generic) then Some(Generic)
    else None
  }

  /** Reads a weather text back: a glyph, a space, an integer and "°C". */
  function ParseWeather(s: string): Option<Weather>
  {
    var g := if |s| > 0 && s[0] == '\U{26C5}' then 1 else 2;
    if |s| < g + 3 || s[g] != ' ' || s[|s| - 2..] != "\U{B0}C" then None
    else match IconOfGlyph(s[..g])
      case None => None
      case Some(icon) => Some(Weather(icon, ParseInt(s[g + 1..|s| - 2])))
  }

  /** A weather text determines its icon and its temperature. */
  lemma WeatherTextRoundTrip(w: Weather)
    ensures ParseWeather(WeatherText(w)) == Some(w)
  {
    var glyph, digits := Glyph(w.icon), IntToString(w.celsius);
    var s := WeatherText(w);
    var g := |glyph|;
    assert s == glyph + " " + digits + "\U{B0}C";
    assert s[0] == glyph[0];
    assert g == (if s[0] == '\U{26C5}' then 1 else 2);
    assert s[..g] == glyph;
    assert s[g] == ' ';
    assert s[g + 1..|s| - 2] == digits;
    assert s[|s| - 2..] == "\U{B0}C";
    assert IconOfGlyph(glyph) == Some(w.icon);
    IntToStringRoundTrip(w.celsius);
  }
}
