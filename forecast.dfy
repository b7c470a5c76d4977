/** The forecast panel that `displayWeatherForecast` renders from the same payload. */
module Forecast {

  import opened Wrappers
  import opened Text
  import opened WeatherIcons
  import opened Feed

  /** One day's summary tile; the day label is left out (it is locale formatting). */
  datatype Tile = Tile(icon: Icon, high: int, low: int, description: string)

  /** The pieces of the panel's markup, in the order they are concatenated. */
  datatype Block = ErrorBlock | Header | TileBlock(tile: Tile) | Footer

  /** `day.forecast || 'Partly Cloudy'`: a missing or empty description is replaced. */
  function Description(r: ForecastRecord): string
  {
    if r.forecast.Some? && r.forecast.value != "" then r.forecast.value else "Partly Cloudy"
  }

  /** The tile of one record: high `|| 32`, low `|| 26`, and the icon of its description. */
  function TileOf(r: ForecastRecord): Tile
  {
    var description := Description(r);
    Tile(WeatherIcon(description), OrDefault(High(r.temperature), 32),
         OrDefault(Low(r.temperature), 26), description)
  }

  function Tiles(records: seq<ForecastRecord>): seq<Block>
  {
    if records == [] then [] else [TileBlock(TileOf(records[0]))] + Tiles(records[1..])
  }

  /** `weatherData.data.records || []`. */
  function PanelRecords(weather: Option<Payload>): seq<ForecastRecord>
    requires HasData(weather)
  {
    var records := weather.value.data.value.records;
    if records.Some? then records.value else []
  }

  /** The content of the forecast section: an error panel, or header, tiles and footer. */
  function ForecastPanel(weather: Option<Payload>): seq<Block>
  {
    if !HasData(weather) then [ErrorBlock]
    else [Header] + Tiles(PanelRecords(weather)) + [Footer]
  }

  lemma {:induction false} TilesAt(records: seq<ForecastRecord>)
    ensures |Tiles(records)| == |records|
    ensures forall i :: 0 <= i < |records| ==> Tiles(records)[i] == TileBlock(TileOf(records[i]))
  {
    if records != [] {
      TilesAt(records[1..]);
    }
  }

  /** The positions of a sequence framed by one element on each side. */
  lemma Framed<T>(head: T, s: seq<T>, foot: T)
    ensures var f := [head] + s + [foot];
      && |f| == |s| + 2 && f[0] == head && f[|f| - 1] == foot
      && forall i :: 0 <= i < |s| ==> f[i + 1] == s[i]
  {
  }

  /** Tiles are never the error panel. */
  lemma {:induction false} TilesHaveNoError(records: seq<ForecastRecord>)
    ensures ErrorBlock !in Tiles(records)
  {
    if records != [] {
      TilesHaveNoError(records[1..]);
    }
  }

  /** Accumulating one more record's tile extends the tiles by exactly that tile. */
  lemma {:induction false} TilesAppend(records: seq<ForecastRecord>, r: ForecastRecord)
    ensures Tiles(records + [r]) == Tiles(records) + [TileBlock(TileOf(r))]
  {
    if records != [] {
      assert (records + [r])[1..] == records[1..] + [r];
      TilesAppend(records[1..], r);
    }
  }

  /**
   * No payload or no `data`: the error panel alone. Otherwise a header, exactly
   * one tile per record in record order (none for empty or missing records),
   * and a footer.
   */
  lemma ForecastPanelShape(weather: Option<Payload>)
    ensures !HasData(weather) ==> ForecastPanel(weather) == [ErrorBlock]
    ensures HasData(weather) ==>
      var p, records := ForecastPanel(weather), PanelRecords(weather);
      && |p| == |records| + 2
      && p[0] == Header && p[|p| - 1] == Footer
      && (forall i :: 0 <= i < |records| ==> p[i + 1] == TileBlock(TileOf(records[i])))
      && ErrorBlock !in p
  {
    if HasData(weather) {
      var records := PanelRecords(weather);
      Framed(Header, Tiles(records), Footer);
      TilesAt(records);
      TilesHaveNoError(records);
    }
  }

  /**
   * The `||` defaults: a tile never shows a zero temperature or an empty
   * description, shows the record's values when they are usable, and its icon
   * is that of the description it shows.
   */
  lemma TileDefaults(r: ForecastRecord)
    ensures TileOf(r).high != 0 && TileOf(r).low != 0 && TileOf(r).description != ""
    ensures TileOf(r).icon == WeatherIcon(TileOf(r).description)
    ensures r.forecast.Some? && r.forecast.value != "" ==> TileOf(r).description == r.forecast.value
    ensures r.forecast.None? || r.forecast == Some("") ==> TileOf(r).description == "Partly Cloudy"
    ensures High(r.temperature).Some? && High(r.temperature).value != 0 ==> TileOf(r).high == High(r.temperature).value
    ensures High(r.temperature) == Some(0) || High(r.temperature).None? ==> TileOf(r).high == 32
    ensures Low(r.temperature).Some? && Low(r.temperature).value != 0 ==> TileOf(r).low == Low(r.temperature).value
    ensures Low(r.temperature) == Some(0) || Low(r.temperature).None? ==> TileOf(r).low == 26
  {
  }

  /** A record with no usable description is shown with the cloud icon ("Partly Cloudy"). */
  lemma MissingDescriptionShowsCloud(r: ForecastRecord)
    requires r.forecast.None? || r.forecast == Some("")
    ensures TileOf(r).icon == Cloud
  {
    var d := Description(r);
    assert Lower(d) == "partly cloudy";
    PartlyCloudyShowsCloud(d);
  }
}
