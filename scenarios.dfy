/**
 * Client code driving a page through a failed fetch, empty records, one
 * thunder-storm record, a record without forecast text, a double join and two
 * signups; every assertion follows from the handlers' contracts alone.
 */
module Scenarios {

  import opened Wrappers
  import opened Text
  import opened WeatherIcons
  import opened Feed
  import opened Forecast
  import opened Email
  import opened ShorePage

  /** A failed fetch: seeded weather, three cards, the error panel. */
  method NoWeatherData()
  {
    var page := new Page(true, true, []);
    var outcome := page.LoadCleanupCards(None);
    assert outcome == Fallback;
    assert page.events == MockCleanups;
    assert |page.grid.value| == 3;
    assert page.panel == Some([ErrorBlock]);
    assert page.notifications == [];
  }

  /** Empty `records`: the enriched branch, nothing to merge, a panel with no tiles. */
  method EmptyRecords()
  {
    var page := new Page(true, true, []);
    var weather := Some(Payload(Some(WeatherData(Some([])))));
    var outcome := page.LoadCleanupCards(weather);
    assert outcome == Enriched;
    assert page.events == MockCleanups;
    var cards := page.grid.value;
    assert cards[0] == Card(MockCleanups[0]) && cards[1] == Card(MockCleanups[1]) && cards[2] == Card(MockCleanups[2]);
    assert cards == [Card(MockCleanups[0]), Card(MockCleanups[1]), Card(MockCleanups[2])];
    assert Tiles(PanelRecords(weather)) == [];
    assert ForecastPanel(weather) == [Header, Footer];
    assert page.panel == Some([Header, Footer]);
  }

  /** One thunder-storm record: the first event shows it, the other two keep their seeded weather. */
  // `text` stands for the literal so that the verifier does not unfold the
  // string's characters into every step; it has exactly one value.
  method ThunderStorms(text: string)
    requires text == "Thunder Storms"
  {
    var weather := Some(Payload(Some(WeatherData(Some([
      ForecastRecord(None, Some(text), Some(Temperature(Some(31), None)))])))));
    ThunderStormExample(text);
    var page := new Page(true, true, []);
    var outcome := page.LoadCleanupCards(weather);
    assert outcome == Enriched;
    assert page.events[0].weather == Weather(Storm, 31);
    assert WeatherText(page.events[0].weather) == "\U{26C8}\U{FE0F} 31\U{B0}C";
    assert page.events[1] == MockCleanups[1] && page.events[2] == MockCleanups[2];
    assert |page.grid.value| == 3;
  }

  /**
   * A second record without `forecast`: the first event keeps its new weather,
   * the grid holds one error message and one error notification is raised.
   */
  method RecordWithoutForecast(first: ForecastRecord)
    requires first.forecast.Some?
  {
    var weather := Some(Payload(Some(WeatherData(Some([first, ForecastRecord(None, None, None)])))));
    var page := new Page(true, false, []);
    MergeRecordsAt(MockCleanups, [first, ForecastRecord(None, None, None)], 0);
    MergeFailsAt(MockCleanups, [first, ForecastRecord(None, None, None)], 1);
    var outcome := page.LoadCleanupCards(weather);
    assert outcome == HardFailure;
    assert page.grid == Some([ErrorMessage]);
    assert page.notifications == [LoadFailed];
    assert page.events[0] == Enrich(MockCleanups[0], first);
    assert page.panel == None;
  }

  /** Two clicks on the same card: two confirmations, one stored id, one write. */
  method JoinTwice()
  {
    var page := new Page(true, true, [3]);
    page.HandleJoinCleanup(MockCleanups[0]);
    page.HandleJoinCleanup(MockCleanups[0]);
    assert page.joined == [3, 1];
    assert page.joinWrites == 1;
    assert |page.notifications| == 2;
    assert page.events == MockCleanups;
  }

  /** An address without a dot after the `@` is refused and nothing is stored. */
  method RefusedSignup()
  {
    var page := new Page(true, true, []);
    page.emailInput := "volunteer@beach";
    assert !HasInnerDot("beach");
    IsValidEmailIff("volunteer@beach");
    assert "volunteer@beach"[9] == '@';
    var accepted := page.SubmitSignup();
    assert !accepted;
    assert page.storedEmail == None && page.notifications == [InvalidEmail];
  }

  /** A well-formed address is stored and the input cleared. */
  method AcceptedSignup()
  {
    var page := new Page(true, true, []);
    var email := "a@b.sg";
    assert Segment(email[..1]) && Segment(email[2..3]) && Segment(email[4..]);
    assert email[1] == '@' && email[3] == '.';
    page.emailInput := email;
    var accepted := page.SubmitSignup();
    assert accepted;
    assert page.storedEmail == Some(email) && page.emailInput == "";
  }
}
