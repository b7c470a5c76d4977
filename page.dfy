/**
 * The page state the cleanup feed, the join buttons and the signup form act
 * on, and the handlers that change it: `loadCleanupCards`,
 * `displayWeatherForecast`, `handleJoinCleanup` and the submit handler of the
 * signup form.
 */
module ShorePage {

  import opened Wrappers
  import opened Feed
  import opened Forecast
  import opened Joins
  import opened Email

  datatype Severity = Info | Success | Error

  /** A `showNotification(message, type)` call. */
  datatype Notification = Notification(message: string, severity: Severity)

  /** What the `.cleanups-grid` element holds. */
  datatype GridItem = Spinner | Card(event: CleanupEvent) | ErrorMessage

  /** How a load cycle ended. */
  datatype Outcome = NoGrid | Enriched | Fallback | HardFailure

  const LoadFailed := Notification("Failed to load cleanup data", Error)
  const InvalidEmail := Notification("Please enter a valid email address", Error)
  const Welcome := Notification("Welcome to ShoreSquad! Check your email.", Success)

  function JoinConfirmation(title: string): Notification
  {
    Notification("You're in! See you at " + title + "! \U{1F30A}", Success)
  }

  /** One card per event, in table order. */
  function Cards(events: seq<CleanupEvent>): seq<GridItem>
  {
    seq(|events|, i requires 0 <= i < |events| => Card(events[i]))
  }

  lemma CardsAppend(events: seq<CleanupEvent>, e: CleanupEvent)
    ensures Cards(events + [e]) == Cards(events) + [Card(e)]
  {
    var l, r := Cards(events + [e]), Cards(events) + [Card(e)];
    forall k | 0 <= k < |l| ensures l[k] == r[k] {
      if k < |events| { assert (events + [e])[k] == events[k]; }
    }
  }

  /**
   * The forecast section after a render: it is replaced when it was in the
   * document, created next to the map when there is a map container, and
   * otherwise rendered into a detached element the page never shows.
   */
  function RenderedPanel(section: Option<seq<Block>>, hasMapContainer: bool,
                         weather: Option<Payload>): Option<seq<Block>>
  {
    if section.Some? || hasMapContainer then Some(ForecastPanel(weather)) else None
  }

  /** Extending a prefix by one element. */
  lemma PrefixSnoc<T>(s: seq<T>, i: nat)
    requires i < |s|
    ensures s[..i + 1] == s[..i] + [s[i]]
  {
  }

  class Page {
    /** `mockCleanups`, whose `weather` fields the load cycle overwrites. */
    var events: seq<CleanupEvent>
    /** The `.cleanups-grid` element, if the page has one. */
    var grid: Option<seq<GridItem>>
    /** The `.weather-forecast-section` element in the document, if any. */
    var panel: Option<seq<Block>>
    /** Whether the page has a `.map-container`. */
    const hasMapContainer: bool
    /** Every notification raised, oldest first. */
    var notifications: seq<Notification>
    /** `localStorage['joined_cleanups']`. */
    var joined: seq<int>
    /** How often `joined_cleanups` has been written. */
    var joinWrites: nat
    /** The value of `#email-input`. */
    var emailInput: string
    /** `localStorage['shoresquad_email']`. */
    var storedEmail: Option<string>

    constructor(hasGrid: bool, hasMapContainer: bool, storedJoined: seq<int>)
      ensures events == MockCleanups
      ensures grid == (if hasGrid then Some([]) else None) && panel == None
      ensures this.hasMapContainer == hasMapContainer
      ensures notifications == [] && joined == storedJoined && joinWrites == 0
      ensures emailInput == "" && storedEmail == None
    {
      events := MockCleanups;
      grid := if hasGrid then Some([]) else None;
      panel := None;
      this.hasMapContainer := hasMapContainer;
      notifications := [];
      joined := storedJoined;
      joinWrites := 0;
      emailInput := "";
      storedEmail := None;
    }

    /**
     * One load cycle, with `weather` the result of the forecast fetch. Without
     * a grid nothing happens. Otherwise the table is merged with the records in
     * place and one card per event is shown, then the forecast panel is
     * rendered; a matched record without forecast text stops the merge, keeps
     * the updates made before it, and replaces the grid by one error message
     * with one error notification.
     */
    method LoadCleanupCards(weather: Option<Payload>) returns (outcome: Outcome)
      modifies this`events, this`grid, this`panel, this`notifications
      ensures old(grid).None? ==>
        && outcome == NoGrid && events == old(events) && grid == None
        && panel == old(panel) && notifications == old(notifications)
      ensures old(grid).Some? ==>
        var m := MergeFeed(old(events), weather);
        && events == m.events
        && (m.failedAt.Some? ==>
              && outcome == HardFailure && grid == Some([ErrorMessage])
              && panel == old(panel) && notifications == old(notifications) + [LoadFailed])
        && (m.failedAt.None? ==>
              && outcome == (if HasData(weather) then Enriched else Fallback)
              && grid == Some(Cards(events))
              && panel == RenderedPanel(old(panel), hasMapContainer, weather)
              && notifications == old(notifications))
    {
      if grid.None? {
        return NoGrid;
      }
      grid := Some([Spinner]);
      // Both fetches complete here; only the forecast result is used.
      grid := Some([]);
      var failed := false;
      if HasData(weather) {
        failed := MergeAndShowCards(weather.value.data.value.records);
        outcome := Enriched;
      } else {
        ShowCards();
        outcome := Fallback;
      }
      if failed {
        grid := Some([ErrorMessage]);
        notifications := notifications + [LoadFailed];
        outcome := HardFailure;
      } else {
        DisplayWeatherForecast(weather);
      }
    }

    /**
     * The `forEach` of the enriched branch: event i takes the weather of record
     * i when there is one, and its card is appended to the grid. It stops with
     * `failed` at the first matched record without forecast text, before that
     * event is changed or shown.
     */
    method MergeAndShowCards(forecasts: Option<seq<ForecastRecord>>) returns (failed: bool)
      requires grid == Some([])
      modifies this`events, this`grid
      ensures var m := MergeRecords(old(events), if forecasts.Some? then forecasts.value else []);
        && events == m.events && (failed <==> m.failedAt.Some?)
        && (!failed ==> grid == Some(Cards(events)))
    {
      ghost var events0 := events;
      ghost var records := if forecasts.Some? then forecasts.value else [];
      ghost var merged := MergeRecords(events0, records).events;
      assert Cards(merged[..0]) == [];
      failed := false;
      var i := 0;
      while i < |events| && !failed
        invariant 0 <= i <= |events| == |events0| == |merged|
        invariant forall k :: 0 <= k < i ==> events[k] == merged[k]
        invariant forall k :: i <= k < |events| ==> events[k] == events0[k]
        invariant forall k :: 0 <= k < i && k < |records| ==> records[k].forecast.Some?
        invariant failed ==> i < |events| && i < |records| && records[i].forecast.None?
        invariant grid == Some(Cards(merged[..i]))
        decreases |events| - i, if failed then 0 else 1
      {
        ghost var before := events;
        if forecasts.Some? && i < |forecasts.value| {
          var record := forecasts.value[i];
          if record.forecast.None? {
            // getWeatherIcon(undefined) throws on toLowerCase.
            failed := true;
          } else {
            events := events[i := Enrich(events[i], record)];
          }
        }
        if !failed {
          MergeLoopStep(events0, records, before, i, events);
          CardsAppend(merged[..i], merged[i]);
          PrefixSnoc(merged, i);
          grid := Some(grid.value + [Card(events[i])]);
          i := i + 1;
        }
      }
      MergeLoopResult(events0, records, events, i, failed);
      assert !failed ==> merged[..|merged|] == merged;
    }

    /** The `forEach` of the fallback branch: one card per event, the table untouched. */
    method ShowCards()
      requires grid == Some([])
      modifies this`grid
      ensures grid == Some(Cards(events))
    {
      assert Cards(events[..0]) == [];
      var i := 0;
      while i < |events|
        invariant 0 <= i <= |events|
        invariant grid == Some(Cards(events[..i]))
        modifies this`grid
      {
        CardsAppend(events[..i], events[i]);
        assert events[..i + 1] == events[..i] + [events[i]];
        grid := Some(grid.value + [Card(events[i])]);
        i := i + 1;
      }
      assert events[..i] == events;
    }

    /**
     * Renders the forecast section: the error panel without data, otherwise a
     * header, one tile per record accumulated in order, and a footer.
     */
    method DisplayWeatherForecast(weather: Option<Payload>)
      modifies this`panel
      ensures panel == RenderedPanel(old(panel), hasMapContainer, weather)
    {
      var inDocument := panel.Some? || hasMapContainer;
      var content: seq<Block>;
      if !HasData(weather) {
        content := [ErrorBlock];
      } else {
        var records := weather.value.data.value.records;
        var forecasts := if records.Some? then records.value else [];
        content := [Header];
        var i := 0;
        while i < |forecasts|
          modifies {}
          invariant 0 <= i <= |forecasts|
          invariant content == [Header] + Tiles(forecasts[..i])
        {
          TilesAppend(forecasts[..i], forecasts[i]);
          assert forecasts[..i + 1] == forecasts[..i] + [forecasts[i]];
          content := content + [TileBlock(TileOf(forecasts[i]))];
          i := i + 1;
        }
        assert forecasts[..i] == forecasts;
        content := content + [Footer];
      }
      if inDocument {
        panel := Some(content);
      }
    }

    /**
     * A click on "Join Cleanup": a confirmation is always raised; the id is
     * appended to the stored list, and the list written back, only when it is
     * not there yet. No event changes.
     */
    method HandleJoinCleanup(cleanup: CleanupEvent)
      modifies this`notifications, this`joined, this`joinWrites
      ensures notifications == old(notifications) + [JoinConfirmation(cleanup.title)]
      ensures joined == Joined(old(joined), cleanup.id)
      ensures joinWrites == old(joinWrites) + (if cleanup.id in old(joined) then 0 else 1)
    {
      notifications := notifications + [JoinConfirmation(cleanup.title)];
      var list := joined;
      if cleanup.id !in list {
        list := list + [cleanup.id];
        joined := list;
        joinWrites := joinWrites + 1;
      }
    }

    /**
     * Submitting the signup form: an empty or invalid address raises an error
     * and returns before anything is stored; a valid one is welcomed, stored,
     * and the input is cleared.
     */
    method SubmitSignup() returns (accepted: bool)
      modifies this`notifications, this`emailInput, this`storedEmail
      ensures accepted == IsValidEmail(old(emailInput))
      ensures !accepted ==>
        && notifications == old(notifications) + [InvalidEmail]
        && storedEmail == old(storedEmail) && emailInput == old(emailInput)
      ensures accepted ==>
        && notifications == old(notifications) + [Welcome]
        && storedEmail == Some(old(emailInput)) && emailInput == ""
    {
      var email := emailInput;
      if email == "" || !IsValidEmail(email) {
        notifications := notifications + [InvalidEmail];
        return false;
      }
      // The simulated signup call always resolves.
      notifications := notifications + [Welcome];
      emailInput := "";
      storedEmail := Some(email);
      accepted := true;
    }
  }
}
