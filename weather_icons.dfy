/** `getWeatherIcon`: the icon a free-text forecast description is shown with. */
module WeatherIcons {

  import opened Text

  datatype Icon = Rain | Storm | Cloud | PartlyCloudy | Sun | Generic

  /** The emoji each icon is rendered as. */
  function Glyph(icon: Icon): string
  {
    match icon
    case Rain => "\U{1F327}\U{FE0F}"
    case Storm => "\U{26C8}\U{FE0F}"
    case Cloud => "\U{2601}\U{FE0F}"
    case PartlyCloudy => "\U{26C5}"
    case Sun => "\U{2600}\U{FE0F}"
    case Generic => "\U{1F324}\U{FE0F}"
  }

  /** The description is lower-cased once, then tested keyword by keyword in a fixed order. */
  function WeatherIcon(forecast: string): Icon
  {
    var f := Lower(forecast);
    if Contains(f, "rain") || Contains(f, "shower") then Rain
    else if Contains(f, "thunder") then Storm
    else if Contains(f, "cloudy") then Cloud
    else if Contains(f, "partly") then PartlyCloudy
    else if Contains(f, "fair") || Contains(f, "sunny") then Sun
    else Generic
  }

  /** The keywords that call for each icon; the generic icon has none. */
  function Keywords(icon: Icon): seq<string>
  {
    match icon
    case Rain => ["rain", "shower"]
    case Storm => ["thunder"]
    case Cloud => ["cloudy"]
    case PartlyCloudy => ["partly"]
    case Sun => ["fair", "sunny"]
    case Generic => []
  }

  /** Precedence of the icons: a lower rank wins. */
  function Rank(icon: Icon): nat
  {
    match icon
    case Rain => 0
    case Storm => 1
    case Cloud => 2
    case PartlyCloudy => 3
    case Sun => 4
    case Generic => 5
  }

  /** Some keyword of `icon` occurs in the description, whatever its letter case. */
  predicate Signals(forecast: string, icon: Icon)
  {
    exists k :: k in Keywords(icon) && Contains(Lower(forecast), k)
  }

  /**
   * The icon is the highest-precedence one that the description signals, and
   * the generic icon exactly when it signals none.
   */
  lemma IconPrecedence(forecast: string)
    ensures WeatherIcon(forecast) != Generic ==> Signals(forecast, WeatherIcon(forecast))
    ensures forall j :: Rank(j) < Rank(WeatherIcon(forecast)) ==> !Signals(forecast, j)
    ensures WeatherIcon(forecast) == Generic <==> forall j :: !Signals(forecast, j)
  {
    var f := Lower(forecast);
    var r := WeatherIcon(forecast);
    forall j | Rank(j) < Rank(r) ensures !Signals(forecast, j) {
      match j
      case Rain => assert Keywords(j) == ["rain", "shower"];
      case Storm => assert Keywords(j) == ["thunder"];
      case Cloud => assert Keywords(j) == ["cloudy"];
      case PartlyCloudy => assert Keywords(j) == ["partly"];
      case Sun => assert Keywords(j) == ["fair", "sunny"];
      case Generic =>
    }
    if r != Generic {
      match r {
      case Rain => if Contains(f, "rain") { assert "rain" in Keywords(r); } else { assert "shower" in Keywords(r); }
      case Storm => assert "thunder" in Keywords(r);
      case Cloud => assert "cloudy" in Keywords(r);
      case PartlyCloudy => assert "partly" in Keywords(r);
      case Sun => if Contains(f, "fair") { assert "fair" in Keywords(r); } else { assert "sunny" in Keywords(r); }
      }
      assert Signals(forecast, r);
    }
  }

  /** Letter case never changes the icon. */
  lemma IconIgnoresCase(s: string, t: string)
    requires |s| == |t|
    requires forall i :: 0 <= i < |s| ==> LowerChar(s[i]) == LowerChar(t[i])
    ensures WeatherIcon(s) == WeatherIcon(t)
  {
    LowerIgnoresCase(s, t);
  }

  /** A keyword keeps signalling its icon whatever text surrounds it. */
  lemma SignalsInContext(before: string, s: string, after: string, icon: Icon)
    requires Signals(s, icon)
    ensures Signals(before + s + after, icon)
  {
    var k :| k in Keywords(icon) && Contains(Lower(s), k);
    LowerAppend(before + s, after);
    LowerAppend(before, s);
    assert Lower(before + s + after) == Lower(before) + Lower(s) + Lower(after);
    ContainsInContext(Lower(before), Lower(s), Lower(after), k);
  }

  /** Rain or shower anywhere in the description yields the rain icon, whatever else it says. */
  lemma RainDominates(before: string, s: string, after: string)
    requires Signals(s, Rain)
    ensures WeatherIcon(before + s + after) == Rain
  {
    SignalsInContext(before, s, after, Rain);
    IconPrecedence(before + s + after);
  }

  /**
   * "cloudy" outranks "partly": "Partly Cloudy", in any letter case, shows the
   * cloud icon and not the partly-cloudy one.
   */
  lemma PartlyCloudyShowsCloud(forecast: string)
    requires Lower(forecast) == "partly cloudy"
    ensures WeatherIcon(forecast) == Cloud
  {
    var f := Lower(forecast);
    MissingCharExcludes(f, "rain", 'n');
    MissingCharExcludes(f, "shower", 's');
    MissingCharExcludes(f, "thunder", 'h');
    assert OccursAt(f, "cloudy", 7);
  }

  /** "Thunder Storms", in any letter case, shows the storm icon. */
  lemma ThunderStormsShowsStorm(forecast: string)
    requires Lower(forecast) == "thunder storms"
    ensures WeatherIcon(forecast) == Storm
  {
    var f := Lower(forecast);
    MissingCharExcludes(f, "rain", 'i');
    MissingCharExcludes(f, "shower", 'w');
    assert OccursAt(f, "thunder", 0);
  }
}
