/** weather.js (browser side): `getWeatherIcon`, the Font Awesome class
    shown for an OpenWeather icon code. */
module WeatherIcons {
  import opened Common

  const DefaultIcon: string := "fas fa-cloud"

  /** The codes the page's table knows: nine groups, by day and by night. */
  function KnownCodes(): set<string>
  {
    {"01d", "01n", "02d", "02n", "03d", "03n", "04d", "04n", "09d", "09n",
     "10d", "10n", "11d", "11n", "13d", "13n", "50d", "50n"}
  }

  /** The classes the table holds. */
  function IconClasses(): set<string>
  {
    {"fas fa-sun", "fas fa-moon", "fas fa-cloud-sun", "fas fa-cloud-moon", "fas fa-cloud", "fas fa-clouds",
     "fas fa-cloud-rain", "fas fa-cloud-sun-rain", "fas fa-cloud-moon-rain", "fas fa-bolt", "fas fa-snowflake",
     "fas fa-smog"}
  }

  /** The page's `iconMap`, one entry per case. */
  function TableIcon(code: string): (r: Option<string>)
    ensures r.Some? <==> code in KnownCodes()
    ensures r.Some? ==> r.value in IconClasses()
  {
    match code
    case "01d" => Some("fas fa-sun")
    case "01n" => Some("fas fa-moon")
    case "02d" => Some("fas fa-cloud-sun")
    case "02n" => Some("fas fa-cloud-moon")
    case "03d" => Some("fas fa-cloud")
    case "03n" => Some("fas fa-cloud")
    case "04d" => Some("fas fa-clouds")
    case "04n" => Some("fas fa-clouds")
    case "09d" => Some("fas fa-cloud-rain")
    case "09n" => Some("fas fa-cloud-rain")
    case "10d" => Some("fas fa-cloud-sun-rain")
    case "10n" => Some("fas fa-cloud-moon-rain")
    case "11d" => Some("fas fa-bolt")
    case "11n" => Some("fas fa-bolt")
    case "13d" => Some("fas fa-snowflake")
    case "13n" => Some("fas fa-snowflake")
    case "50d" => Some("fas fa-smog")
    case "50n" => Some("fas fa-smog")
    case _ => None
  }

  /** `iconMap[iconCode] || 'fas fa-cloud'`; an absent code is `None`. The
      class is always one of the table's or the default, and a code the
      table does not know gets the default. */
  function WeatherIcon(code: Option<string>): (r: string)
    ensures r in IconClasses() || r == DefaultIcon
    ensures code.None? || code.value !in KnownCodes() ==> r == DefaultIcon
    ensures code.Some? && code.value in KnownCodes() ==> r in IconClasses()
  {
    if code.Some? && TableIcon(code.value).Some? then TableIcon(code.value).value else DefaultIcon
  }

  /** A clear sky is a sun by day and a moon by night. */
  lemma ClearSky()
    ensures WeatherIcon(Some("01d")) == "fas fa-sun"
    ensures WeatherIcon(Some("01n")) == "fas fa-moon"
  {
  }

  /** Scattered and broken clouds, showers, thunder, snow and mist look the
      same by day and by night. */
  lemma DayAndNightAgree(group: string)
    requires group in ["03", "04", "09", "11", "13", "50"]
    ensures WeatherIcon(Some(group + "d")) == WeatherIcon(Some(group + "n"))
  {
    var day, night := group + "d", group + "n";
    assert day == [group[0], group[1], 'd'] && night == [group[0], group[1], 'n'];
    assert TableIcon(day) == TableIcon(night);
  }

  /** Few clouds and rain differ between day and night. */
  lemma DayAndNightDiffer(group: string)
    requires group in ["01", "02", "10"]
    ensures WeatherIcon(Some(group + "d")) != WeatherIcon(Some(group + "n"))
  {
    var day, night := group + "d", group + "n";
    assert day == [group[0], group[1], 'd'] && night == [group[0], group[1], 'n'];
    assert TableIcon(day) != TableIcon(night);
  }
}
