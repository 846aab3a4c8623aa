/** The external-API MCP server: current weather and a five-day forecast
    from OpenWeatherMap, headlines and search from NewsAPI, and IP lookup
    from ip-api.com. The API keys, read once from the environment, are
    parameters; each HTTP GET is an oracle from the request to the decoded
    response or the error message `make_api_request` raises; turning a Unix
    timestamp into a local date and time is an oracle too. Temperatures and
    other floats from the responses are carried as opaque JSON values. */
module ExternalApi {
  import opened Wrappers
  import opened Dicts
  import opened Json
  import opened Seqs

  /** The two keys read at start-up. */
  datatype ApiKeys = ApiKeys(openWeather: Option<string>, news: Option<string>)

  predicate Usable(key: Option<string>) {
    key.Some? && key.value != ""
  }

  /** An HTTP GET as `make_api_request` issues it. */
  datatype HttpGet = HttpGet(url: string, params: Dict<string, Json>)

  const NoWeatherKey := "OpenWeatherMap APIキーが設定されていません"
  const NoNewsKey := "NewsAPI APIキーが設定されていません"

  function WeatherParams(city: string, countryCode: string, key: string): Dict<string, Json> {
    [("q", JStr(city + "," + countryCode)), ("appid", JStr(key)), ("units", JStr("metric")), ("lang", JStr("ja"))]
  }

  // ---------------------------------------------------------------------------
  // get_weather
  // ---------------------------------------------------------------------------

  const WeatherUrl := "https://api.openweathermap.org/data/2.5/weather"

  /** The fields of the current-weather response the tool reads. */
  datatype WeatherData = WeatherData(
    name: Json, country: Json, temp: Json, feelsLike: Json, humidity: Json, pressure: Json,
    weatherMain: Json, weatherDescription: Json, windSpeed: Json, visibility: Option<real>)

  datatype Weather = Weather(
    city: Json, country: Json, temperature: Json, feelsLike: Json, humidity: Json, pressure: Json,
    weatherMain: Json, weatherDescription: Json, windSpeed: Json, visibility: real, timestamp: string)

  /** `get_weather(city, country_code)`, with the clock reading as `now`.
      Visibility is reported in kilometres, 0 when the response has none. */
  function CurrentWeather(
    keys: ApiKeys, city: string, countryCode: string,
    fetch: HttpGet -> Result<WeatherData, string>, now: string): (r: Result<Weather, string>)
    ensures !Usable(keys.openWeather) ==> r == Err(NoWeatherKey)
    ensures Usable(keys.openWeather) && fetch(HttpGet(WeatherUrl, WeatherParams(city, countryCode, keys.openWeather.value))).Err? ==>
              r.Err? && r.error == fetch(HttpGet(WeatherUrl, WeatherParams(city, countryCode, keys.openWeather.value))).error
    ensures r.Ok? ==> r.value.visibility * 1000.0 == fetch(HttpGet(WeatherUrl, WeatherParams(city, countryCode, keys.openWeather.value))).value.visibility.GetOr(0.0)
  {
    if !Usable(keys.openWeather) then Err(NoWeatherKey)
    else
      match fetch(HttpGet(WeatherUrl, WeatherParams(city, countryCode, keys.openWeather.value)))
      case Err(e) => Err(e)
      case Ok(d) =>
        Ok(Weather(d.name, d.country, d.temp, d.feelsLike, d.humidity, d.pressure, d.weatherMain,
                   d.weatherDescription, d.windSpeed, d.visibility.GetOr(0.0) / 1000.0, now))
  }

  // ---------------------------------------------------------------------------
  // get_weather_forecast
  // ---------------------------------------------------------------------------

  const ForecastUrl := "https://api.openweathermap.org/data/2.5/forecast"
  const BadDays := "予報日数は1-5日の範囲で指定してください"

  /** One three-hour step of the forecast response. */
  datatype ForecastItem = ForecastItem(dt: int, temp: Json, description: string, pop: Option<real>)

  datatype ForecastData = ForecastData(list: seq<ForecastItem>, cityName: Json, country: Json)

  datatype Entry = Entry(time: string, temperature: Json, weather: string, rainProbability: real)

  datatype DayGroup = DayGroup(date: string, forecasts: seq<Entry>)

  datatype Forecast = Forecast(city: Json, country: Json, dailyForecasts: seq<DayGroup>)

  /** The timestamp conversions: `fromtimestamp(dt).date().isoformat()` and
      `fromtimestamp(dt).strftime("%H:%M")`. */
  datatype Clock = Clock(dateOf: int -> string, timeOf: int -> string)

  function EntryOf(item: ForecastItem, clock: Clock): Entry {
    Entry(clock.timeOf(item.dt), item.temp, item.description, item.pop.GetOr(0.0) * 100.0)
  }

  function Entries(items: seq<ForecastItem>, clock: Clock): (r: seq<Entry>)
    ensures |r| == |items|
    ensures forall k :: 0 <= k < |r| ==> r[k] == EntryOf(items[k], clock)
  {
    if |items| == 0 then [] else Entries(items[..|items| - 1], clock) + [EntryOf(items[|items| - 1], clock)]
  }

  /** The day groups of a run of items: an item whose date is that of the
      last group joins it, any other starts a new group. */
  function DailyGroups(items: seq<ForecastItem>, clock: Clock): (gs: seq<DayGroup>)
    ensures |gs| <= |items|
    ensures |items| > 0 ==> |gs| > 0 && gs[|gs| - 1].date == clock.dateOf(items[|items| - 1].dt)
  {
    if |items| == 0 then []
    else
      var gs := DailyGroups(items[..|items| - 1], clock);
      var last := items[|items| - 1];
      var d := clock.dateOf(last.dt);
      if |gs| > 0 && gs[|gs| - 1].date == d then
        gs[..|gs| - 1] + [DayGroup(d, gs[|gs| - 1].forecasts + [EntryOf(last, clock)])]
      else gs + [DayGroup(d, [EntryOf(last, clock)])]
  }

  function Flatten(gs: seq<DayGroup>): seq<Entry> {
    if |gs| == 0 then [] else Flatten(gs[..|gs| - 1]) + gs[|gs| - 1].forecasts
  }

  lemma FlattenSnoc(gs: seq<DayGroup>, g: DayGroup)
    ensures Flatten(gs + [g]) == Flatten(gs) + g.forecasts
  {
    assert (gs + [g])[..|gs|] == gs;
  }

  /** Extending the last group extends the flattened entries. */
  lemma FlattenExtendLast(gs: seq<DayGroup>, e: Entry)
    requires |gs| > 0
    ensures Flatten(gs[..|gs| - 1] + [DayGroup(gs[|gs| - 1].date, gs[|gs| - 1].forecasts + [e])]) == Flatten(gs) + [e]
  {
    var n := |gs| - 1;
    var g := DayGroup(gs[n].date, gs[n].forecasts + [e]);
    calc {
      Flatten(gs[..n] + [g]);
      { FlattenSnoc(gs[..n], g); }
      Flatten(gs[..n]) + (gs[n].forecasts + [e]);
      { AppendAssoc(Flatten(gs[..n]), gs[n].forecasts, [e]); }
      Flatten(gs[..n]) + gs[n].forecasts + [e];
      { FlattenSnoc(gs[..n], gs[n]); InitLast(gs); }
      Flatten(gs) + [e];
    }
  }

  /** Grouping loses nothing and adds nothing: the groups, read in order,
      are the items' entries in order. */
  lemma {:induction false} GroupsFlatten(items: seq<ForecastItem>, clock: Clock)
    ensures Flatten(DailyGroups(items, clock)) == Entries(items, clock)
    decreases |items|
  {
    if |items| > 0 {
      var init := items[..|items| - 1];
      var gs := DailyGroups(init, clock);
      var d := clock.dateOf(items[|items| - 1].dt);
      var e := EntryOf(items[|items| - 1], clock);
      GroupsFlatten(init, clock);
      if |gs| > 0 && gs[|gs| - 1].date == d {
        FlattenExtendLast(gs, e);
      } else {
        FlattenSnoc(gs, DayGroup(d, [e]));
      }
    }
  }

  /** `n` copies of `x`. */
  function Repeat(x: string, n: nat): (r: seq<string>)
    ensures |r| == n
  {
    if n == 0 then [] else Repeat(x, n - 1) + [x]
  }

  /** Each group's date, once per entry it holds, groups read in order. */
  function GroupDates(gs: seq<DayGroup>): seq<string> {
    if |gs| == 0 then []
    else GroupDates(gs[..|gs| - 1]) + Repeat(gs[|gs| - 1].date, |gs[|gs| - 1].forecasts|)
  }

  lemma GroupDatesSnoc(gs: seq<DayGroup>, g: DayGroup)
    ensures GroupDates(gs + [g]) == GroupDates(gs) + Repeat(g.date, |g.forecasts|)
  {
    assert (gs + [g])[..|gs|] == gs;
  }

  /** Extending the last group adds its date once more at the end. */
  lemma GroupDatesExtendLast(gs: seq<DayGroup>, e: Entry)
    requires |gs| > 0
    ensures GroupDates(gs[..|gs| - 1] + [DayGroup(gs[|gs| - 1].date, gs[|gs| - 1].forecasts + [e])])
            == GroupDates(gs) + [gs[|gs| - 1].date]
  {
    var n := |gs| - 1;
    var g := DayGroup(gs[n].date, gs[n].forecasts + [e]);
    var run := Repeat(gs[n].date, |gs[n].forecasts|);
    calc {
      GroupDates(gs[..n] + [g]);
      { GroupDatesSnoc(gs[..n], g); }
      GroupDates(gs[..n]) + (run + [gs[n].date]);
      { AppendAssoc(GroupDates(gs[..n]), run, [gs[n].date]); }
      GroupDates(gs[..n]) + run + [gs[n].date];
      { GroupDatesSnoc(gs[..n], gs[n]); InitLast(gs); }
      GroupDates(gs) + [gs[n].date];
    }
  }

  /** The items' dates, in order. */
  function ItemDates(items: seq<ForecastItem>, clock: Clock): (r: seq<string>)
    ensures |r| == |items|
    ensures forall k :: 0 <= k < |items| ==> r[k] == clock.dateOf(items[k].dt)
  {
    if |items| == 0 then [] else ItemDates(items[..|items| - 1], clock) + [clock.dateOf(items[|items| - 1].dt)]
  }

  /** The grouping step adds the new item's date once, at the end. */
  lemma GroupDatesNext(gs: seq<DayGroup>, next: seq<DayGroup>, d: string, e: Entry)
    requires if |gs| > 0 && gs[|gs| - 1].date == d
             then next == gs[..|gs| - 1] + [DayGroup(d, gs[|gs| - 1].forecasts + [e])]
             else next == gs + [DayGroup(d, [e])]
    ensures GroupDates(next) == GroupDates(gs) + [d]
  {
    if |gs| > 0 && gs[|gs| - 1].date == d {
      GroupDatesExtendLast(gs, e);
    } else {
      GroupDatesSnoc(gs, DayGroup(d, [e]));
      assert Repeat(d, 1) == [d];
    }
  }

  /** Every item lands in the group of its own date: read entry by entry,
      the groups' dates are the items' dates. */
  lemma {:induction false} GroupsDates(items: seq<ForecastItem>, clock: Clock)
    ensures GroupDates(DailyGroups(items, clock)) == ItemDates(items, clock)
    decreases |items|
  {
    if |items| > 0 {
      var n := |items| - 1;
      var gs := DailyGroups(items[..n], clock);
      var d := clock.dateOf(items[n].dt);
      GroupsDates(items[..n], clock);
      if |gs| > 0 && gs[|gs| - 1].date == d {
        DailyGroupsSameDay(items, clock);
      } else {
        DailyGroupsNewDay(items, clock);
      }
      GroupDatesNext(gs, DailyGroups(items, clock), d, EntryOf(items[n], clock));
    }
  }

  /** Every group holds at least one entry, and neighbouring groups have
      different dates: a group ends exactly where the date changes. */
  lemma {:induction false} GroupsShape(items: seq<ForecastItem>, clock: Clock)
    ensures forall k :: 0 <= k < |DailyGroups(items, clock)| ==> |DailyGroups(items, clock)[k].forecasts| > 0
    ensures forall k :: 0 <= k < |DailyGroups(items, clock)| - 1 ==>
              DailyGroups(items, clock)[k].date != DailyGroups(items, clock)[k + 1].date
    decreases |items|
  {
    if |items| > 0 {
      GroupsShape(items[..|items| - 1], clock);
    }
  }

  /** The groups the loop has produced so far: the closed ones, then the open
      one. */
  function Pending(daily: seq<DayGroup>, current: Option<string>, data: seq<Entry>): seq<DayGroup> {
    if |data| > 0 && current.Some? then daily + [DayGroup(current.value, data)] else daily
  }

  /** The loop's state after the first `i` items: the pending groups are
      the day groups of those items, and the open date is the last item's. */
  predicate Grouping(
    items: seq<ForecastItem>, i: nat, clock: Clock,
    daily: seq<DayGroup>, current: Option<string>, data: seq<Entry>)
    requires i <= |items|
  {
    && DailyGroups(items[..i], clock) == Pending(daily, current, data)
    && (|data| > 0 <==> i > 0)
    && (i == 0 ==> current.None?)
    && (i > 0 ==> current == Some(clock.dateOf(items[i - 1].dt)))
  }

  /** An item dated differently from the last group starts a group of its
      own. */
  lemma DailyGroupsNewDay(xs: seq<ForecastItem>, clock: Clock)
    requires |xs| > 0
    requires var gs := DailyGroups(xs[..|xs| - 1], clock);
             |gs| == 0 || gs[|gs| - 1].date != clock.dateOf(xs[|xs| - 1].dt)
    ensures DailyGroups(xs, clock)
         == DailyGroups(xs[..|xs| - 1], clock) + [DayGroup(clock.dateOf(xs[|xs| - 1].dt), [EntryOf(xs[|xs| - 1], clock)])]
  {
  }

  lemma DailyGroupsSameDay(xs: seq<ForecastItem>, clock: Clock)
    requires |xs| > 0
    requires var gs := DailyGroups(xs[..|xs| - 1], clock);
             |gs| > 0 && gs[|gs| - 1].date == clock.dateOf(xs[|xs| - 1].dt)
    ensures var gs := DailyGroups(xs[..|xs| - 1], clock);
            DailyGroups(xs, clock)
            == gs[..|gs| - 1] + [DayGroup(gs[|gs| - 1].date, gs[|gs| - 1].forecasts + [EntryOf(xs[|xs| - 1], clock)])]
  {
  }

  /** An item dated differently from the open group closes it and opens a
      group of its own. */
  lemma NewDayStep(
    items: seq<ForecastItem>, i: nat, clock: Clock,
    daily: seq<DayGroup>, current: Option<string>, data: seq<Entry>)
    requires i < |items| && Grouping(items, i, clock, daily, current, data)
    requires current != Some(clock.dateOf(items[i].dt))
    ensures Grouping(items, i + 1, clock, if |data| > 0 then daily + [DayGroup(current.value, data)] else daily,
                     Some(clock.dateOf(items[i].dt)), [EntryOf(items[i], clock)])
  {
    var xs := items[..i + 1];
    var gs := DailyGroups(items[..i], clock);
    var g := DayGroup(clock.dateOf(items[i].dt), [EntryOf(items[i], clock)]);
    assert xs[..i] == items[..i] && xs[i] == items[i];
    assert |gs| > 0 ==> gs[|gs| - 1].date == current.value by {
      if |gs| > 0 {
        assert items[..i][i - 1] == items[i - 1];
      }
    }
    DailyGroupsNewDay(xs, clock);
    assert DailyGroups(xs, clock) == gs + [g];
  }

  /** An item dated like the open group joins it. */
  lemma SameDayStep(
    items: seq<ForecastItem>, i: nat, clock: Clock,
    daily: seq<DayGroup>, current: Option<string>, data: seq<Entry>)
    requires i < |items| && Grouping(items, i, clock, daily, current, data)
    requires current == Some(clock.dateOf(items[i].dt))
    ensures Grouping(items, i + 1, clock, daily, current, data + [EntryOf(items[i], clock)])
  {
    var xs := items[..i + 1];
    var g := DayGroup(current.value, data);
    var gs := DailyGroups(items[..i], clock);
    assert xs[..i] == items[..i] && xs[i] == items[i];
    assert gs == daily + [g];
    assert gs[..|gs| - 1] == daily && gs[|gs| - 1] == g;
    DailyGroupsSameDay(xs, clock);
    assert DailyGroups(xs, clock) == daily + [DayGroup(current.value, data + [EntryOf(items[i], clock)])];
  }

  /** `daily_forecasts[:days]` */
  function TakeDays(gs: seq<DayGroup>, days: nat): (r: seq<DayGroup>)
    ensures |r| <= days && |r| <= |gs|
    ensures forall k :: 0 <= k < |r| ==> r[k] == gs[k]
  {
    if |gs| <= days then gs else gs[..days]
  }

  /** `data["list"][:days * 8]` */
  function Considered(list: seq<ForecastItem>, days: nat): (r: seq<ForecastItem>)
    ensures |r| <= days * 8 && |r| <= |list| && r == list[..|r|]
    ensures |list| <= days * 8 ==> r == list
    ensures |list| > days * 8 ==> |r| == days * 8
  {
    if |list| <= days * 8 then list else list[..days * 8]
  }

  /** `get_weather_forecast(city, days, country_code)`. */
  function WeatherForecast(
    keys: ApiKeys, city: string, days: int, countryCode: string,
    fetch: HttpGet -> Result<ForecastData, string>, clock: Clock): (r: Result<Forecast, string>)
    ensures !Usable(keys.openWeather) ==> r == Err(NoWeatherKey)
    ensures Usable(keys.openWeather) && (days < 1 || days > 5) ==> r == Err(BadDays)
    ensures r.Ok? ==> 1 <= days <= 5 && |r.value.dailyForecasts| <= days
    ensures r.Ok? ==>
              && fetch(HttpGet(ForecastUrl, WeatherParams(city, countryCode, keys.openWeather.value))).Ok?
              && var groups := DailyGroups(Considered(fetch(HttpGet(ForecastUrl, WeatherParams(city, countryCode, keys.openWeather.value))).value.list, days), clock);
                 |r.value.dailyForecasts| <= |groups| && r.value.dailyForecasts == groups[..|r.value.dailyForecasts|]
  {
    if !Usable(keys.openWeather) then Err(NoWeatherKey)
    else if days < 1 || days > 5 then Err(BadDays)
    else
      match fetch(HttpGet(ForecastUrl, WeatherParams(city, countryCode, keys.openWeather.value)))
      case Err(e) => Err(e)
      case Ok(data) =>
        Ok(Forecast(data.cityName, data.country, TakeDays(DailyGroups(Considered(data.list, days), clock), days)))
  }

  /** The grouping loop of `get_weather_forecast`. */
  method GroupByDay(items: seq<ForecastItem>, clock: Clock) returns (dailyForecasts: seq<DayGroup>)
    ensures dailyForecasts == DailyGroups(items, clock)
  {
    dailyForecasts := [];
    var currentDate: Option<string> := None;
    var dailyData: seq<Entry> := [];
    for i := 0 to |items|
      invariant Grouping(items, i, clock, dailyForecasts, currentDate, dailyData)
    {
      var item := items[i];
      var forecastDate := clock.dateOf(item.dt);
      if currentDate != Some(forecastDate) {
        NewDayStep(items, i, clock, dailyForecasts, currentDate, dailyData);
        if |dailyData| > 0 {
          dailyForecasts := dailyForecasts + [DayGroup(currentDate.value, dailyData)];
        }
        currentDate := Some(forecastDate);
        dailyData := [];
        assert [] + [EntryOf(item, clock)] == [EntryOf(item, clock)];
      } else {
        SameDayStep(items, i, clock, dailyForecasts, currentDate, dailyData);
      }
      dailyData := dailyData + [EntryOf(item, clock)];
    }
    TakeAll(items);
    if |dailyData| > 0 {
      dailyForecasts := dailyForecasts + [DayGroup(currentDate.value, dailyData)];
    }
  }

  /** `get_weather_forecast(city, days, country_code)`. */
  method GetWeatherForecast(
    keys: ApiKeys, city: string, days: int, countryCode: string,
    fetch: HttpGet -> Result<ForecastData, string>, clock: Clock)
    returns (r: Result<Forecast, string>)
    ensures r == WeatherForecast(keys, city, days, countryCode, fetch, clock)
  {
    if keys.openWeather.None? || keys.openWeather.value == "" {
      return Err(NoWeatherKey);
    }
    if days < 1 || days > 5 {
      return Err(BadDays);
    }
    var data := fetch(HttpGet(ForecastUrl, WeatherParams(city, countryCode, keys.openWeather.value)));
    if data.Err? {
      return Err(data.error);
    }
    var groups := GroupByDay(Considered(data.value.list, days), clock);
    r := Ok(Forecast(data.value.cityName, data.value.country, TakeDays(groups, days)));
  }

  // ---------------------------------------------------------------------------
  // get_latest_news and search_news
  // ---------------------------------------------------------------------------

  const HeadlinesUrl := "https://newsapi.org/v2/top-headlines"
  const EverythingUrl := "https://newsapi.org/v2/everything"
  const MaxPageSize := 20

  /** `if limit > 20: limit = 20` */
  function ClampLimit(limit: int): (r: int)
    ensures r <= MaxPageSize
    ensures limit <= MaxPageSize ==> r == limit
    ensures limit > MaxPageSize ==> r == MaxPageSize
  {
    if limit > MaxPageSize then MaxPageSize else limit
  }

  datatype Article = Article(
    title: Json, description: Json, url: Json, sourceName: Json, publishedAt: Json, author: Option<Json>)

  datatype NewsData = NewsData(articles: seq<Article>, totalResults: Json)

  /** An article as the tools report it; `author` is absent from search
      results. */
  datatype ArticleSummary = ArticleSummary(
    title: Json, description: Json, url: Json, source: Json, publishedAt: Json, author: Option<Json>)

  datatype News = News(
    selector: string, selectorValue: string, totalResults: Json, articles: seq<ArticleSummary>, fetchedAt: string)

  /** One headline; a missing author reads as 不明. */
  function Headline(a: Article): ArticleSummary {
    ArticleSummary(a.title, a.description, a.url, a.sourceName, a.publishedAt, Some(a.author.GetOr(JStr("不明"))))
  }

  /** One search hit, without the author. */
  function Hit(a: Article): ArticleSummary {
    ArticleSummary(a.title, a.description, a.url, a.sourceName, a.publishedAt, None)
  }

  function Headlines(articles: seq<Article>): (r: seq<ArticleSummary>)
    ensures |r| == |articles|
    ensures forall k :: 0 <= k < |r| ==> r[k] == Headline(articles[k])
  {
    seq(|articles|, k requires 0 <= k < |articles| => Headline(articles[k]))
  }

  function Hits(articles: seq<Article>): (r: seq<ArticleSummary>)
    ensures |r| == |articles|
    ensures forall k :: 0 <= k < |r| ==> r[k] == Hit(articles[k])
  {
    seq(|articles|, k requires 0 <= k < |articles| => Hit(articles[k]))
  }

  function HeadlineParams(key: string, category: string, country: string, limit: int): Dict<string, Json> {
    [("apiKey", JStr(key)), ("category", JStr(category)), ("country", JStr(country)), ("pageSize", JInt(limit))]
  }

  function SearchParams(key: string, query: string, language: string, limit: int): Dict<string, Json> {
    [("apiKey", JStr(key)), ("q", JStr(query)), ("language", JStr(language)),
     ("sortBy", JStr("publishedAt")), ("pageSize", JInt(limit))]
  }

  /** `get_latest_news(category, country, limit)`: the request asks for at
      most 20 articles, and every article of the response is reported, in
      order. */
  function LatestNews(
    keys: ApiKeys, category: string, country: string, limit: int,
    fetch: HttpGet -> Result<NewsData, string>, now: string): (r: Result<News, string>)
    ensures !Usable(keys.news) ==> r == Err(NoNewsKey)
    ensures r.Ok? ==>
              && Usable(keys.news)
              && fetch(HttpGet(HeadlinesUrl, HeadlineParams(keys.news.value, category, country, ClampLimit(limit)))).Ok?
              && r.value.articles
                 == Headlines(fetch(HttpGet(HeadlinesUrl, HeadlineParams(keys.news.value, category, country, ClampLimit(limit)))).value.articles)
  {
    if !Usable(keys.news) then Err(NoNewsKey)
    else
      match fetch(HttpGet(HeadlinesUrl, HeadlineParams(keys.news.value, category, country, ClampLimit(limit))))
      case Err(e) => Err(e)
      case Ok(data) =>
        Ok(News(category, country, data.totalResults,
                Headlines(data.articles), now))
  }

  /** `search_news(query, language, limit)`. */
  function SearchNews(
    keys: ApiKeys, query: string, language: string, limit: int,
    fetch: HttpGet -> Result<NewsData, string>, now: string): (r: Result<News, string>)
    ensures !Usable(keys.news) ==> r == Err(NoNewsKey)
    ensures r.Ok? ==>
              && Usable(keys.news)
              && fetch(HttpGet(EverythingUrl, SearchParams(keys.news.value, query, language, ClampLimit(limit)))).Ok?
              && r.value.articles
                 == Hits(fetch(HttpGet(EverythingUrl, SearchParams(keys.news.value, query, language, ClampLimit(limit)))).value.articles)
  {
    if !Usable(keys.news) then Err(NoNewsKey)
    else
      match fetch(HttpGet(EverythingUrl, SearchParams(keys.news.value, query, language, ClampLimit(limit))))
      case Err(e) => Err(e)
      case Ok(data) =>
        Ok(News(query, language, data.totalResults,
                Hits(data.articles), now))
  }

  /** `get_latest_news(category, country, limit)`, with its loop over the
      articles. */
  method GetLatestNews(
    keys: ApiKeys, category: string, country: string, limit: int,
    fetch: HttpGet -> Result<NewsData, string>, now: string)
    returns (r: Result<News, string>)
    ensures r == LatestNews(keys, category, country, limit, fetch, now)
  {
    if keys.news.None? || keys.news.value == "" {
      return Err(NoNewsKey);
    }
    var pageSize := limit;
    if pageSize > 20 {
      pageSize := 20;
    }
    var data := fetch(HttpGet(HeadlinesUrl, HeadlineParams(keys.news.value, category, country, pageSize)));
    if data.Err? {
      return Err(data.error);
    }
    var source := data.value.articles;
    var articles := [];
    for i := 0 to |source|
      invariant |articles| == i
      invariant forall k :: 0 <= k < i ==> articles[k] == Headline(source[k])
    {
      var a := source[i];
      articles := articles + [ArticleSummary(a.title, a.description, a.url, a.sourceName, a.publishedAt,
                                             Some(a.author.GetOr(JStr("不明"))))];
    }
    assert articles == Headlines(source);
    r := Ok(News(category, country, data.value.totalResults, articles, now));
  }

  /** `search_news(query, language, limit)`, with its loop over the
      articles. */
  method SearchNewsLoop(
    keys: ApiKeys, query: string, language: string, limit: int,
    fetch: HttpGet -> Result<NewsData, string>, now: string)
    returns (r: Result<News, string>)
    ensures r == SearchNews(keys, query, language, limit, fetch, now)
  {
    if keys.news.None? || keys.news.value == "" {
      return Err(NoNewsKey);
    }
    var pageSize := limit;
    if pageSize > 20 {
      pageSize := 20;
    }
    var data := fetch(HttpGet(EverythingUrl, SearchParams(keys.news.value, query, language, pageSize)));
    if data.Err? {
      return Err(data.error);
    }
    var source := data.value.articles;
    var articles := [];
    for i := 0 to |source|
      invariant |articles| == i
      invariant forall k :: 0 <= k < i ==> articles[k] == Hit(source[k])
    {
      var a := source[i];
      articles := articles + [ArticleSummary(a.title, a.description, a.url, a.sourceName, a.publishedAt, None)];
    }
    assert articles == Hits(source);
    r := Ok(News(query, language, data.value.totalResults, articles, now));
  }

  // ---------------------------------------------------------------------------
  // get_ip_info
  // ---------------------------------------------------------------------------

  const IpApiUrl := "http://ip-api.com/json/"

  datatype IpData = IpData(
    status: string, message: Option<string>, query: Json, country: Json, countryCode: Json,
    regionName: Json, city: Json, zip: Json, lat: Json, lon: Json, timezone: Json, isp: Json, org: Json)

  datatype IpInfo = IpInfo(
    ip: Json, country: Json, countryCode: Json, region: Json, city: Json, zip: Json,
    latitude: Json, longitude: Json, timezone: Json, isp: Json, organization: Json)

  /** The lookup URL: the caller's own address unless one is given. */
  function IpUrl(ipAddress: Option<string>): (url: string)
    ensures Usable(ipAddress) ==> url == IpApiUrl + ipAddress.value
    ensures !Usable(ipAddress) ==> url == IpApiUrl
  {
    if ipAddress.Some? && ipAddress.value != "" then IpApiUrl + ipAddress.value else IpApiUrl
  }

  function IpFailure(message: Option<string>): string {
    "IP情報取得エラー: " + message.GetOr("Unknown error")
  }

  /** `get_ip_info(ip_address)`: a response with status `fail` is an error
      carrying its message. */
  function IpLookup(ipAddress: Option<string>, fetch: HttpGet -> Result<IpData, string>): (r: Result<IpInfo, string>)
    ensures fetch(HttpGet(IpUrl(ipAddress), [])).Ok? ==>
              (r.Err? <==> fetch(HttpGet(IpUrl(ipAddress), [])).value.status == "fail")
    ensures fetch(HttpGet(IpUrl(ipAddress), [])).Ok? && r.Err? ==>
              r.error == IpFailure(fetch(HttpGet(IpUrl(ipAddress), [])).value.message)
  {
    match fetch(HttpGet(IpUrl(ipAddress), []))
    case Err(e) => Err(e)
    case Ok(d) =>
      if d.status == "fail" then Err(IpFailure(d.message))
      else Ok(IpInfo(d.query, d.country, d.countryCode, d.regionName, d.city, d.zip, d.lat, d.lon, d.timezone, d.isp, d.org))
  }
}
