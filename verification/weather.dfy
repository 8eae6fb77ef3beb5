/** The weather tool: a fixed report around the requested city,
    registered under the function's name `get_weather`. */
module WeatherTool {
  import opened Types
  import ToolRegistry

  const ReportHead := "The weather in "
  const ReportTail := " is 72°F and sunny."

  /** The report for `city`: total, and the city sits verbatim between
      the fixed head and tail. */
  function GetWeather(city: string): (r: string)
    ensures |r| == |ReportHead| + |city| + |ReportTail|
    ensures ReportHead <= r
    ensures r[|ReportHead|..|r| - |ReportTail|] == city
    ensures r[|r| - |ReportTail|..] == ReportTail
  {
    ReportHead + city + ReportTail
  }

  /** Reads the city back out of a report, if the text is one. */
  function CityOf(report: string): Option<string>
  {
    if |report| >= |ReportHead| + |ReportTail| && ReportHead <= report
       && report[|report| - |ReportTail|..] == ReportTail
    then Some(report[|ReportHead|..|report| - |ReportTail|])
    else None
  }

  /** The report determines the city it was made for. */
  lemma WeatherRoundTrip(city: string)
    ensures CityOf(GetWeather(city)) == Some(city)
  {
  }

  /** Distinct cities give distinct reports. */
  lemma WeatherInjective(a: string, b: string)
    requires a != b
    ensures GetWeather(a) != GetWeather(b)
  {
    WeatherRoundTrip(a);
    WeatherRoundTrip(b);
  }

  /** The function as the registry sees it: its name and doc comment. */
  const Declaration := ToolRegistry.ToolFunction("get_weather",
    "Get the current weather for a specific city. \n    Only accepts real city names as input.\n    ")

  /** The tool object registration creates for this function. */
  function Registered(): (t: ToolRegistry.RegisteredTool)
    ensures t.name == "get_weather"
  {
    ToolRegistry.MakeTool(Declaration)
  }
}
