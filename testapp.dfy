/** The uptime test application run in the test pod: `_format_uptime` and
    the path dispatch of `UptimeHandler.do_GET`, with the JSON documents and
    the metrics text it serves. The uptime is a whole number of seconds. */
module RestartTestApp {
  import opened Wrappers
  import opened Strings
  import opened Urls

  // ---- _format_uptime ----

  /** `_format_uptime`: `<s>s` under a minute, `<m>m <s>s` under an hour,
      `<h>h <m>m <s>s` from an hour on. */
  function FormatUptime(seconds: nat): string
  {
    if seconds < 60 then NatToString(seconds) + "s"
    else if seconds < 3600 then MinutesText(seconds / 60, seconds % 60)
    else HoursText(seconds / 3600, (seconds % 3600) / 60, seconds % 60)
  }

  /** `f"{minutes}m {secs}s"` */
  function MinutesText(minutes: nat, secs: nat): string
  {
    NatToString(minutes) + "m " + NatToString(secs) + "s"
  }

  /** `f"{hours}h {minutes}m {secs}s"` */
  function HoursText(hours: nat, minutes: nat, secs: nat): string
  {
    NatToString(hours) + "h " + NatToString(minutes) + "m " + NatToString(secs) + "s"
  }

  /** One field of the human-readable uptime: a number followed by its unit. */
  function UnitField(field: string, unit: char): Option<nat>
  {
    if field != [] && field[|field| - 1] == unit then ParseNat(field[..|field| - 1]) else None
  }

  /** Reads a human-readable uptime back into seconds. */
  function ParseUptime(text: string): Option<nat>
  {
    var fields := Split(text, ' ');
    if |fields| == 1 then UnitField(fields[0], 's')
    else if |fields| == 2 then
      match (UnitField(fields[0], 'm'), UnitField(fields[1], 's'))
      case (Some(m), Some(s)) => Some(60 * m + s)
      case _ => None
    else if |fields| == 3 then
      match (UnitField(fields[0], 'h'), UnitField(fields[1], 'm'), UnitField(fields[2], 's'))
      case (Some(h), Some(m), Some(s)) => Some(3600 * h + 60 * m + s)
      case _ => None
    else None
  }

  lemma UnitFieldOf(n: nat, unit: char)
    requires !IsDigit(unit)
    ensures UnitField(NatToString(n) + [unit], unit) == Some(n)
    ensures ' ' != unit ==> ' ' !in NatToString(n) + [unit]
  {
    var field := NatToString(n) + [unit];
    assert field[..|field| - 1] == NatToString(n);
    NatToStringRoundTrip(n);
    NatToStringHasNo(n, ' ');
  }

  /** The minutes and seconds of an hour-or-more uptime add back up. */
  lemma HoursMinutesSeconds(seconds: nat)
    ensures 3600 * (seconds / 3600) + 60 * ((seconds % 3600) / 60) + seconds % 60 == seconds
    ensures (seconds % 3600) / 60 < 60
  {
    var q, t := seconds / 3600, seconds % 3600;
    var m, r := t / 60, t % 60;
    assert seconds == 60 * (60 * q + m) + r;
    assert seconds % 60 == r;
  }

  lemma SecondsRoundTrip(seconds: nat)
    requires seconds < 60
    ensures ParseUptime(FormatUptime(seconds)) == Some(seconds)
    ensures |Split(FormatUptime(seconds), ' ')| == 1
  {
    var text := NatToString(seconds) + "s";
    UnitFieldOf(seconds, 's');
    SplitJoin([text], ' ');
  }

  /** Two `<number><unit>` fields joined by a blank. */
  lemma JoinTwo(x: string, u: char, y: string, v: char)
    ensures x + [u, ' '] + y + [v] == Join([x + [u], y + [v]], ' ')
  {
    assert Join([y + [v]], ' ') == y + [v];
    assert Join([x + [u], y + [v]], ' ') == x + [u] + [' '] + Join([y + [v]], ' ');
  }

  lemma JoinThree(x: string, u: char, y: string, v: char, z: string, w: char)
    ensures x + [u, ' '] + y + [v, ' '] + z + [w] == Join([x + [u], y + [v], z + [w]], ' ')
  {
    JoinTwo(y, v, z, w);
    assert [x + [u], y + [v], z + [w]][1..] == [y + [v], z + [w]];
    assert Join([x + [u], y + [v], z + [w]], ' ') == x + [u] + [' '] + Join([y + [v], z + [w]], ' ');
  }

  lemma ParseTwo(text: string, m: string, s: string, minutes: nat, secs: nat)
    requires Split(text, ' ') == [m, s]
    requires UnitField(m, 'm') == Some(minutes) && UnitField(s, 's') == Some(secs)
    ensures ParseUptime(text) == Some(60 * minutes + secs)
  {
  }

  lemma ParseThree(text: string, h: string, m: string, s: string, hours: nat, minutes: nat, secs: nat, total: nat)
    requires Split(text, ' ') == [h, m, s]
    requires UnitField(h, 'h') == Some(hours) && UnitField(m, 'm') == Some(minutes) && UnitField(s, 's') == Some(secs)
    requires 3600 * hours + 60 * minutes + secs == total
    ensures ParseUptime(text) == Some(total)
  {
  }

  lemma TwoFieldsRoundTrip(minutes: nat, secs: nat)
    ensures ParseUptime(MinutesText(minutes, secs)) == Some(60 * minutes + secs)
    ensures |Split(MinutesText(minutes, secs), ' ')| == 2
  {
    var m, s := NatToString(minutes) + "m", NatToString(secs) + "s";
    var text := NatToString(minutes) + "m " + NatToString(secs) + "s";
    UnitFieldOf(minutes, 'm');
    UnitFieldOf(secs, 's');
    JoinTwo(NatToString(minutes), 'm', NatToString(secs), 's');
    SplitJoin([m, s], ' ');
    ParseTwo(text, m, s, minutes, secs);
  }

  lemma ThreeFieldsRoundTrip(hours: nat, minutes: nat, secs: nat, total: nat)
    requires 3600 * hours + 60 * minutes + secs == total
    ensures ParseUptime(HoursText(hours, minutes, secs)) == Some(total)
    ensures |Split(HoursText(hours, minutes, secs), ' ')| == 3
  {
    var h, m, s := NatToString(hours) + "h", NatToString(minutes) + "m", NatToString(secs) + "s";
    var text := NatToString(hours) + "h " + NatToString(minutes) + "m " + NatToString(secs) + "s";
    UnitFieldOf(hours, 'h');
    UnitFieldOf(minutes, 'm');
    UnitFieldOf(secs, 's');
    JoinThree(NatToString(hours), 'h', NatToString(minutes), 'm', NatToString(secs), 's');
    SplitJoin([h, m, s], ' ');
    assert HoursText(hours, minutes, secs) == text;
    ParseThree(text, h, m, s, hours, minutes, secs, total);
  }

  lemma MinutesRoundTrip(seconds: nat)
    requires 60 <= seconds < 3600
    ensures ParseUptime(FormatUptime(seconds)) == Some(seconds)
    ensures |Split(FormatUptime(seconds), ' ')| == 2
  {
    TwoFieldsRoundTrip(seconds / 60, seconds % 60);
  }

  lemma HoursRoundTrip(seconds: nat)
    requires 3600 <= seconds
    ensures ParseUptime(FormatUptime(seconds)) == Some(seconds)
    ensures |Split(FormatUptime(seconds), ' ')| == 3
  {
    HoursMinutesSeconds(seconds);
    ThreeFieldsRoundTrip(seconds / 3600, (seconds % 3600) / 60, seconds % 60, seconds);
  }

  /** The human-readable uptime reads back as the number of seconds it was
      made from, in one, two or three fields as the uptime reaches a minute
      and an hour. */
  lemma FormatUptimeRoundTrip(seconds: nat)
    ensures ParseUptime(FormatUptime(seconds)) == Some(seconds)
    ensures |Split(FormatUptime(seconds), ' ')| == (if seconds < 60 then 1 else if seconds < 3600 then 2 else 3)
  {
    if seconds < 60 {
      SecondsRoundTrip(seconds);
    } else if seconds < 3600 {
      MinutesRoundTrip(seconds);
    } else {
      HoursRoundTrip(seconds);
    }
  }

  // ---- do_GET ----

  /** The endpoints `do_GET` dispatches to. */
  datatype Endpoint = HtmlPage | HealthJson | Metrics | UptimeJson | NotFound

  const KnownPaths: seq<string> := ["/", "/health", "/metrics", "/api/uptime"]

  /** `urlparse(self.path).path`. */
  function RequestPath(target: string): string
  {
    UrlParse(target).path
  }

  function Route(path: string): Endpoint
  {
    if path == "/" then HtmlPage
    else if path == "/health" then HealthJson
    else if path == "/metrics" then Metrics
    else if path == "/api/uptime" then UptimeJson
    else NotFound
  }

  datatype JsonValue = JString(text: string) | JNumber(number: int)

  /** A response body: the HTML page (its template is not modelled; it shows
      the uptime document), a JSON object as its fields in order, or text. */
  datatype Body = HtmlBody(document: seq<(string, JsonValue)>) | JsonBody(fields: seq<(string, JsonValue)>) | TextBody(text: string)

  datatype Response = Response(status: nat, headers: seq<(string, string)>, body: Body)

  /** `response_data`; `startedAt` and `currentTime` are the ISO timestamps
      of the container's start and of the request. */
  function UptimeDocument(uptime: nat, startedAt: string, currentTime: string): seq<(string, JsonValue)>
  {
    [("uptime_seconds", JNumber(uptime)),
     ("uptime_human", JString(FormatUptime(uptime))),
     ("started_at", JString(startedAt)),
     ("current_time", JString(currentTime)),
     ("container_name", JString("kpf-test-app")),
     ("version", JString("1.0.0"))]
  }

  const MetricsHeader := "# TYPE app_uptime_seconds counter"
  const SampleName := "app_uptime_seconds "

  /** The Prometheus text of `_serve_metrics`: the type line, then the
      sample line. */
  function MetricsText(uptime: nat): string
  {
    MetricsHeader + "\n" + SampleName + NatToString(uptime) + "\n"
  }

  /** `do_GET` for the request target `target` at `uptime` seconds. */
  function Respond(target: string, uptime: nat, startedAt: string, currentTime: string): Response
  {
    Serve(RequestPath(target), uptime, startedAt, currentTime)
  }

  /** The response for the path of the request target. */
  function Serve(path: string, uptime: nat, startedAt: string, currentTime: string): Response
  {
    var json := [("Content-type", "application/json"), ("Access-Control-Allow-Origin", "*")];
    match Route(path)
    case HtmlPage => Response(200, [("Content-type", "text/html")], HtmlBody(UptimeDocument(uptime, startedAt, currentTime)))
    case HealthJson => Response(200, json, JsonBody([("status", JString("healthy")), ("uptime_seconds", JNumber(uptime))]))
    case Metrics => Response(200, [("Content-type", "text/plain")], TextBody(MetricsText(uptime)))
    case UptimeJson => Response(200, json, JsonBody(UptimeDocument(uptime, startedAt, currentTime)))
    case NotFound => Response(404, [("Content-type", "text/plain")], TextBody("404 Not Found"))
  }

  /** The value of the first field named `key` of a JSON object. */
  function Field(fields: seq<(string, JsonValue)>, key: string): Option<JsonValue>
  {
    if fields == [] then None
    else if fields[0].0 == key then Some(fields[0].1)
    else Field(fields[1..], key)
  }

  /** The sample value of the metrics text: the number after
      `app_uptime_seconds ` on its second line. */
  function MetricsSample(text: string): Option<nat>
  {
    var lines := Split(text, '\n');
    if |lines| >= 2 && SampleName <= lines[1] then ParseNat(lines[1][|SampleName|..]) else None
  }

  // ---- properties of do_GET ----

  /** Only the four known paths are served; every other path gets 404. */
  lemma NotFoundIffUnknownPath(path: string, uptime: nat, startedAt: string, currentTime: string)
    ensures var r := Serve(path, uptime, startedAt, currentTime);
      (r.status == 404 <==> path !in KnownPaths) &&
      (r.status == 200 <==> path in KnownPaths)
  {
  }

  /** `;parameters` split off the last segment of a relative path. */
  function WithoutParams(path: string): string
  {
    if ';' in path then SplitParams(path).0 else path
  }

  /** A request target that starts with a single `/` has no scheme and no
      network location: its path is what precedes the fragment and the
      query, less any `;parameters`. */
  lemma RelativeTargetPath(target: string)
    requires target != [] && target[0] == '/' && !(|target| >= 2 && target[1] == '/')
    ensures RequestPath(target) == WithoutParams(BeforeFirst(BeforeFirst(target, '#'), '?'))
  {
    assert SchemeLength(target).None?;
    assert !(|target| >= 2 && target[..2] == "//") by {
      if |target| >= 2 { assert target[..2][1] == target[1]; }
    }
    assert "" in UsesParams by { assert UsesParams[0] == ""; }
    var beforeFragment := BeforeFirst(target, '#');
    assert '#' !in target ==> beforeFragment == target;
    var beforeQuery := BeforeFirst(beforeFragment, '?');
    assert '?' !in beforeFragment ==> beforeQuery == beforeFragment;
    assert UrlParse(target).scheme == "" && UrlParse(target).netloc == "";
  }

  /** A path with no query, fragment or parameters is its own request path. */
  lemma RequestPathPlain(path: string)
    requires path != [] && path[0] == '/' && !(|path| >= 2 && path[1] == '/')
    requires '?' !in path && '#' !in path && ';' !in path
    ensures RequestPath(path) == path
  {
    RelativeTargetPath(path);
    assert BeforeFirst(path, '#') == path;
    assert BeforeFirst(path, '?') == path;
  }

  /** Cutting at the first `#` and then at the first `?` leaves the text
      before a `?` that follows a path holding neither. */
  lemma QueryCut(path: string, rest: string)
    requires '?' !in path && '#' !in path
    ensures BeforeFirst(BeforeFirst(path + "?" + rest, '#'), '?') == path
  {
    var url := path + "?" + rest;
    assert url == path + (['?'] + rest);
    IndexOfConcat(path, ['?'] + rest, '#');
    var beforeFragment := BeforeFirst(url, '#');
    assert beforeFragment == path + (['?'] + rest)[..IndexOf(['?'] + rest, '#')];
    assert beforeFragment[|path|] == '?';
    assert beforeFragment == path + ['?'] + beforeFragment[|path| + 1..];
    IndexOfAfter(path, '?', beforeFragment[|path| + 1..]);
  }

  /** A query string after such a path, whatever it holds, is not part of the
      request path. */
  lemma QueryNotInPath(path: string, rest: string)
    requires path != [] && path[0] == '/' && !(|path| >= 2 && path[1] == '/')
    requires '?' !in path && '#' !in path && ';' !in path
    ensures RequestPath(path + "?" + rest) == path
  {
    var url := path + "?" + rest;
    assert url[0] == '/';
    assert |url| >= 2 ==> url[1] == (if |path| >= 2 then path[1] else '?');
    RelativeTargetPath(url);
    QueryCut(path, rest);
  }

  /** So a query string does not change the response: dispatch looks only at
      the path. */
  lemma QueryIgnored(path: string, rest: string, uptime: nat, startedAt: string, currentTime: string)
    requires path != [] && path[0] == '/' && !(|path| >= 2 && path[1] == '/')
    requires '?' !in path && '#' !in path && ';' !in path
    ensures Respond(path + "?" + rest, uptime, startedAt, currentTime) == Respond(path, uptime, startedAt, currentTime)
  {
    QueryNotInPath(path, rest);
    RequestPathPlain(path);
  }

  /** Both JSON endpoints report the uptime in seconds; `/health` reports
      `healthy`, and the uptime document's human-readable uptime reads back as
      the same number of seconds. */
  lemma JsonDocumentsAgree(path: string, uptime: nat, startedAt: string, currentTime: string)
    requires Route(path) == HealthJson || Route(path) == UptimeJson
    ensures var r := Serve(path, uptime, startedAt, currentTime);
      r.status == 200 && r.body.JsonBody? &&
      ("Access-Control-Allow-Origin", "*") in r.headers &&
      Field(r.body.fields, "uptime_seconds") == Some(JNumber(uptime)) &&
      (Route(path) == HealthJson ==> Field(r.body.fields, "status") == Some(JString("healthy"))) &&
      (Route(path) == UptimeJson ==>
         Field(r.body.fields, "uptime_human").Some? &&
         Field(r.body.fields, "uptime_human").value.JString? &&
         ParseUptime(Field(r.body.fields, "uptime_human").value.text) == Some(uptime))
  {
    FormatUptimeRoundTrip(uptime);
  }

  /** Splitting two newline-terminated lines at newlines. */
  lemma TwoLines(first: string, second: string)
    requires '\n' !in first && '\n' !in second
    ensures Split(first + "\n" + second + "\n", '\n') == [first, second, ""]
  {
    assert Join([second, ""], '\n') == second + "\n";
    assert Join([first, second, ""], '\n') == first + "\n" + Join([second, ""], '\n');
    assert first + "\n" + second + "\n" == Join([first, second, ""], '\n');
    SplitJoin([first, second, ""], '\n');
  }

  /** The sample line of a two-line text is read after the metric name. */
  lemma SampleLine(header: string, digits: string)
    requires '\n' !in header && '\n' !in digits && '\n' !in SampleName
    ensures MetricsSample(header + "\n" + SampleName + digits + "\n") == ParseNat(digits)
  {
    var line := SampleName + digits;
    TwoLines(header, line);
    assert header + "\n" + SampleName + digits + "\n" == header + "\n" + line + "\n";
    assert line[|SampleName|..] == digits;
  }

  /** The metrics text's sample is the uptime in seconds. */
  lemma MetricsRoundTrip(uptime: nat)
    ensures MetricsSample(MetricsText(uptime)) == Some(uptime)
  {
    NatToStringHasNo(uptime, '\n');
    assert '\n' !in MetricsHeader && '\n' !in SampleName;
    SampleLine(MetricsHeader, NatToString(uptime));
    NatToStringRoundTrip(uptime);
  }
}
