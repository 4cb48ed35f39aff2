/** The `health` command (app/commands/health.py): it composes the route to
    probe from a url, an optional port and a path, and hands it with the retry
    settings to check_health. */
module HealthCmd {
  import opened Wrappers
  import opened Strings

  /** The arguments of the check_health call the command makes. */
  datatype HealthRequest = HealthRequest(route: string, maxRetries: int, timeout: int, delay: int)

  /** `":" + str(port)` when the port is truthy, else nothing. */
  function PortSuffix(port: Option<int>): string
  {
    if port.Some? && port.value != 0 then ":" + IntToString(port.value) else ""
  }

  /** `url = f"{url}:{port}"` when the port is truthy. */
  function WithPort(url: string, port: Option<int>): string
  {
    url + PortSuffix(port)
  }

  /** `"http://" + url` unless the text "http" occurs anywhere in the url. */
  function WithScheme(url: string): string
  {
    if Contains(url, "http") then url else "http://" + url
  }

  /** The route probed: the port is attached before the scheme check, the path last. */
  function Route(url: string, path: string, port: Option<int>): string
  {
    WithScheme(WithPort(url, port)) + path
  }

  /** health: what is passed to check_health. */
  function Health(url: string, path: string, port: Option<int>, maxRetries: int, timeout: int, delay: int): (r: HealthRequest)
    ensures r.maxRetries == maxRetries && r.timeout == timeout && r.delay == delay
    ensures Contains(r.route, "http")
    ensures r.route == url + PortSuffix(port) + path || r.route == "http://" + url + PortSuffix(port) + path
  {
    RouteShape(url, path, port);
    HealthRequest(Route(url, path, port), maxRetries, timeout, delay)
  }

  /** The route is `[http://]url[:port]path`, and "http://" is prefixed exactly
      when neither the url nor the port suffix contains "http". */
  lemma RouteShape(url: string, path: string, port: Option<int>)
    ensures Contains(url + PortSuffix(port), "http") ==> Route(url, path, port) == url + PortSuffix(port) + path
    ensures !Contains(url + PortSuffix(port), "http") ==> Route(url, path, port) == "http://" + url + PortSuffix(port) + path
    ensures Contains(Route(url, path, port), "http")
  {
    var u := WithPort(url, port);
    if Contains(u, "http") {
      ContainsExtended("", u, path, "http");
      assert "" + u + path == u + path;
    } else {
      ContainsPrefix("http", "://" + u + path);
      assert "http" + ("://" + u + path) == "http://" + u + path;
    }
  }

  /** Composing again from a composed route, with no port and no path, changes nothing. */
  lemma RouteIdempotent(url: string, path: string, port: Option<int>)
    ensures Route(Route(url, path, port), "", None) == Route(url, path, port)
  {
    RouteShape(url, path, port);
    assert Route(url, path, port) + "" == Route(url, path, port);
  }

  /** With every default the command probes "http://localhost/". */
  lemma DefaultRoute()
    ensures Health("http://localhost", "/", None, 3, 5, 1) == HealthRequest("http://localhost/", 3, 5, 1)
  {
    var u := "http://localhost";
    assert WithPort(u, None) == u;
    assert OccursAt(u, "http", 0);
    assert WithScheme(u) == u;
  }

  /** The scheme test is a substring test: a host whose name contains "http"
      is probed without any scheme. */
  lemma HttpInsideHostName()
    ensures Route("myhttpd", "/", None) == "myhttpd/"
  {
    var u := "myhttpd";
    assert WithPort(u, None) == u;
    assert OccursAt(u, "http", 2);
    assert WithScheme(u) == u;
  }
}
