/**
 * The browser-redirect decision of the HTTP middleware (api/main.py): a browser
 * asking for an API path with a page of its own is sent to that dashboard page,
 * a browser asking for one incident is sent to the incidents page, and every
 * other request goes on to the API.
 */
module Api {
  import opened Wrappers
  import opened Text

  /** `_API_TO_PAGE`: the API paths that have a dashboard page, and the page's name. */
  const ApiToPage: map<string, string> := map[
    "/api/v1/health" := "health",
    "/api/v1/incidents" := "incidents",
    "/api/v1/runbooks/search" := "runbooks",
    "/metrics" := "metrics"
  ]

  const IncidentPrefix: string := "/api/v1/incidents/"

  datatype Decision = Redirect(url: string) | PassThrough

  /** A GET whose `Accept` header (missing means "") mentions "text/html". */
  predicate FromBrowser(httpMethod: string, accept: Option<string>) {
    httpMethod == "GET" && Contains(accept.GetOr(""), "text/html")
  }

  /** The two redirect rules of `log_requests`, the table rule first. */
  function RedirectDecision(httpMethod: string, accept: Option<string>, path: string): (r: Decision)
    ensures r.Redirect? <==>
              (FromBrowser(httpMethod, accept)
               && (path in ApiToPage || (StartsWith(path, IncidentPrefix) && !Contains(path, "/trace"))))
    ensures r.Redirect? && path in ApiToPage ==> r.url == "/#" + ApiToPage[path]
    ensures r.Redirect? && path !in ApiToPage ==> r.url == "/#incidents"
  {
    if FromBrowser(httpMethod, accept) && path in ApiToPage then
      Redirect("/#" + ApiToPage[path])
    else if FromBrowser(httpMethod, accept) && StartsWith(path, IncidentPrefix) && !Contains(path, "/trace") then
      Redirect("/#incidents")
    else
      PassThrough
  }

  /** Requests that are not GETs, or whose `Accept` lacks "text/html", always reach the API. */
  lemma NonBrowserPassesThrough(httpMethod: string, accept: Option<string>, path: string)
    requires httpMethod != "GET" || !Contains(accept.GetOr(""), "text/html")
    ensures RedirectDecision(httpMethod, accept, path) == PassThrough
  {
  }

  /** The four table paths. */
  lemma TablePaths(path: string)
    requires path in ApiToPage
    ensures path == "/api/v1/health" || path == "/api/v1/incidents"
         || path == "/api/v1/runbooks/search" || path == "/metrics"
  {
  }

  /** No table path lies below the incidents prefix, so the order of the two rules is immaterial. */
  lemma TableAndPrefixDisjoint(path: string)
    requires path in ApiToPage
    ensures !StartsWith(path, IncidentPrefix)
  {
    TablePaths(path);
    if path == "/api/v1/runbooks/search" {
      assert path[8] != IncidentPrefix[8];
    }
  }

  /** A character of a contained string occurs in the containing one. */
  lemma ContainsChars(s: string, sub: string, c: char)
    requires Contains(s, sub) && c in sub
    ensures c in s
  {
    var i :| 0 <= i <= |s| && StartsWith(s[i..], sub);
    var k :| 0 <= k < |sub| && sub[k] == c;
    assert s[i + k] == c;
  }

  /** No table path contains "/trace": each lacks one of its letters. */
  lemma TablePathsHaveNoTrace(path: string)
    requires path in ApiToPage
    ensures !Contains(path, "/trace")
  {
    TablePaths(path);
    if path == "/api/v1/health" || path == "/api/v1/incidents" {
      assert 'r' !in path;
      if Contains(path, "/trace") { ContainsChars(path, "/trace", 'r'); }
    } else if path == "/api/v1/runbooks/search" {
      assert 't' !in path;
      if Contains(path, "/trace") { ContainsChars(path, "/trace", 't'); }
    } else {
      assert 'a' !in path;
      if Contains(path, "/trace") { ContainsChars(path, "/trace", 'a'); }
    }
  }

  /** Incident paths containing "/trace" always reach the API. */
  lemma TracePathsPassThrough(httpMethod: string, accept: Option<string>, path: string)
    requires Contains(path, "/trace")
    ensures RedirectDecision(httpMethod, accept, path) == PassThrough
  {
    if path in ApiToPage {
      TablePathsHaveNoTrace(path);
    }
  }

  /** Every redirect goes to "/#" followed by one of the dashboard's page names. */
  lemma RedirectsNameAPage(httpMethod: string, accept: Option<string>, path: string)
    requires RedirectDecision(httpMethod, accept, path).Redirect?
    ensures exists page :: page in ApiToPage.Values && RedirectDecision(httpMethod, accept, path).url == "/#" + page
  {
    if path in ApiToPage {
      assert ApiToPage[path] in ApiToPage.Values;
    } else {
      assert ApiToPage["/api/v1/incidents"] in ApiToPage.Values;
    }
  }
}
