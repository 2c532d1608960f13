/**
 * The result shaping of `fetch_jira_activity` and
 * `fetch_confluence_activity` in scripts/logbook-local.py, over responses
 * already received.
 *
 * A response is the part of the JSON body the function reads: `None` stands
 * for a request that failed, an empty body, or a body without the `issues`
 * (or `results`) key, which the script treats alike. The Confluence request
 * per space is a function parameter, and the cut-off timestamp `since_date`
 * (ISO text) is a parameter.
 */
module LogbookFetch {
  import opened Wrappers
  import opened PyStr

  /** `config.get(key)` */
  function Lookup(config: map<string, string>, key: string): Option<string>
  {
    if key in config then Some(config[key]) else None
  }

  /** A configuration value counts for `all([...])`: present and not empty. */
  predicate Truthy(o: Option<string>)
  {
    o.Some? && o.value != ""
  }

  /** `"\n".join(lines)` over bullet lines of at most the first ten items. */
  function FirstTen<T>(xs: seq<T>): (r: seq<T>)
    ensures |r| == if |xs| < 10 then |xs| else 10
    ensures r == xs[..|r|]
  {
    if |xs| <= 10 then xs else xs[..10]
  }

  // ---------------------------------------------------------------------------
  // Jira
  // ---------------------------------------------------------------------------

  /** An issue as the report reads it; `resolved` is the truthiness of `fields.resolution`. */
  datatype Issue = Issue(key: string, summary: string, status: string, resolved: bool)

  /** The dictionary `fetch_jira_activity` returns; `resolved` is absent on the early returns. */
  datatype JiraResult = JiraResult(count: nat, resolved: Option<nat>, data: string, issues: seq<Issue>)

  predicate JiraConfigured(config: map<string, string>)
  {
    Truthy(Lookup(config, "ATLASSIAN_DOMAIN")) && Truthy(Lookup(config, "ATLASSIAN_EMAIL")) &&
    Truthy(Lookup(config, "ATLASSIAN_API_TOKEN")) && Truthy(Lookup(config, "JIRA_PROJECT"))
  }

  /** `sum(1 for i in issues if i["fields"]["resolution"])` */
  function ResolvedCount(issues: seq<Issue>): (n: nat)
    ensures n <= |issues|
  {
    if issues == [] then 0
    else ResolvedCount(issues[..|issues| - 1]) + (if issues[|issues| - 1].resolved then 1 else 0)
  }

  /** The resolved count adds up over any split of the issues. */
  lemma {:induction false} ResolvedCountAppend(a: seq<Issue>, b: seq<Issue>)
    ensures ResolvedCount(a + b) == ResolvedCount(a) + ResolvedCount(b)
    decreases |b|
  {
    if b == [] {
      assert a + b == a;
    } else {
      var b' := b[..|b| - 1];
      ResolvedCountAppend(a, b');
      assert (a + b)[..|a + b| - 1] == a + b';
      assert (a + b)[|a + b| - 1] == b[|b| - 1];
    }
  }

  /** Every issue is counted as resolved exactly when every issue has a resolution. */
  lemma {:induction false} ResolvedCountAll(issues: seq<Issue>)
    ensures ResolvedCount(issues) == |issues| <==> forall i :: 0 <= i < |issues| ==> issues[i].resolved
  {
    if issues != [] {
      var init := issues[..|issues| - 1];
      ResolvedCountAll(init);
      assert forall i :: 0 <= i < |init| ==> init[i] == issues[i];
    }
  }

  function IssueLine(i: Issue): string
  {
    "\U{2022} " + i.key + ": " + i.summary + " [" + i.status + "]"
  }

  function JiraLines(issues: seq<Issue>): seq<string>
  {
    seq(|issues|, k requires 0 <= k < |issues| => IssueLine(issues[k]))
  }

  /** `fetch_jira_activity(config, days)` given the search response. */
  function JiraActivity(config: map<string, string>, days: int, response: Option<seq<Issue>>): (r: JiraResult)
    ensures r.count == |r.issues| && (r.resolved.Some? ==> r.resolved.value <= r.count)
    ensures r.data != []
  {
    if !JiraConfigured(config) then JiraResult(0, None, "_Jira not configured_", [])
    else match response
      case None => JiraResult(0, None, "_Could not fetch Jira data_", [])
      case Some(issues) =>
        var data :=
          if |issues| == 0 then "_No Jira activity in the last " + IntToString(days) + " day(s)_"
          else Join(JiraLines(FirstTen(issues)), "\n");
        JiraResult(|issues|, Some(ResolvedCount(issues)), data, issues)
  }

  /**
   * Not configured or not fetched: count 0, no issues and no resolved count.
   * Otherwise the count is the number of issues, at least the resolved count.
   */
  lemma JiraCounts(config: map<string, string>, days: int, response: Option<seq<Issue>>)
    ensures var r := JiraActivity(config, days, response);
      && (!JiraConfigured(config) || response.None? ==> r.count == 0 && r.issues == [] && r.resolved == None)
      && (JiraConfigured(config) && response.Some? ==>
            r.count == |response.value| && r.issues == response.value &&
            r.resolved == Some(ResolvedCount(response.value)) && r.resolved.value <= r.count)
  {
  }

  /** With one-line fields, the report lists one line per issue, for the first ten issues. */
  lemma JiraListsAtMostTen(config: map<string, string>, days: int, issues: seq<Issue>)
    requires JiraConfigured(config) && |issues| > 0
    requires forall k :: 0 <= k < |issues| ==>
      '\n' !in issues[k].key && '\n' !in issues[k].summary && '\n' !in issues[k].status
    ensures Split(JiraActivity(config, days, Some(issues)).data, "\n") == JiraLines(FirstTen(issues))
    ensures |Split(JiraActivity(config, days, Some(issues)).data, "\n")| == if |issues| < 10 then |issues| else 10
  {
    var first := FirstTen(issues);
    var lines := JiraLines(first);
    forall k | 0 <= k < |lines| ensures "\n"[0] !in lines[k] {
      assert first[k] == issues[k];
      assert '\n' !in IssueLine(first[k]);
    }
    SplitJoin(lines, "\n");
  }

  // ---------------------------------------------------------------------------
  // Confluence
  // ---------------------------------------------------------------------------

  /** A page as the report reads it; `updated` is `history.lastUpdated.when`, `""` when absent. */
  datatype Page = Page(title: string, updated: string)

  /** The dictionary `fetch_confluence_activity` returns. */
  datatype ConfluenceResult = ConfluenceResult(count: nat, data: string, pages: seq<string>)

  /** `config.get("CONFLUENCE_SPACES", "").split(",")` */
  function Spaces(config: map<string, string>): (spaces: seq<string>)
    ensures |spaces| >= 1
  {
    Split(Lookup(config, "CONFLUENCE_SPACES").GetOr(""), ",")
  }

  predicate ConfluenceConfigured(config: map<string, string>)
  {
    Truthy(Lookup(config, "ATLASSIAN_DOMAIN")) && Truthy(Lookup(config, "ATLASSIAN_EMAIL")) &&
    Truthy(Lookup(config, "ATLASSIAN_API_TOKEN")) && Spaces(config)[0] != ""
  }

  /** The titles of the pages updated after `since`, in order. */
  function Recent(pages: seq<Page>, since: string): (titles: seq<string>)
    ensures |titles| <= |pages|
  {
    if pages == [] then []
    else
      var rest := Recent(pages[..|pages| - 1], since);
      var p := pages[|pages| - 1];
      if Less(since, p.updated) then rest + [p.title] else rest
  }

  /** What one entry of the space list contributes: nothing when it strips to empty or its request yields no results. */
  function SpacePages(space: string, since: string, fetch: string -> Option<seq<Page>>): seq<string>
  {
    var s := Strip(space);
    if s == "" then []
    else match fetch(s)
      case None => []
      case Some(pages) => Recent(pages, since)
  }

  /** `all_pages` after the loop over the spaces. */
  function PagesOf(spaces: seq<string>, since: string, fetch: string -> Option<seq<Page>>): seq<string>
  {
    if spaces == [] then []
    else PagesOf(spaces[..|spaces| - 1], since, fetch) + SpacePages(spaces[|spaces| - 1], since, fetch)
  }

  /** `fetch_confluence_activity(config, days)` */
  function ConfluenceActivityOf(config: map<string, string>, days: int, since: string,
                                fetch: string -> Option<seq<Page>>): ConfluenceResult
  {
    if !ConfluenceConfigured(config) then ConfluenceResult(0, "_Confluence not configured_", [])
    else
      var pages := PagesOf(Spaces(config), since, fetch);
      var data :=
        if |pages| == 0 then "_No Confluence edits in the last " + IntToString(days) + " day(s)_"
        else Join(PageLines(FirstTen(pages)), "\n");
      ConfluenceResult(|pages|, data, pages)
  }

  function PageLines(titles: seq<string>): seq<string>
  {
    seq(|titles|, k requires 0 <= k < |titles| => "\U{2022} " + titles[k])
  }

  /** `fetch_confluence_activity(config, days)`: the loop over the spaces and their pages. */
  method ConfluenceActivity(config: map<string, string>, days: int, since: string,
                            fetch: string -> Option<seq<Page>>) returns (r: ConfluenceResult)
    ensures r == ConfluenceActivityOf(config, days, since, fetch)
  {
    var spaces := Spaces(config);
    if !(Truthy(Lookup(config, "ATLASSIAN_DOMAIN")) && Truthy(Lookup(config, "ATLASSIAN_EMAIL")) &&
         Truthy(Lookup(config, "ATLASSIAN_API_TOKEN"))) || spaces[0] == "" {
      return ConfluenceResult(0, "_Confluence not configured_", []);
    }
    var allPages := CollectPages(spaces, since, fetch);
    var count := |allPages|;
    var data;
    if count == 0 {
      data := "_No Confluence edits in the last " + IntToString(days) + " day(s)_";
    } else {
      data := Join(PageLines(FirstTen(allPages)), "\n");
    }
    r := ConfluenceResult(count, data, allPages);
  }

  /** The loop over the spaces: each non-empty space's pages updated after `since`, space by space. */
  method CollectPages(spaces: seq<string>, since: string, fetch: string -> Option<seq<Page>>)
    returns (allPages: seq<string>)
    ensures allPages == PagesOf(spaces, since, fetch)
  {
    allPages := [];
    for n := 0 to |spaces|
      invariant allPages == PagesOf(spaces[..n], since, fetch)
    {
      PagesStep(spaces, n, since, fetch);
      var space := Strip(spaces[n]);
      if space == "" {
        continue;
      }
      var response := fetch(space);
      if response.Some? {
        allPages := AppendRecent(allPages, response.value, since);
      }
    }
    assert spaces[..|spaces|] == spaces;
  }

  /** The inner loop: appends the title of each result updated after `since`. */
  method AppendRecent(allPages: seq<string>, results: seq<Page>, since: string) returns (r: seq<string>)
    ensures r == allPages + Recent(results, since)
  {
    r := allPages;
    for m := 0 to |results|
      invariant r == allPages + Recent(results[..m], since)
    {
      RecentStep(results, m, since);
      if Less(since, results[m].updated) {
        r := r + [results[m].title];
      }
    }
    assert results[..|results|] == results;
  }

  lemma PagesStep(spaces: seq<string>, n: nat, since: string, fetch: string -> Option<seq<Page>>)
    requires n < |spaces|
    ensures PagesOf(spaces[..n + 1], since, fetch) == PagesOf(spaces[..n], since, fetch) + SpacePages(spaces[n], since, fetch)
  {
    assert spaces[..n + 1][..n] == spaces[..n];
  }

  lemma RecentStep(pages: seq<Page>, m: nat, since: string)
    requires m < |pages|
    ensures Recent(pages[..m + 1], since) ==
      Recent(pages[..m], since) + (if Less(since, pages[m].updated) then [pages[m].title] else [])
  {
    assert pages[..m + 1][..m] == pages[..m];
  }

  /** A page is listed exactly when it was updated after `since`. */
  lemma {:induction false} RecentMembers(pages: seq<Page>, since: string)
    ensures forall t :: t in Recent(pages, since) <==>
      exists k :: 0 <= k < |pages| && pages[k].title == t && Less(since, pages[k].updated)
  {
    if pages != [] {
      var init := pages[..|pages| - 1];
      RecentMembers(init, since);
      assert forall k :: 0 <= k < |init| ==> init[k] == pages[k];
    }
  }

  /** An earlier cut-off keeps every page a later one keeps, and possibly more. */
  lemma {:induction false} EarlierSinceKeepsMore(pages: seq<Page>, earlier: string, later: string)
    requires Less(earlier, later)
    ensures |Recent(pages, later)| <= |Recent(pages, earlier)|
    ensures forall t :: t in Recent(pages, later) ==> t in Recent(pages, earlier)
  {
    if pages != [] {
      var p := pages[|pages| - 1];
      EarlierSinceKeepsMore(pages[..|pages| - 1], earlier, later);
      if Less(later, p.updated) {
        LessTransitive(earlier, later, p.updated);
      }
    }
  }

  /** Without a `CONFLUENCE_SPACES` setting, or with an empty one, Confluence counts as not configured. */
  lemma SpacesUnset(config: map<string, string>)
    requires "CONFLUENCE_SPACES" !in config || config["CONFLUENCE_SPACES"] == ""
    ensures !ConfluenceConfigured(config)
  {
    assert Spaces(config) == [""] by {
      assert Find("", ",").None?;
    }
  }

  /** The count is the number of recent pages of all spaces, and the pages are exactly those. */
  lemma ConfluenceCounts(config: map<string, string>, days: int, since: string, fetch: string -> Option<seq<Page>>)
    ensures var r := ConfluenceActivityOf(config, days, since, fetch);
      && r.count == |r.pages|
      && (!ConfluenceConfigured(config) ==> r.count == 0)
      && (ConfluenceConfigured(config) ==> r.pages == PagesOf(Spaces(config), since, fetch))
  {
  }

  /** With one-line titles, at most ten pages are listed, one per line. */
  lemma ConfluenceListsAtMostTen(titles: seq<string>)
    requires |titles| > 0 && forall k :: 0 <= k < |titles| ==> '\n' !in titles[k]
    ensures |Split(Join(PageLines(FirstTen(titles)), "\n"), "\n")| == if |titles| < 10 then |titles| else 10
  {
    var first := FirstTen(titles);
    var lines := PageLines(first);
    forall k | 0 <= k < |lines| ensures "\n"[0] !in lines[k] {
      assert first[k] == titles[k];
    }
    SplitJoin(lines, "\n");
  }
}
