/**
 * The result shaping of `fetch_slack_activity` in scripts/logbook-local.py:
 * the per-channel tally over the first twenty search matches, the five
 * busiest channels, and the error texts.
 *
 * The token `get_slack_token` finds is a parameter (`None` when there is
 * none), and so is the search response: `None` for a failed request or an
 * empty body.
 */
module LogbookSlack {
  import opened Wrappers
  import opened PyStr

  /** A search match; `channel` is `channel.name`, `None` when the match has no channel name. */
  datatype SlackMatch = SlackMatch(channel: Option<string>)

  /** The fields of the `search.messages` body the script reads. */
  datatype SlackResponse = SlackResponse(ok: bool, error: Option<string>, matches: seq<SlackMatch>, total: nat)

  /** The dictionary `fetch_slack_activity` returns. */
  datatype SlackResult = SlackResult(count: nat, data: string, messages: seq<SlackMatch>)

  /** The `channels` dictionary: channel names with their counts, in insertion order. */
  type Tally = seq<(string, nat)>

  function ChannelName(m: SlackMatch): string
  {
    m.channel.GetOr("DM")
  }

  /** The channel names of the first twenty matches. */
  function Names(matches: seq<SlackMatch>): (names: seq<string>)
    ensures |names| == if |matches| < 20 then |matches| else 20
    ensures forall i :: 0 <= i < |names| ==> names[i] == ChannelName(matches[i])
  {
    var n := if |matches| < 20 then |matches| else 20;
    seq(n, i requires 0 <= i < n => ChannelName(matches[i]))
  }

  // ---------------------------------------------------------------------------
  // The tally
  // ---------------------------------------------------------------------------

  /** Where `name` stands in the dictionary; `|t|` when it is not a key. */
  function Position(t: Tally, name: string): (i: nat)
    ensures i <= |t|
    ensures i < |t| ==> t[i].0 == name
    ensures forall j :: 0 <= j < i ==> t[j].0 != name
  {
    if t == [] then 0
    else if t[0].0 == name then 0
    else 1 + Position(t[1..], name)
  }

  /** `channels.get(name, 0)` */
  function CountOf(t: Tally, name: string): nat
  {
    var i := Position(t, name);
    if i < |t| then t[i].1 else 0
  }

  /** `channels[name] = channels.get(name, 0) + 1`: an existing key keeps its place, a new one goes last. */
  function Bump(t: Tally, name: string): Tally
  {
    var i := Position(t, name);
    if i < |t| then t[i := (name, t[i].1 + 1)] else t + [(name, 1)]
  }

  function TallyOf(names: seq<string>): Tally
  {
    if names == [] then [] else Bump(TallyOf(names[..|names| - 1]), names[|names| - 1])
  }

  /** Each channel appears once in the dictionary. */
  predicate Distinct(t: Tally)
  {
    forall i, j :: 0 <= i < j < |t| ==> t[i].0 != t[j].0
  }

  function SumCounts(t: Tally): nat
  {
    if t == [] then 0 else SumCounts(t[..|t| - 1]) + t[|t| - 1].1
  }

  lemma BumpCount(t: Tally, name: string, x: string)
    ensures CountOf(Bump(t, name), x) == CountOf(t, x) + (if x == name then 1 else 0)
    ensures |Bump(t, name)| == if Position(t, name) < |t| then |t| else |t| + 1
  {
    var b := Bump(t, name);
    var p := Position(t, x);
    assert forall j :: 0 <= j < |t| ==> b[j].0 == t[j].0;
    if p < |t| {
      assert Position(b, x) == p by {
        PositionAt(b, x, p);
      }
    } else if x == name {
      PositionAt(b, x, |t|);
    } else {
      assert forall j :: 0 <= j < |b| ==> b[j].0 != x;
      PositionAbsent(b, x);
    }
  }

  lemma PositionAt(t: Tally, name: string, p: nat)
    requires p < |t| && t[p].0 == name && forall j :: 0 <= j < p ==> t[j].0 != name
    ensures Position(t, name) == p
  {
    var q := Position(t, name);
    assert !(q < p) && !(p < q);
  }

  lemma PositionAbsent(t: Tally, name: string)
    requires forall j :: 0 <= j < |t| ==> t[j].0 != name
    ensures Position(t, name) == |t|
  {
  }

  lemma BumpDistinct(t: Tally, name: string)
    requires Distinct(t)
    ensures Distinct(Bump(t, name))
  {
  }

  lemma {:induction false} SumBump(t: Tally, name: string)
    ensures SumCounts(Bump(t, name)) == SumCounts(t) + 1
  {
    var i := Position(t, name);
    if i < |t| {
      SumUpdate(t, i, (name, t[i].1 + 1));
    } else {
      assert (t + [(name, 1)])[..|t|] == t;
    }
  }

  lemma {:induction false} SumUpdate(t: Tally, i: nat, e: (string, nat))
    requires i < |t|
    ensures SumCounts(t[i := e]) == SumCounts(t) - t[i].1 + e.1
  {
    var u := t[i := e];
    if i < |t| - 1 {
      assert u[..|u| - 1] == t[..|t| - 1][i := e];
      SumUpdate(t[..|t| - 1], i, e);
    } else {
      assert u[..|u| - 1] == t[..|t| - 1];
    }
  }

  /**
   * The dictionary holds each channel once, with the number of matches in
   * that channel, and its counts add up to the number of matches.
   */
  lemma {:induction false} TallyCounts(names: seq<string>)
    ensures Distinct(TallyOf(names))
    ensures forall x :: CountOf(TallyOf(names), x) == multiset(names)[x]
    ensures SumCounts(TallyOf(names)) == |names|
  {
    if names != [] {
      var init := names[..|names| - 1];
      var last := names[|names| - 1];
      TallyCounts(init);
      BumpDistinct(TallyOf(init), last);
      SumBump(TallyOf(init), last);
      assert names == init + [last];
      forall x ensures CountOf(TallyOf(names), x) == multiset(names)[x] {
        BumpCount(TallyOf(init), last, x);
      }
    }
  }

  /** In a dictionary without repeated keys, an entry's count is the count of its key. */
  lemma CountOfEntry(t: Tally, i: nat)
    requires Distinct(t) && i < |t|
    ensures CountOf(t, t[i].0) == t[i].1
  {
    PositionAt(t, t[i].0, i);
  }

  // ---------------------------------------------------------------------------
  // sorted(channels.items(), key=lambda x: -x[1])
  // ---------------------------------------------------------------------------

  predicate SortedDesc(s: Tally)
  {
    forall i, j :: 0 <= i < j < |s| ==> s[i].1 >= s[j].1
  }

  /** Places `x` before the first entry whose count is not larger, so that it stays ahead of its equals. */
  function InsertByCount(x: (string, nat), s: Tally): Tally
  {
    if s == [] then [x]
    else if s[0].1 <= x.1 then [x] + s
    else [s[0]] + InsertByCount(x, s[1..])
  }

  /** Python's stable sort by descending count. */
  function SortByCount(t: Tally): Tally
  {
    if t == [] then [] else InsertByCount(t[0], SortByCount(t[1..]))
  }

  lemma {:induction false} InsertSorted(x: (string, nat), s: Tally)
    requires SortedDesc(s)
    ensures SortedDesc(InsertByCount(x, s))
  {
    if s != [] && s[0].1 > x.1 {
      var rest := InsertByCount(x, s[1..]);
      InsertSorted(x, s[1..]);
      forall j | 0 <= j < |rest| ensures s[0].1 >= rest[j].1 {
        InsertFrom(x, s[1..], j);
      }
    }
  }

  /** Each entry after an insertion is the inserted one or an entry from before. */
  lemma {:induction false} InsertFrom(x: (string, nat), s: Tally, j: nat)
    requires j < |InsertByCount(x, s)|
    ensures InsertByCount(x, s)[j] == x || InsertByCount(x, s)[j] in s
  {
    if s != [] && s[0].1 > x.1 && j > 0 {
      InsertFrom(x, s[1..], j - 1);
    }
  }

  lemma {:induction false} InsertPerm(x: (string, nat), s: Tally)
    ensures multiset(InsertByCount(x, s)) == multiset(s) + multiset{x}
    ensures |InsertByCount(x, s)| == |s| + 1
  {
    if s != [] && s[0].1 > x.1 {
      InsertPerm(x, s[1..]);
      assert s == [s[0]] + s[1..];
    }
  }

  /** The sort orders by descending count and is a permutation. */
  lemma SortSorted(t: Tally)
    ensures SortedDesc(SortByCount(t))
    ensures multiset(SortByCount(t)) == multiset(t)
    ensures |SortByCount(t)| == |t|
  {
    SortOrdered(t);
    SortPerm(t);
  }

  lemma {:induction false} SortOrdered(t: Tally)
    ensures SortedDesc(SortByCount(t))
  {
    if t != [] {
      SortOrdered(t[1..]);
      InsertSorted(t[0], SortByCount(t[1..]));
    }
  }

  lemma {:induction false} SortPerm(t: Tally)
    ensures multiset(SortByCount(t)) == multiset(t)
    ensures |SortByCount(t)| == |t|
  {
    if t != [] {
      var rest := SortByCount(t[1..]);
      SortPerm(t[1..]);
      InsertPerm(t[0], rest);
      assert t == [t[0]] + t[1..];
    }
  }

  /** The sort is stable: a dictionary already in descending order keeps its order, ties included. */
  lemma {:induction false} SortStable(t: Tally)
    requires SortedDesc(t)
    ensures SortByCount(t) == t
  {
    if t != [] {
      SortStable(t[1..]);
      assert t == [t[0]] + t[1..];
    }
  }

  /** `[:5]` */
  function Top(s: Tally): (r: Tally)
    ensures |r| == if |s| < 5 then |s| else 5
    ensures r == s[..|r|]
  {
    if |s| <= 5 then s else s[..5]
  }

  /** At most five channels are listed, busiest first, none less busy than a channel left out. */
  lemma TopChannels(t: Tally)
    ensures var sorted := SortByCount(t);
      var top := Top(sorted);
      && |top| <= 5 && SortedDesc(top)
      && multiset(sorted) == multiset(t)
      && forall i, j :: 0 <= i < |top| <= j < |sorted| ==> top[i].1 >= sorted[j].1
  {
    SortSorted(t);
  }

  // ---------------------------------------------------------------------------
  // fetch_slack_activity
  // ---------------------------------------------------------------------------

  function ChannelLine(e: (string, nat)): string
  {
    "\U{2022} #" + e.0 + ": " + NatToString(e.1) + " messages"
  }

  function ChannelLines(t: Tally): seq<string>
  {
    seq(|t|, i requires 0 <= i < |t| => ChannelLine(t[i]))
  }

  /** The summary for a positive total and the tally of the first twenty matches. */
  function TallySummary(count: nat, channels: Tally): string
  {
    var head := "*" + NatToString(count) + " messages* across " + NatToString(|channels|) + " conversations";
    if channels != [] then head + "\n" + Join(ChannelLines(Top(SortByCount(channels))), "\n") else head
  }

  const NotConfigured: string := "_Slack not configured_"
  const MissingScope: string := "_Slack search requires user token with search:read scope_"
  const CouldNotFetch: string := "_Could not fetch Slack data_"

  /** What `fetch_slack_activity` returns for the token and the search response. */
  function SlackActivityOf(token: Option<string>, days: int, response: Option<SlackResponse>): SlackResult
  {
    if token.None? || token.value == "" then SlackResult(0, NotConfigured, [])
    else match response
      case None => SlackResult(0, CouldNotFetch, [])
      case Some(r) =>
        if r.ok then
          var data :=
            if r.total == 0 then "_No Slack messages in the last " + IntToString(days) + " day(s)_"
            else TallySummary(r.total, TallyOf(Names(r.matches)));
          SlackResult(r.total, data, r.matches)
        else if r.error.GetOr("unknown") == "missing_scope" then SlackResult(0, MissingScope, [])
        else SlackResult(0, CouldNotFetch, [])
  }

  /** `fetch_slack_activity(config, days)` */
  method SlackActivity(token: Option<string>, days: int, response: Option<SlackResponse>) returns (r: SlackResult)
    ensures r == SlackActivityOf(token, days, response)
  {
    if token.None? || token.value == "" {
      return SlackResult(0, NotConfigured, []);
    }
    if response.Some? && response.value.ok {
      var messages := response.value.matches;
      var count := response.value.total;
      var data;
      if count == 0 {
        data := "_No Slack messages in the last " + IntToString(days) + " day(s)_";
      } else {
        var channels := TallyChannels(messages);
        data := "*" + NatToString(count) + " messages* across " + NatToString(|channels|) + " conversations";
        if channels != [] {
          var topChannels := Top(SortByCount(channels));
          data := data + "\n" + Join(ChannelLines(topChannels), "\n");
        }
      }
      return SlackResult(count, data, messages);
    }
    if response.Some? && !response.value.ok {
      var error := response.value.error.GetOr("unknown");
      if error == "missing_scope" {
        return SlackResult(0, MissingScope, []);
      }
    }
    return SlackResult(0, CouldNotFetch, []);
  }

  /** The tally loop over the first twenty matches. */
  method TallyChannels(matches: seq<SlackMatch>) returns (channels: Tally)
    ensures channels == TallyOf(Names(matches))
  {
    var names := Names(matches);
    channels := [];
    for n := 0 to |names|
      invariant channels == TallyOf(names[..n])
    {
      TallyStep(names, n);
      channels := BumpChannel(channels, ChannelName(matches[n]));
    }
    assert names[..|names|] == names;
  }

  /** `channels[ch] = channels.get(ch, 0) + 1` */
  method BumpChannel(channels: Tally, ch: string) returns (channels': Tally)
    ensures channels' == Bump(channels, ch)
  {
    var i := Position(channels, ch);
    if i < |channels| {
      channels' := channels[i := (ch, channels[i].1 + 1)];
    } else {
      channels' := channels + [(ch, 1)];
    }
  }

  /** One more name bumps its channel's count. */
  lemma TallyStep(names: seq<string>, n: nat)
    requires n < |names|
    ensures TallyOf(names[..n + 1]) == Bump(TallyOf(names[..n]), names[n])
  {
    assert names[..n + 1][..n] == names[..n];
  }

  /**
   * A successful search reports the API's `total` as its count, whatever
   * the number of matches; the tally covers the first twenty matches only,
   * a match without a channel name counting for `DM`.
   */
  lemma SlackCountFromTotal(token: Option<string>, days: int, r: SlackResponse)
    requires token.Some? && token.value != "" && r.ok
    ensures SlackActivityOf(token, days, Some(r)).count == r.total
    ensures SlackActivityOf(token, days, Some(r)).messages == r.matches
    ensures SumCounts(TallyOf(Names(r.matches))) == if |r.matches| < 20 then |r.matches| else 20
    ensures forall i :: 0 <= i < |Names(r.matches)| && r.matches[i].channel.None? ==> Names(r.matches)[i] == "DM"
  {
    TallyCounts(Names(r.matches));
  }

  /** Without a token, or with a failed search, the count is 0 and no messages are returned. */
  lemma SlackFailures(token: Option<string>, days: int, response: Option<SlackResponse>)
    ensures var res := SlackActivityOf(token, days, response);
      && (token.None? || token.value == "" ==> res.data == NotConfigured)
      && (!(response.Some? && response.value.ok) ==> res.count == 0 && res.messages == [])
      && (token.Some? && token.value != "" && response.Some? && !response.value.ok ==>
            (res.data == MissingScope <==> response.value.error == Some("missing_scope")))
  {
  }
}
