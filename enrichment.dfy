/**
 * The deterministic core of scripts/slack-enrichment.py: `load_env`, the
 * message selection of `find_logbook_thread`, the channel summary of
 * `fetch_slack_activity_via_mcp` and `build_enrichment_message`.
 *
 * HTTP responses, the `.env` file's lines, the user token and today's date
 * string (`datetime.now().strftime("%B %d, %Y")`) are parameters.
 */
module Enrichment {
  import opened Wrappers
  import opened PyStr
  import opened DotEnv
  import LogbookSlack

  // ---------------------------------------------------------------------------
  // load_env
  // ---------------------------------------------------------------------------

  /**
   * `os.environ` refuses a name that is empty and a name or value with a NUL
   * character (POSIX `putenv`); `setdefault` then raises `ValueError`.
   */
  predicate Illegal(key: string, value: string)
  {
    key == [] || '\0' in key || '\0' in value
  }

  /** The environment after some lines, and whether `load_env` got through them without raising. */
  datatype Loaded = Loaded(vars: map<string, string>, ok: bool)

  /** `os.environ.setdefault(key, value)` for the assignment of one line. */
  function SetDefaultLine(vars: map<string, string>, a: Option<(string, string)>): Loaded
  {
    match a
    case None => Loaded(vars, true)
    case Some(kv) =>
      if kv.0 in vars then Loaded(vars, true)
      else if Illegal(kv.0, kv.1) then Loaded(vars, false)
      else Loaded(vars[kv.0 := kv.1], true)
  }

  /** The assignments applied in order, stopping at the first that raises. */
  function LoadedFrom(vars: map<string, string>, as_: seq<Option<(string, string)>>): Loaded
    decreases |as_|
  {
    if as_ == [] then Loaded(vars, true)
    else
      var s := SetDefaultLine(vars, as_[0]);
      if !s.ok then s else LoadedFrom(s.vars, as_[1..])
  }

  /** The environment `load_env` leaves after the lines of the `.env` file. */
  function LoadEnvOf(vars: map<string, string>, lines: seq<string>): Loaded
  {
    LoadedFrom(vars, Assignments(lines))
  }

  /** The process environment. */
  class Environment {
    var vars: map<string, string>

    constructor (initial: map<string, string>)
      ensures vars == initial
    {
      vars := initial;
    }

    /** `load_env()` over the lines of the `.env` file; `ok` is false when a line raised and stopped it. */
    method LoadEnv(lines: seq<string>) returns (ok: bool)
      modifies this
      ensures Loaded(vars, ok) == LoadEnvOf(old(vars), lines)
    {
      ghost var as_ := Assignments(lines);
      var n := 0;
      while n < |lines|
        invariant n <= |lines|
        invariant LoadedFrom(vars, as_[n..]) == LoadEnvOf(old(vars), lines)
      {
        LoadedStep(vars, as_, n);
        var a := Assignment(lines[n]);
        var set_ := SetDefault(a);
        if !set_ {
          return false;
        }
        n := n + 1;
      }
      return true;
    }

    /** `os.environ.setdefault(key, value)` for the assignment of one line, if any; false when it raises. */
    method SetDefault(a: Option<(string, string)>) returns (ok: bool)
      modifies this
      ensures Loaded(vars, ok) == SetDefaultLine(old(vars), a)
    {
      if a.Some? {
        var key, value := a.value.0, a.value.1;
        if key !in vars {
          if key == [] || '\0' in key || '\0' in value {
            return false;
          }
          vars := vars[key := value];
        }
      }
      return true;
    }
  }

  lemma LoadedStep(vars: map<string, string>, as_: seq<Option<(string, string)>>, n: nat)
    requires n < |as_|
    ensures var s := SetDefaultLine(vars, as_[n]);
      LoadedFrom(vars, as_[n..]) == if !s.ok then s else LoadedFrom(s.vars, as_[n + 1..])
  {
    assert as_[n..][0] == as_[n] && as_[n..][1..] == as_[n + 1..];
  }

  lemma {:induction false} KeepsSet(vars: map<string, string>, as_: seq<Option<(string, string)>>, k: string)
    requires k in vars
    ensures k in LoadedFrom(vars, as_).vars && LoadedFrom(vars, as_).vars[k] == vars[k]
    decreases |as_|
  {
    if as_ != [] {
      var s := SetDefaultLine(vars, as_[0]);
      if s.ok {
        KeepsSet(s.vars, as_[1..], k);
      }
    }
  }

  lemma {:induction false} FirstAssignmentWins(vars: map<string, string>, as_: seq<Option<(string, string)>>, k: string, i: nat)
    requires k !in vars && LoadedFrom(vars, as_).ok
    requires i < |as_| && as_[i].Some? && as_[i].value.0 == k
    requires forall j :: 0 <= j < i ==> as_[j].None? || as_[j].value.0 != k
    ensures k in LoadedFrom(vars, as_).vars && LoadedFrom(vars, as_).vars[k] == as_[i].value.1
    decreases |as_|
  {
    var s := SetDefaultLine(vars, as_[0]);
    if i == 0 {
      KeepsSet(s.vars, as_[1..], k);
    } else {
      assert k !in s.vars;
      FirstAssignmentWins(s.vars, as_[1..], k, i - 1);
    }
  }

  lemma {:induction false} AddsAssigned(vars: map<string, string>, as_: seq<Option<(string, string)>>, k: string)
    requires k !in vars && k in LoadedFrom(vars, as_).vars
    ensures exists i :: 0 <= i < |as_| && as_[i].Some? && as_[i].value.0 == k
    decreases |as_|
  {
    var s := SetDefaultLine(vars, as_[0]);
    if k in s.vars {
      assert as_[0].Some? && as_[0].value.0 == k;
    } else {
      AddsAssigned(s.vars, as_[1..], k);
      var i :| 0 <= i < |as_[1..]| && as_[1..][i].Some? && as_[1..][i].value.0 == k;
      assert as_[1..][i] == as_[i + 1];
    }
  }

  /** A variable already set is never overwritten, whatever the file says. */
  lemma NeverOverwrites(vars: map<string, string>, lines: seq<string>, k: string)
    requires k in vars
    ensures k in LoadEnvOf(vars, lines).vars && LoadEnvOf(vars, lines).vars[k] == vars[k]
  {
    KeepsSet(vars, Assignments(lines), k);
  }

  /** A new variable takes its value from the first line that assigns it, quotes and all. */
  lemma FirstWins(vars: map<string, string>, lines: seq<string>, k: string, i: nat)
    requires k !in vars && LoadEnvOf(vars, lines).ok
    requires i < |lines| && Assignment(lines[i]).Some? && Assignment(lines[i]).value.0 == k
    requires forall j :: 0 <= j < i ==> Assignment(lines[j]).None? || Assignment(lines[j]).value.0 != k
    ensures k in LoadEnvOf(vars, lines).vars && LoadEnvOf(vars, lines).vars[k] == Assignment(lines[i]).value.1
  {
    FirstAssignmentWins(vars, Assignments(lines), k, i);
  }

  /** Every variable `load_env` adds comes from a line that assigns it. */
  lemma OnlyAssigned(vars: map<string, string>, lines: seq<string>, k: string)
    requires k !in vars && k in LoadEnvOf(vars, lines).vars
    ensures exists i :: 0 <= i < |lines| && Assignment(lines[i]).Some? && Assignment(lines[i]).value.0 == k
  {
    var as_ := Assignments(lines);
    AddsAssigned(vars, as_, k);
    var i :| 0 <= i < |as_| && as_[i].Some? && as_[i].value.0 == k;
    assert Assignment(lines[i]) == as_[i];
  }

  /**
   * Unlike `load_config`, `load_env` keeps quotes: `KEY="v"` sets the
   * variable to `"v"` with its quotes.
   */
  lemma QuotesKept(vars: map<string, string>, key: string, v: string)
    requires key !in vars && key != [] && key[0] != '#' && '=' !in key && '\0' !in key && Trimmed(key, IsSpace)
    requires '\0' !in v
    ensures LoadEnvOf(vars, [key + "=" + ("\"" + v + "\"")]) == Loaded(vars[key := "\"" + v + "\""], true)
  {
    var quoted := "\"" + v + "\"";
    var line := key + "=" + quoted;
    assert Assignment(line) == Some((key, quoted)) by {
      assert quoted[0] == '"' && quoted[|quoted| - 1] == '"';
      AssignmentRoundTrip(key, quoted);
    }
    assert !Illegal(key, quoted) by {
      Quoted(v);
    }
    LoadEnvSingle(vars, line, key, quoted);
  }

  lemma Quoted(v: string)
    requires '\0' !in v
    ensures '\0' !in "\"" + v + "\""
  {
    assert "\"" + v + "\"" == ['"'] + v + ['"'];
  }

  lemma LoadedSingle(vars: map<string, string>, k: string, v: string)
    requires k !in vars && !Illegal(k, v)
    ensures LoadedFrom(vars, [Some((k, v))]) == Loaded(vars[k := v], true)
  {
    var as_: seq<Option<(string, string)>> := [Some((k, v))];
    assert as_[1..] == [];
    assert SetDefaultLine(vars, as_[0]) == Loaded(vars[k := v], true);
  }

  lemma LoadEnvSingle(vars: map<string, string>, line: string, k: string, v: string)
    requires Assignment(line) == Some((k, v)) && k !in vars && !Illegal(k, v)
    ensures LoadEnvOf(vars, [line]) == Loaded(vars[k := v], true)
  {
    var as_ := Assignments([line]);
    assert as_ == [Some((k, v))];
    LoadedSingle(vars, k, v);
  }

  // ---------------------------------------------------------------------------
  // find_logbook_thread
  // ---------------------------------------------------------------------------

  /** A message of `conversations.history`: its text (`""` when absent) and `ts`. */
  datatype Message = Message(text: string, ts: Option<string>)

  /** The history request: an HTTP failure, or a body with its `ok` flag and its messages. */
  datatype HistoryResponse = HttpError | Body(ok: bool, messages: seq<Message>)

  /** `mode_keywords.get(mode, ["Daily Briefing"])` */
  function Keywords(mode: string): (kw: seq<string>)
    ensures mode !in {"briefing", "closing", "weekly"} ==> kw == ["Daily Briefing"]
    ensures mode == "briefing" ==> "Daily Briefing" in kw
    ensures mode == "closing" ==> "Daily Closing" in kw
    ensures mode == "weekly" ==> "Weekly Review" in kw
  {
    if mode == "briefing" then ["Daily Briefing", "\U{2600}\U{FE0F}"]
    else if mode == "closing" then ["Daily Closing", "\U{1F4CA}"]
    else if mode == "weekly" then ["Weekly Review", "\U{1F4C5}"]
    else ["Daily Briefing"]
  }

  /** `any(kw in text for kw in keywords)` */
  predicate IsLogbook(text: string, keywords: seq<string>)
  {
    exists i :: 0 <= i < |keywords| && Contains(text, keywords[i])
  }

  /** A Logbook message from today. */
  predicate IsLogbookToday(m: Message, keywords: seq<string>, today: string)
  {
    IsLogbook(m.text, keywords) && Contains(m.text, today)
  }

  /** What one search pass looks for: a Logbook message, from today when `today` is given. */
  predicate Wanted(m: Message, keywords: seq<string>, today: Option<string>)
  {
    IsLogbook(m.text, keywords) && (today.None? || Contains(m.text, today.value))
  }

  /** The first message of the given pass: today's Logbook message (`today` given) or any Logbook message. */
  function FirstLogbook(messages: seq<Message>, keywords: seq<string>, today: Option<string>): (r: Option<nat>)
    ensures r.Some? ==> r.value < |messages|
  {
    if messages == [] then None
    else if Wanted(messages[0], keywords, today) then Some(0)
    else match FirstLogbook(messages[1..], keywords, today)
      case None => None
      case Some(i) => Some(i + 1)
  }

  /** `find_logbook_thread(bot_token, channel_id, mode)` for the history response and today's date string. */
  function ThreadOf(response: HistoryResponse, mode: string, today: string): (r: Option<string>)
    ensures r.Some? ==>
      && response.Body? && response.ok
      && exists i :: 0 <= i < |response.messages| && response.messages[i].ts == r
  {
    match response
    case HttpError => None
    case Body(ok, messages) =>
      if !ok then None
      else
        var keywords := Keywords(mode);
        match FirstLogbook(messages, keywords, Some(today))
        case Some(i) => messages[i].ts
        case None =>
          match FirstLogbook(messages, keywords, None)
          case Some(i) => messages[i].ts
          case None => None
  }

  /** A search pass finds a wanted message, and no earlier message is wanted. */
  lemma {:induction false} FirstLogbookIsFirst(messages: seq<Message>, keywords: seq<string>, today: Option<string>)
    ensures var r := FirstLogbook(messages, keywords, today);
      && (r.Some? ==> Wanted(messages[r.value], keywords, today))
      && forall j :: 0 <= j < |messages| && (r.None? || j < r.value) ==> !Wanted(messages[j], keywords, today)
  {
    if messages != [] {
      FirstLogbookIsFirst(messages[1..], keywords, today);
      forall j | 1 <= j < |messages| ensures messages[1..][j - 1] == messages[j] { }
    }
  }

  /** A pass answers `i` when message `i` is wanted and none before it is. */
  lemma {:induction false} FirstLogbookAt(messages: seq<Message>, keywords: seq<string>, today: Option<string>, i: nat)
    requires i < |messages| && Wanted(messages[i], keywords, today)
    requires forall j :: 0 <= j < i ==> !Wanted(messages[j], keywords, today)
    ensures FirstLogbook(messages, keywords, today) == Some(i)
  {
    FirstLogbookIsFirst(messages, keywords, today);
  }

  /** A pass answers nothing when no message is wanted. */
  lemma {:induction false} FirstLogbookNone(messages: seq<Message>, keywords: seq<string>, today: Option<string>)
    requires forall j :: 0 <= j < |messages| ==> !Wanted(messages[j], keywords, today)
    ensures FirstLogbook(messages, keywords, today).None?
  {
    FirstLogbookIsFirst(messages, keywords, today);
  }

  /** A failed request or an `ok: false` body gives no thread. */
  lemma {:induction false} ThreadFailed(response: HistoryResponse, mode: string, today: string)
    requires response.HttpError? || !response.ok
    ensures ThreadOf(response, mode, today).None?
  {
  }

  /** The thread is the first message, in list order, with a mode keyword and today's date. */
  lemma {:induction false} ThreadToday(messages: seq<Message>, mode: string, today: string, i: nat)
    requires i < |messages| && IsLogbookToday(messages[i], Keywords(mode), today)
    requires forall j :: 0 <= j < i ==> !IsLogbookToday(messages[j], Keywords(mode), today)
    ensures ThreadOf(Body(true, messages), mode, today) == messages[i].ts
  {
    FirstLogbookAt(messages, Keywords(mode), Some(today), i);
  }

  /** Failing a message from today, the thread is the first message with a mode keyword. */
  lemma {:induction false} ThreadFallback(messages: seq<Message>, mode: string, today: string, i: nat)
    requires forall j :: 0 <= j < |messages| ==> !IsLogbookToday(messages[j], Keywords(mode), today)
    requires i < |messages| && IsLogbook(messages[i].text, Keywords(mode))
    requires forall j :: 0 <= j < i ==> !IsLogbook(messages[j].text, Keywords(mode))
    ensures ThreadOf(Body(true, messages), mode, today) == messages[i].ts
  {
    FirstLogbookNone(messages, Keywords(mode), Some(today));
    FirstLogbookAt(messages, Keywords(mode), None, i);
  }

  /** Without any message holding a mode keyword there is no thread. */
  lemma {:induction false} ThreadNone(messages: seq<Message>, mode: string, today: string)
    requires forall j :: 0 <= j < |messages| ==> !IsLogbook(messages[j].text, Keywords(mode))
    ensures ThreadOf(Body(true, messages), mode, today).None?
  {
    FirstLogbookNone(messages, Keywords(mode), Some(today));
    FirstLogbookNone(messages, Keywords(mode), None);
  }

  // ---------------------------------------------------------------------------
  // fetch_slack_activity_via_mcp
  // ---------------------------------------------------------------------------

  const NoActivity: string := "_No significant Slack activity found_"

  /** The channel names of the first ten matches, a match without one counting for `DM`. */
  function FirstTenNames(matches: seq<LogbookSlack.SlackMatch>): (names: seq<string>)
    ensures |names| == if |matches| < 10 then |matches| else 10
    ensures forall i :: 0 <= i < |names| ==> names[i] == LogbookSlack.ChannelName(matches[i])
  {
    var n := if |matches| < 10 then |matches| else 10;
    seq(n, i requires 0 <= i < n => LogbookSlack.ChannelName(matches[i]))
  }

  /** `channels_mentioned` after the loop. */
  function ChannelSet(matches: seq<LogbookSlack.SlackMatch>): set<string>
  {
    set x | x in FirstTenNames(matches)
  }

  /** `list(channels_mentioned)[:5]` in some order: up to five distinct channels of the set. */
  predicate IsPick(names: seq<string>, channels: set<string>)
  {
    && |names| == (if |channels| < 5 then |channels| else 5)
    && (forall i :: 0 <= i < |names| ==> names[i] in channels)
    && (forall i, j :: 0 <= i < j < |names| ==> names[i] != names[j])
  }

  /** The text for the channel set and the names picked from it. */
  function SummaryText(channels: set<string>, names: seq<string>): string
  {
    if channels != {} then "Active in " + NatToString(|channels|) + " channels: " + Join(names, ", ")
    else NoActivity
  }

  /**
   * `fetch_slack_activity_via_mcp()` for the user token and the search
   * response (`None` for a failed request or an `ok: false` body, otherwise
   * its matches). Set order is not determined, so the result is stated for
   * some pick of names.
   */
  method ChannelSummary(userToken: Option<string>, response: Option<seq<LogbookSlack.SlackMatch>>)
    returns (r: Option<string>)
    ensures userToken.None? || userToken.value == "" || response.None? ==> r.None?
    ensures userToken.Some? && userToken.value != "" && response == Some([]) ==> r == Some(NoActivity)
    ensures userToken.Some? && userToken.value != "" && response.Some? ==>
      exists names :: IsPick(names, ChannelSet(response.value)) && r == Some(SummaryText(ChannelSet(response.value), names))
  {
    if userToken.None? || userToken.value == "" {
      return None;
    }
    if response.None? {
      return None;
    }
    var messages := response.value;
    if messages == [] {
      assert IsPick([], ChannelSet(messages));
      return Some(NoActivity);
    }
    var channels := CollectChannels(messages);
    if channels != {} {
      var names := PickNames(channels);
      assert IsPick(names, ChannelSet(messages));
      return Some("Active in " + NatToString(|channels|) + " channels: " + Join(names, ", "));
    }
    assert IsPick([], channels);
    return Some(NoActivity);
  }

  /** The loop adding the channel of each of the first ten matches. */
  method CollectChannels(matches: seq<LogbookSlack.SlackMatch>) returns (channels: set<string>)
    ensures channels == ChannelSet(matches)
  {
    var names := FirstTenNames(matches);
    channels := {};
    for n := 0 to |names|
      invariant channels == set x | x in names[..n]
    {
      assert names[..n + 1] == names[..n] + [names[n]];
      channels := channels + {LogbookSlack.ChannelName(matches[n])};
    }
    assert names[..|names|] == names;
  }

  /** Up to five channels of the set, each once. */
  method PickNames(channels: set<string>) returns (names: seq<string>)
    ensures IsPick(names, channels)
  {
    names := [];
    var rest := channels;
    while |names| < 5 && rest != {}
      invariant rest <= channels
      invariant |names| <= 5 && |names| + |rest| == |channels|
      invariant forall i :: 0 <= i < |names| ==> names[i] in channels && names[i] !in rest
      invariant forall i, j :: 0 <= i < j < |names| ==> names[i] != names[j]
      decreases |rest|
    {
      var c :| c in rest;
      assert |rest - {c}| == |rest| - 1 by {
        assert rest == (rest - {c}) + {c};
      }
      names := names + [c];
      rest := rest - {c};
    }
  }

  lemma {:induction false} SetOfSeqSize(s: seq<string>)
    ensures |set x | x in s| <= |s|
    ensures s != [] ==> |set x | x in s| >= 1
  {
    if s != [] {
      var init := s[..|s| - 1];
      SetOfSeqSize(init);
      assert (set x | x in s) == (set x | x in init) + {s[|s| - 1]};
    }
  }

  /**
   * Any match gives at least one channel and at most ten are looked at, so
   * the final `_No significant Slack activity found_` of the function is
   * never reached.
   */
  lemma ChannelCount(matches: seq<LogbookSlack.SlackMatch>)
    ensures |ChannelSet(matches)| <= 10 && |ChannelSet(matches)| <= |matches|
    ensures matches != [] ==> ChannelSet(matches) != {}
    ensures matches != [] ==> forall names :: SummaryText(ChannelSet(matches), names) != NoActivity
  {
    SetOfSeqSize(FirstTenNames(matches));
    if matches != [] {
      forall names ensures SummaryText(ChannelSet(matches), names) != NoActivity {
        var t := SummaryText(ChannelSet(matches), names);
        assert t[1] == 'c' != NoActivity[1];
      }
    }
  }

  // ---------------------------------------------------------------------------
  // build_enrichment_message
  // ---------------------------------------------------------------------------

  /** The bold `💬 Slack ` both messages open with. */
  const SlackBadge: string := "*\U{1F4AC} Slack "
  const SummaryHeader: string := SlackBadge + "Activity Summary*\n\n"
  const SummaryFooter: string := "\n\n_Reply @Cursor for deeper analysis or to update tasks_"
  const ContextTitle: string := SlackBadge + "Context*"
  const ContextHeader: string := ContextTitle + "\n\n_Reply @Cursor to fetch your Slack activity:_\n> "

  /** `mode_prompts.get(mode, "Analyze my recent Slack activity")` */
  function Prompt(mode: string): (p: string)
    ensures mode !in {"briefing", "closing", "weekly"} ==> p == "Analyze my recent Slack activity"
  {
    if mode == "briefing" then "What Slack threads should I follow up on today?"
    else if mode == "closing" then "What Slack conversations did I have today that need logging?"
    else if mode == "weekly" then "Summarize my key Slack interactions this week"
    else "Analyze my recent Slack activity"
  }

  /** `build_enrichment_message(mode, slack_activity)` */
  function EnrichmentMessage(mode: string, activity: Option<string>): (m: string)
    ensures StartsWith(m, SlackBadge)
  {
    if activity.Some? && activity.value != "" then
      BadgeFirst(SummaryHeader[|SlackBadge|..] + activity.value + SummaryFooter);
      SummaryHeader + activity.value + SummaryFooter
    else
      BadgeFirst(ContextHeader[|SlackBadge|..] + Prompt(mode));
      ContextHeader + Prompt(mode)
  }

  lemma BadgeFirst(rest: string)
    ensures StartsWith(SlackBadge + rest, SlackBadge)
  {
    assert (SlackBadge + rest)[..|SlackBadge|] == SlackBadge;
  }

  /**
   * A non-empty activity appears verbatim in a summary whose text
   * determines it; without one the message is the mode's prompt.
   */
  lemma EnrichmentShape(mode: string, activity: Option<string>)
    ensures activity.Some? && activity.value != "" ==>
      && StartsWith(EnrichmentMessage(mode, activity), SummaryHeader)
      && Contains(EnrichmentMessage(mode, activity), activity.value)
      && EnrichmentMessage(mode, activity)[|SummaryHeader|..|EnrichmentMessage(mode, activity)| - |SummaryFooter|] == activity.value
    ensures activity.None? || activity.value == "" ==>
      EnrichmentMessage(mode, activity) == ContextHeader + Prompt(mode)
  {
    if activity.Some? && activity.value != "" {
      var a := activity.value;
      ContainsInfix(SummaryHeader, a, SummaryFooter);
      var m := SummaryHeader + a + SummaryFooter;
      assert m[..|SummaryHeader|] == SummaryHeader;
      assert m[|SummaryHeader|..|m| - |SummaryFooter|] == a;
    }
  }

  /** Different activities give different messages, whatever the mode. */
  lemma EnrichmentInjective(mode1: string, mode2: string, a: string, b: string)
    requires a != "" && b != ""
    requires EnrichmentMessage(mode1, Some(a)) == EnrichmentMessage(mode2, Some(b))
    ensures a == b
  {
    EnrichmentShape(mode1, Some(a));
    EnrichmentShape(mode2, Some(b));
  }

  /** A summary is never mistaken for a prompt. */
  lemma EnrichmentPathsDiffer(mode1: string, mode2: string, a: string)
    requires a != ""
    ensures EnrichmentMessage(mode1, Some(a)) != EnrichmentMessage(mode2, None)
  {
    var m1 := EnrichmentMessage(mode1, Some(a));
    var m2 := EnrichmentMessage(mode2, None);
    var n := |SlackBadge|;
    assert m1[n] == SummaryHeader[n] == 'A';
    assert m2 == ContextHeader + Prompt(mode2);
    assert m2[n] == ContextTitle[n] == 'C';
  }
}
