/**
 * `read_tasks` of scripts/logbook-local.py: reads `title`, `priority` and
 * `status` from the header of each task file, files the task into the
 * `tasks` dictionary of lists, and shapes the counts, the bullet lists and
 * the backlog line of the report.
 *
 * The tasks directory is given as the sequence of its `*.md` files in glob
 * order (`None` when the directory does not exist), and `BACKLOG.md` as its
 * text (`None` when the file does not exist).
 */
module LogbookTasks {
  import opened Wrappers
  import opened PyStr

  /** A `*.md` file of the tasks directory: its stem and its text. */
  datatype TaskFile = TaskFile(stem: string, content: string)

  /** The three header fields, `""` when the header does not set them. */
  datatype Header = Header(title: string, priority: string, status: string)

  /** The `task_info` dictionary of one task. */
  datatype TaskInfo = TaskInfo(title: string, priority: string, status: string, emoji: string, statusText: string)

  /** The dictionary `read_tasks` returns. */
  datatype TaskSummary = TaskSummary(
    p0Count: nat, p1Count: nat, blockedCount: nat, doneCount: nat, total: nat,
    p0Tasks: string, p1Tasks: string, blockedTasks: string, taskDetails: string,
    backlogItems: string)

  // ---------------------------------------------------------------------------
  // The header
  // ---------------------------------------------------------------------------

  /** The text between the first and second `---` (or to the end) of a file that starts with `---`. */
  function FrontmatterBlock(content: string): string
    requires StartsWith(content, "---")
  {
    SplitAfterPrefix(content, "---");
    Split(content, "---")[1]
  }

  /** The effect of one header line: the last `title:`, `priority:` or `status:` line sets the field. */
  function HeaderStep(h: Header, line: string): Header
  {
    if StartsWith(line, "title:") then h.(title := Strip(line[6..]))
    else if StartsWith(line, "priority:") then h.(priority := Strip(line[9..]))
    else if StartsWith(line, "status:") then h.(status := Strip(line[7..]))
    else h
  }

  function HeaderFold(lines: seq<string>): Header
  {
    if lines == [] then Header("", "", "")
    else HeaderStep(HeaderFold(lines[..|lines| - 1]), lines[|lines| - 1])
  }

  /** The header of a task file: empty fields unless the file starts with `---`. */
  function HeaderOf(content: string): Header
  {
    if StartsWith(content, "---") then HeaderFold(Split(FrontmatterBlock(content), "\n"))
    else Header("", "", "")
  }

  /** `line.split(":", 1)[1]` of a line starting with `key:` is the text after that colon. */
  lemma {:induction false} AfterKey(line: string, prefix: string)
    requires StartsWith(line, prefix) && prefix != [] && prefix[|prefix| - 1] == ':' && ':' !in prefix[..|prefix| - 1]
    ensures |SplitN(line, ":", 1)| == 2 && SplitN(line, ":", 1)[1] == line[|prefix|..]
  {
    var key, rest := prefix[..|prefix| - 1], line[|prefix|..];
    assert line == key + ":" + rest by {
      assert line[..|prefix|] == prefix == key + ":";
    }
    FindCharFree(key, ":", rest);
    SplitNOnce(line, ":");
  }

  /** The header parsing of `read_tasks` for one file. */
  method ReadHeader(content: string) returns (h: Header)
    ensures h == HeaderOf(content)
  {
    if !StartsWith(content, "---") {
      return Header("", "", "");
    }
    var frontmatter := FrontmatterBlock(content);
    h := ReadHeaderLines(Split(frontmatter, "\n"));
  }

  /** The line loop over the header. */
  method ReadHeaderLines(lines: seq<string>) returns (h: Header)
    ensures h == HeaderFold(lines)
  {
    h := Header("", "", "");
    for n := 0 to |lines|
      invariant h == HeaderFold(lines[..n])
    {
      assert lines[..n + 1][..n] == lines[..n];
      h := ReadHeaderLine(h, lines[n]);
    }
    assert lines[..|lines|] == lines;
  }

  /** One line: `title:`, `priority:` or `status:` sets its field to the stripped text after the colon. */
  method ReadHeaderLine(h: Header, line: string) returns (h': Header)
    ensures h' == HeaderStep(h, line)
  {
    h' := h;
    if StartsWith(line, "title:") {
      assert |SplitN(line, ":", 1)| == 2 && SplitN(line, ":", 1)[1] == line[6..] by {
        AfterKey(line, "title:");
      }
      h' := h.(title := Strip(SplitN(line, ":", 1)[1]));
    } else if StartsWith(line, "priority:") {
      assert |SplitN(line, ":", 1)| == 2 && SplitN(line, ":", 1)[1] == line[9..] by {
        AfterKey(line, "priority:");
      }
      h' := h.(priority := Strip(SplitN(line, ":", 1)[1]));
    } else if StartsWith(line, "status:") {
      assert |SplitN(line, ":", 1)| == 2 && SplitN(line, ":", 1)[1] == line[7..] by {
        AfterKey(line, "status:");
      }
      h' := h.(status := Strip(SplitN(line, ":", 1)[1]));
    }
  }

  /** Header fields come from single lines, so none holds a line break. */
  lemma {:induction false} HeaderFoldFree(lines: seq<string>)
    requires forall i :: 0 <= i < |lines| ==> '\n' !in lines[i]
    ensures var h := HeaderFold(lines);
      '\n' !in h.title && '\n' !in h.priority && '\n' !in h.status
  {
    if lines != [] {
      var line := lines[|lines| - 1];
      HeaderFoldFree(lines[..|lines| - 1]);
      assert '\n' !in line;
      if StartsWith(line, "title:") {
        StripFree(line[6..]);
      } else if StartsWith(line, "priority:") {
        StripFree(line[9..]);
      } else if StartsWith(line, "status:") {
        StripFree(line[7..]);
      }
    }
  }

  /** The header field that the lines starting with `key:` set. */
  function Field(h: Header, key: string): string
  {
    if key == "title" then h.title else if key == "priority" then h.priority else h.status
  }

  /**
   * The last line starting with `title:`, `priority:` or `status:` decides
   * that field: later lines with another key leave it alone.
   */
  lemma {:induction false} HeaderLastWins(lines: seq<string>, key: string, i: nat)
    requires key in {"title", "priority", "status"}
    requires i < |lines| && StartsWith(lines[i], key + ":")
    requires forall j :: i < j < |lines| ==> !StartsWith(lines[j], key + ":")
    ensures Field(HeaderFold(lines), key) == Strip(lines[i][|key| + 1..])
  {
    var init, last := lines[..|lines| - 1], lines[|lines| - 1];
    if i == |lines| - 1 {
      StepSets(HeaderFold(init), last, key);
    } else {
      HeaderLastWins(init, key, i);
      StepKeeps(HeaderFold(init), last, key);
    }
  }

  lemma StepSets(h: Header, line: string, key: string)
    requires key in {"title", "priority", "status"} && StartsWith(line, key + ":")
    ensures Field(HeaderStep(h, line), key) == Strip(line[|key| + 1..])
  {
    if key == "title" {
      assert key + ":" == "title:";
    } else if key == "priority" {
      assert key + ":" == "priority:";
      SetsPriority(h, line);
    } else {
      assert key + ":" == "status:";
      SetsStatus(h, line);
    }
  }

  lemma SetsPriority(h: Header, line: string)
    requires StartsWith(line, "priority:")
    ensures HeaderStep(h, line) == h.(priority := Strip(line[9..]))
  {
    assert line[..9][0] == 'p';
    NotPrefix(line, "title:");
  }

  lemma SetsStatus(h: Header, line: string)
    requires StartsWith(line, "status:")
    ensures HeaderStep(h, line) == h.(status := Strip(line[7..]))
  {
    assert line[..7][0] == 's';
    NotPrefix(line, "title:");
    NotPrefix(line, "priority:");
  }

  lemma StepKeeps(h: Header, line: string, key: string)
    requires key in {"title", "priority", "status"} && !StartsWith(line, key + ":")
    ensures Field(HeaderStep(h, line), key) == Field(h, key)
  {
    if key == "title" {
      assert key + ":" == "title:";
    } else if key == "priority" {
      assert key + ":" == "priority:";
    } else {
      assert key + ":" == "status:";
    }
  }

  /** A line cannot start with two keys whose first letters differ. */
  lemma NotPrefix(line: string, prefix: string)
    requires line != [] && prefix != [] && line[0] != prefix[0]
    ensures !StartsWith(line, prefix)
  {
    if |prefix| <= |line| {
      assert line[..|prefix|][0] == line[0];
    }
  }

  lemma StripFree(s: string)
    requires '\n' !in s
    ensures '\n' !in Strip(s)
  {
    assert Strip(s) == StripChars(s, IsSpace);
  }

  lemma HeaderFree(content: string)
    ensures var h := HeaderOf(content);
      '\n' !in h.title && '\n' !in h.priority && '\n' !in h.status
  {
    if StartsWith(content, "---") {
      var lines := Split(FrontmatterBlock(content), "\n");
      SplitPartsFree(FrontmatterBlock(content), "\n", |FrontmatterBlock(content)|);
      forall i | 0 <= i < |lines| ensures '\n' !in lines[i] {
        ContainsChar(lines[i], '\n');
      }
      HeaderFoldFree(lines);
    }
  }

  // ---------------------------------------------------------------------------
  // One task
  // ---------------------------------------------------------------------------

  const Known: set<string> := {"n", "s", "ip", "b", "d"}

  /** The status marker: red, yellow, yellow, orange, check mark, and a white circle for anything else. */
  function StatusEmoji(status: string): (emoji: string)
    ensures emoji == "\U{26AA}" <==> status !in Known
  {
    var emojis := map["n" := "\U{1F534}", "s" := "\U{1F7E1}", "ip" := "\U{1F7E1}", "b" := "\U{1F7E0}", "d" := "\U{2705}"];
    if status in emojis then emojis[status] else "\U{26AA}"
  }

  /** The status label; any code other than the five known ones, the empty one included, is `Unknown`. */
  function StatusText(status: string): (text: string)
    ensures text == "Unknown" <==> status !in Known
    ensures text == "In Progress" <==> status == "s" || status == "ip"
  {
    var texts := map["n" := "Not Started", "s" := "In Progress", "ip" := "In Progress", "b" := "Blocked", "d" := "Done"];
    if status in texts then texts[status] else "Unknown"
  }

  /** The title used when the header has none: the stem with `-` as spaces, title-cased. */
  function FallbackTitle(stem: string): string
  {
    Title(ReplaceChar(stem, '-', ' '))
  }

  /** The fallback title keeps the stem's length, turns each `-` into a space and keeps no `-`. */
  lemma FallbackTitleShape(stem: string)
    ensures |FallbackTitle(stem)| == |stem|
    ensures forall i :: 0 <= i < |stem| ==> (stem[i] == '-' <==> FallbackTitle(stem)[i] == ' ' && stem[i] != ' ')
    ensures '-' !in FallbackTitle(stem)
    ensures '\n' in FallbackTitle(stem) <==> '\n' in stem
  {
    var s := ReplaceChar(stem, '-', ' ');
    TitleAt(s);
    var t := FallbackTitle(stem);
    assert forall i :: 0 <= i < |s| ==> t[i] == TitleChar(s, i);
    if '\n' in t {
      var i :| 0 <= i < |t| && t[i] == '\n';
      assert stem[i] == '\n';
    }
    if '\n' in stem {
      var i :| 0 <= i < |stem| && stem[i] == '\n';
      assert t[i] == '\n';
    }
  }

  function InfoOf(f: TaskFile): TaskInfo
  {
    var h := HeaderOf(f.content);
    var title := if h.title == "" then FallbackTitle(f.stem) else h.title;
    TaskInfo(title, h.priority, h.status, StatusEmoji(h.status), StatusText(h.status))
  }

  /** The body of the file loop up to `task_info`. */
  method ReadTaskInfo(f: TaskFile) returns (info: TaskInfo)
    ensures info == InfoOf(f)
  {
    var h := ReadHeader(f.content);
    var title := h.title;
    if title == "" {
      title := Title(ReplaceChar(f.stem, '-', ' '));
    }
    info := TaskInfo(title, h.priority, h.status, StatusEmoji(h.status), StatusText(h.status));
  }

  /** A task's title is never empty when its file's stem is not. */
  lemma InfoTitle(f: TaskFile)
    ensures f.stem != "" ==> InfoOf(f).title != ""
  {
    FallbackTitleShape(f.stem);
  }

  /** No field of a task holds a line break unless its file's stem does. */
  lemma InfoOneLine(f: TaskFile)
    requires '\n' !in f.stem
    ensures OneLine(InfoOf(f))
  {
    var h := HeaderOf(f.content);
    assert '\n' !in h.title && '\n' !in h.priority by {
      HeaderFree(f.content);
    }
    assert '\n' !in FallbackTitle(f.stem) by {
      FallbackTitleShape(f.stem);
    }
    StatusOneLine(h.status);
  }

  lemma StatusOneLine(s: string)
    ensures '\n' !in StatusEmoji(s) && '\n' !in StatusText(s)
  {
  }

  /** No field of the task holds a line break. */
  predicate OneLine(t: TaskInfo)
  {
    '\n' !in t.title && '\n' !in t.priority && '\n' !in t.emoji && '\n' !in t.statusText
  }

  // ---------------------------------------------------------------------------
  // Filing
  // ---------------------------------------------------------------------------

  type Buckets = map<string, seq<TaskInfo>>

  const Priorities: set<string> := {"P0", "P1", "P2", "P3"}

  /** The `tasks` dictionary has its seven lists. */
  predicate HasBuckets(m: Buckets)
  {
    m.Keys == Priorities + {"blocked", "done", "all"}
  }

  const EmptyBuckets: Buckets :=
    map["P0" := [], "P1" := [], "P2" := [], "P3" := [], "blocked" := [], "done" := [], "all" := []]

  /** `l.append(info)` on the list of `key` */
  function Append(m: Buckets, key: string, info: TaskInfo): Buckets
    requires key in m
  {
    m[key := m[key] + [info]]
  }

  /**
   * Filing as written: `priority in tasks` holds for any key of the
   * dictionary, so a priority of `blocked`, `done` or `all` appends to that list.
   */
  function FileAsWritten(m: Buckets, info: TaskInfo): (r: Buckets)
    requires HasBuckets(m)
    ensures HasBuckets(r)
    ensures r["all"] == m["all"] + (if info.priority == "all" then [info, info] else [info])
  {
    var m1 := Append(m, "all", info);
    var m2 := if info.priority in m1 then Append(m1, info.priority, info) else m1;
    var m3 := if info.status == "b" then Append(m2, "blocked", info) else m2;
    if info.status == "d" then Append(m3, "done", info) else m3
  }

  /** Filing as intended: only the four priorities have a priority list. */
  function File(m: Buckets, info: TaskInfo): (r: Buckets)
    requires HasBuckets(m)
    ensures HasBuckets(r)
  {
    var m1 := Append(m, "all", info);
    var m2 := if info.priority in Priorities then Append(m1, info.priority, info) else m1;
    var m3 := if info.status == "b" then Append(m2, "blocked", info) else m2;
    if info.status == "d" then Append(m3, "done", info) else m3
  }

  function FiledAsWritten(infos: seq<TaskInfo>): (r: Buckets)
    ensures HasBuckets(r)
  {
    if infos == [] then EmptyBuckets
    else FileAsWritten(FiledAsWritten(infos[..|infos| - 1]), infos[|infos| - 1])
  }

  function Filed(infos: seq<TaskInfo>): (r: Buckets)
    ensures HasBuckets(r)
  {
    if infos == [] then EmptyBuckets
    else File(Filed(infos[..|infos| - 1]), infos[|infos| - 1])
  }

  /** The tasks of `infos` with the given priority, in order. */
  function WithPriority(infos: seq<TaskInfo>, p: string): (r: seq<TaskInfo>)
    ensures |r| <= |infos|
  {
    if infos == [] then []
    else
      var rest := WithPriority(infos[..|infos| - 1], p);
      if infos[|infos| - 1].priority == p then rest + [infos[|infos| - 1]] else rest
  }

  /** The tasks of `infos` with the given status, in order. */
  function WithStatus(infos: seq<TaskInfo>, s: string): (r: seq<TaskInfo>)
    ensures |r| <= |infos|
  {
    if infos == [] then []
    else
      var rest := WithStatus(infos[..|infos| - 1], s);
      if infos[|infos| - 1].status == s then rest + [infos[|infos| - 1]] else rest
  }

  /**
   * Filed as intended, `all` holds every task once, each priority list the
   * tasks of that priority and `blocked`/`done` the tasks of that status:
   * a blocked P0 task is in both the P0 and the blocked list.
   */
  lemma FiledContents(infos: seq<TaskInfo>)
    ensures Filed(infos)["all"] == infos
    ensures forall p :: p in Priorities ==> Filed(infos)[p] == WithPriority(infos, p)
    ensures Filed(infos)["blocked"] == WithStatus(infos, "b")
    ensures Filed(infos)["done"] == WithStatus(infos, "d")
  {
    FiledAll(infos);
    forall p | p in Priorities ensures Filed(infos)[p] == WithPriority(infos, p) {
      FiledPriority(infos, p);
    }
    FiledStatus(infos, "b", "blocked");
    FiledStatus(infos, "d", "done");
  }

  lemma {:induction false} FiledAll(infos: seq<TaskInfo>)
    ensures Filed(infos)["all"] == infos
  {
    if infos != [] {
      var init := infos[..|infos| - 1];
      var last := infos[|infos| - 1];
      FiledAll(init);
      assert Filed(infos) == File(Filed(init), last);
      assert File(Filed(init), last)["all"] == init + [last] by {
        FileContents(Filed(init), last);
      }
      assert infos == init + [last];
    }
  }

  lemma {:induction false} FiledPriority(infos: seq<TaskInfo>, p: string)
    requires p in Priorities
    ensures Filed(infos)[p] == WithPriority(infos, p)
  {
    if infos != [] {
      var init := infos[..|infos| - 1];
      FiledPriority(init, p);
      FileContents(Filed(init), infos[|infos| - 1]);
    }
  }

  lemma {:induction false} FiledStatus(infos: seq<TaskInfo>, s: string, key: string)
    requires (s == "b" && key == "blocked") || (s == "d" && key == "done")
    ensures Filed(infos)[key] == WithStatus(infos, s)
  {
    if infos != [] {
      var init := infos[..|infos| - 1];
      FiledStatus(init, s, key);
      FileContents(Filed(init), infos[|infos| - 1]);
    }
  }

  /** What one filing step appends to each list. */
  lemma FileContents(m: Buckets, info: TaskInfo)
    requires HasBuckets(m)
    ensures File(m, info)["all"] == m["all"] + [info]
    ensures forall p :: p in Priorities ==>
      File(m, info)[p] == m[p] + (if info.priority == p then [info] else [])
    ensures File(m, info)["blocked"] == m["blocked"] + (if info.status == "b" then [info] else [])
    ensures File(m, info)["done"] == m["done"] + (if info.status == "d" then [info] else [])
  {
  }

  /** A priority of `all` files the task twice into `all`: one file, a total of two. */
  lemma PriorityAllCountedTwice(info: TaskInfo)
    requires info.priority == "all"
    ensures FiledAsWritten([info])["all"] == [info, info]
    ensures Filed([info])["all"] == [info]
  {
    assert [info][..0] == [];
  }

  /** A priority of `blocked` counts a task that is not blocked as blocked. */
  lemma PriorityBlockedCounted(info: TaskInfo)
    requires info.priority == "blocked" && info.status == "n"
    ensures FiledAsWritten([info])["blocked"] == [info]
    ensures Filed([info])["blocked"] == [] && WithStatus([info], "b") == []
  {
    assert [info][..0] == [];
    AsWrittenBlocked(info);
    assert Filed([info]) == File(EmptyBuckets, info);
    FileContents(EmptyBuckets, info);
  }

  lemma AsWrittenBlocked(info: TaskInfo)
    requires info.priority == "blocked" && info.status == "n"
    ensures FiledAsWritten([info])["blocked"] == [info]
  {
    assert [info][..0] == [];
    assert FiledAsWritten([info]) == FileAsWritten(EmptyBuckets, info);
    var m1 := Append(EmptyBuckets, "all", info);
    assert "blocked" in m1;
    assert FileAsWritten(EmptyBuckets, info) == Append(m1, "blocked", info);
  }

  /** Without the priorities `blocked`, `done` and `all` the two filings agree. */
  lemma {:induction false} AsWrittenAgrees(infos: seq<TaskInfo>)
    requires forall i :: 0 <= i < |infos| ==> infos[i].priority !in {"blocked", "done", "all"}
    ensures FiledAsWritten(infos) == Filed(infos)
  {
    if infos != [] {
      AsWrittenAgrees(infos[..|infos| - 1]);
    }
  }

  /**
   * The filing steps of the file loop for one task, with the priority test
   * as intended (one of the four priorities); see `FileAsWritten`.
   */
  method FileTask(tasks: Buckets, info: TaskInfo) returns (r: Buckets)
    requires HasBuckets(tasks)
    ensures r == File(tasks, info)
  {
    r := tasks["all" := tasks["all"] + [info]];
    if info.priority in Priorities {
      r := r[info.priority := r[info.priority] + [info]];
    }
    if info.status == "b" {
      r := r["blocked" := r["blocked"] + [info]];
    }
    if info.status == "d" {
      r := r["done" := r["done"] + [info]];
    }
  }

  // ---------------------------------------------------------------------------
  // Formatting and the backlog
  // ---------------------------------------------------------------------------

  function TaskLine(t: TaskInfo): string
  {
    "\U{2022} " + t.emoji + " " + t.title
  }

  function DetailLine(t: TaskInfo): string
  {
    "\U{2022} " + t.emoji + " [" + t.priority + "] " + t.title + " \U{2014} " + t.statusText
  }

  /** `format_tasks`: one bullet per task, joined by line breaks. */
  function FormatTasks(ts: seq<TaskInfo>): string
  {
    Join(seq(|ts|, i requires 0 <= i < |ts| => TaskLine(ts[i])), "\n")
  }

  /** `format_tasks_detailed` */
  function FormatTasksDetailed(ts: seq<TaskInfo>): string
  {
    Join(seq(|ts|, i requires 0 <= i < |ts| => DetailLine(ts[i])), "\n")
  }

  /** With no line break in the tasks' fields, the bullet list has one line per task, in order. */
  lemma FormatTasksLines(ts: seq<TaskInfo>)
    requires |ts| >= 1
    requires forall i :: 0 <= i < |ts| ==> OneLine(ts[i])
    ensures Split(FormatTasks(ts), "\n") == seq(|ts|, i requires 0 <= i < |ts| => TaskLine(ts[i]))
  {
    var lines := seq(|ts|, i requires 0 <= i < |ts| => TaskLine(ts[i]));
    forall k | 0 <= k < |lines| ensures "\n"[0] !in lines[k] {
      assert '\n' !in TaskLine(ts[k]);
    }
    SplitJoin(lines, "\n");
  }

  /** The same for the detailed list, which also shows priority and status label. */
  lemma FormatTasksDetailedLines(ts: seq<TaskInfo>)
    requires |ts| >= 1
    requires forall i :: 0 <= i < |ts| ==> OneLine(ts[i])
    ensures Split(FormatTasksDetailed(ts), "\n") == seq(|ts|, i requires 0 <= i < |ts| => DetailLine(ts[i]))
  {
    var lines := seq(|ts|, i requires 0 <= i < |ts| => DetailLine(ts[i]));
    forall k | 0 <= k < |lines| ensures "\n"[0] !in lines[k] {
      assert '\n' !in DetailLine(ts[k]);
    }
    SplitJoin(lines, "\n");
  }

  /** A backlog line: its stripped text starts with `-`, `*` or a digit from 1 to 9. */
  predicate BacklogLine(line: string)
  {
    var s := Strip(line);
    s != [] && (s[0] == '-' || s[0] == '*' || '1' <= s[0] <= '9')
  }

  function CountBacklog(lines: seq<string>): (n: nat)
    ensures n <= |lines|
  {
    if lines == [] then 0
    else CountBacklog(lines[..|lines| - 1]) + (if BacklogLine(lines[|lines| - 1]) then 1 else 0)
  }

  /** The count is additive over the lines, so it counts each backlog line once wherever it stands. */
  lemma {:induction false} CountBacklogAppend(a: seq<string>, b: seq<string>)
    ensures CountBacklog(a + b) == CountBacklog(a) + CountBacklog(b)
    decreases |b|
  {
    if b == [] {
      assert a + b == a;
    } else {
      var b' := b[..|b| - 1];
      CountBacklogAppend(a, b');
      assert (a + b)[..|a + b| - 1] == a + b';
      assert (a + b)[|a + b| - 1] == b[|b| - 1];
    }
  }

  const Clear: string := "\U{2705} Clear!"

  /** `backlog_items` for the text of `BACKLOG.md`, or `None` without that file. */
  function BacklogItems(backlog: Option<string>): string
  {
    match backlog
    case None => Clear
    case Some(content) =>
      var n := CountBacklog(Split(content, "\n"));
      if n > 0 then NatToString(n) + " items pending" else Clear
  }

  /** The backlog reads `N items pending` exactly when there are N > 0 items, and the number reads back as N. */
  lemma BacklogItemsText(backlog: Option<string>)
    ensures BacklogItems(backlog) == Clear <==> backlog.None? || CountBacklog(Split(backlog.value, "\n")) == 0
    ensures backlog.Some? && CountBacklog(Split(backlog.value, "\n")) > 0 ==>
      var n := CountBacklog(Split(backlog.value, "\n"));
      var text := BacklogItems(backlog);
      EndsWith(text, " items pending") && ParseNat(text[..|text| - 14]) == n
  {
    if backlog.Some? && CountBacklog(Split(backlog.value, "\n")) > 0 {
      var n := CountBacklog(Split(backlog.value, "\n"));
      var text := BacklogItems(backlog);
      var digits := NatToString(n);
      assert text[..|text| - 14] == digits;
      ParseNatToString(n);
      assert text != Clear by {
        assert IsDigit(text[0]) && !IsDigit(Clear[0]);
      }
    }
  }

  // ---------------------------------------------------------------------------
  // read_tasks
  // ---------------------------------------------------------------------------

  function Infos(files: seq<TaskFile>): (infos: seq<TaskInfo>)
    ensures |infos| == |files| && forall i :: 0 <= i < |files| ==> infos[i] == InfoOf(files[i])
  {
    seq(|files|, i requires 0 <= i < |files| => InfoOf(files[i]))
  }

  /** The report fields for a filled `tasks` dictionary. */
  function Summarize(tasks: Buckets, backlog: Option<string>): TaskSummary
    requires HasBuckets(tasks)
  {
    TaskSummary(
      |tasks["P0"]|, |tasks["P1"]|, |tasks["blocked"]|, |tasks["done"]|, |tasks["all"]|,
      FormatTasks(tasks["P0"]), FormatTasks(tasks["P1"]), FormatTasks(tasks["blocked"]),
      FormatTasksDetailed(tasks["all"]), BacklogItems(backlog))
  }

  /** What `read_tasks` returns: zeros and empty lists without a tasks directory. */
  function SummaryOf(tasksDir: Option<seq<TaskFile>>, backlog: Option<string>): TaskSummary
  {
    match tasksDir
    case None => TaskSummary(0, 0, 0, 0, 0, "", "", "", "", Clear)
    case Some(files) => Summarize(Filed(Infos(files)), backlog)
  }

  /** `read_tasks(config)` */
  method ReadTasks(tasksDir: Option<seq<TaskFile>>, backlog: Option<string>) returns (r: TaskSummary)
    ensures r == SummaryOf(tasksDir, backlog)
  {
    if tasksDir.None? {
      return TaskSummary(0, 0, 0, 0, 0, "", "", "", "", Clear);
    }
    var files := tasksDir.value;
    var tasks := EmptyBuckets;
    for n := 0 to |files|
      invariant tasks == Filed(Infos(files[..n]))
    {
      InfosStep(files, n);
      var info := ReadTaskInfo(files[n]);
      tasks := FileTask(tasks, info);
    }
    assert files[..|files|] == files;
    r := Summarize(tasks, backlog);
  }

  lemma InfosStep(files: seq<TaskFile>, n: nat)
    requires n < |files|
    ensures Filed(Infos(files[..n + 1])) == File(Filed(Infos(files[..n])), InfoOf(files[n]))
  {
    var infos := Infos(files[..n + 1]);
    assert infos[..n] == Infos(files[..n]);
    assert files[..n + 1][n] == files[n];
  }

  /**
   * Every task file counts toward `total`; the counts are those of the
   * tasks with priority P0, priority P1, status `b` and status `d`.
   */
  lemma SummaryCounts(files: seq<TaskFile>, backlog: Option<string>)
    ensures var r := SummaryOf(Some(files), backlog);
      var infos := Infos(files);
      && r.total == |files|
      && r.p0Count == |WithPriority(infos, "P0")| && r.p1Count == |WithPriority(infos, "P1")|
      && r.blockedCount == |WithStatus(infos, "b")| && r.doneCount == |WithStatus(infos, "d")|
      && r.p0Tasks == FormatTasks(WithPriority(infos, "P0"))
      && r.p1Tasks == FormatTasks(WithPriority(infos, "P1"))
      && r.blockedTasks == FormatTasks(WithStatus(infos, "b"))
      && r.taskDetails == FormatTasksDetailed(infos)
  {
    FiledContents(Infos(files));
  }

  /** The report as written: filed with `FileAsWritten`. */
  function SummaryAsWritten(files: seq<TaskFile>, backlog: Option<string>): TaskSummary
  {
    Summarize(FiledAsWritten(Infos(files)), backlog)
  }

  /**
   * When no task file gives `blocked`, `done` or `all` as its priority, the
   * report as written is the report of the intended filing.
   */
  lemma SummaryAgrees(files: seq<TaskFile>, backlog: Option<string>)
    requires forall i :: 0 <= i < |files| ==> InfoOf(files[i]).priority !in {"blocked", "done", "all"}
    ensures SummaryAsWritten(files, backlog) == SummaryOf(Some(files), backlog)
  {
    AsWrittenAgrees(Infos(files));
  }

  /** With stems free of line breaks, the task details have one line per task file. */
  lemma DetailsPerFile(files: seq<TaskFile>, backlog: Option<string>)
    requires |files| >= 1 && forall i :: 0 <= i < |files| ==> '\n' !in files[i].stem
    ensures |Split(SummaryOf(Some(files), backlog).taskDetails, "\n")| == |files|
  {
    var infos := Infos(files);
    FiledContents(infos);
    forall i | 0 <= i < |infos| ensures OneLine(infos[i]) {
      InfoOneLine(files[i]);
    }
    FormatTasksDetailedLines(infos);
  }
}
