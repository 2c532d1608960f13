/**
 * The deterministic core of scripts/agent_orchestrator.py: the hand-rolled
 * frontmatter parser of the task files, the sorting of tasks into the lists
 * the Analyzer agent is shown, the header stripping of agent instruction
 * files and the table of context periods per workflow.
 *
 * The file system, the clock and `strptime` are parameters: a task file is
 * its name, stem and text, "today" is a day number, and the date parser is a
 * function from text to an optional day number (`None` where `strptime`
 * raises `ValueError`).
 */
module Orchestrator {
  import opened Wrappers
  import opened PyStr

  // ---------------------------------------------------------------------------
  // parse_frontmatter
  // ---------------------------------------------------------------------------

  /** A parsed frontmatter: each key maps to its value, or to `None` for an empty or `null` value. */
  type Frontmatter = map<string, Option<string>>

  /** Python's `v[1:-1]`, empty for strings shorter than two characters. */
  function InnerSlice(v: string): (r: string)
  {
    if |v| >= 2 then v[1..|v| - 1] else ""
  }

  /** Drops one pair of outer quotes when the value starts and ends with `"`, or else with `'`. */
  function Unquote(v: string): string
  {
    if StartsWith(v, "\"") && EndsWith(v, "\"") then InnerSlice(v)
    else if StartsWith(v, "'") && EndsWith(v, "'") then InnerSlice(v)
    else v
  }

  /** The stored value for the text after the first colon. */
  function ValueOf(raw: string): Option<string>
  {
    var v := Unquote(Strip(raw));
    if v == "" || v == "null" then None else Some(v)
  }

  /** One frontmatter line: `key: value` split at the first colon; nothing for a line without one. */
  function EntryOf(line: string): Option<(string, Option<string>)>
  {
    match Find(line, ":")
    case None => None
    case Some(i) => Some((Strip(line[..i]), ValueOf(line[i + 1..])))
  }

  /** The entries of the lines, one per line, `None` for a line without a colon. */
  function Parsed(lines: seq<string>): (es: seq<Option<(string, Option<string>)>>)
    ensures |es| == |lines| && forall i :: 0 <= i < |lines| ==> es[i] == EntryOf(lines[i])
  {
    seq(|lines|, i requires 0 <= i < |lines| => EntryOf(lines[i]))
  }

  /** The dictionary filled with the entries in order, a later key overwriting an earlier one. */
  function Assemble(es: seq<Option<(string, Option<string>)>>): Frontmatter
  {
    if es == [] then map[]
    else
      Put(Assemble(es[..|es| - 1]), es[|es| - 1])
  }

  /** `frontmatter[key] = value` for a line with an entry; nothing for a line without one. */
  function Put(m: Frontmatter, e: Option<(string, Option<string>)>): Frontmatter
  {
    match e
    case None => m
    case Some(kv) => m[kv.0 := kv.1]
  }

  /** The dictionary the line loop builds. */
  function Entries(lines: seq<string>): Frontmatter
  {
    Assemble(Parsed(lines))
  }

  /** The text between the opening `---` and the next `---`, stripped; `None` when there is no such pair. */
  function FrontmatterText(content: string): Option<string>
  {
    if !StartsWith(content, "---") then None
    else
      var parts := SplitN(content, "---", 2);
      if |parts| < 3 then None else Some(Strip(parts[1]))
  }

  /** What `parse_frontmatter` returns. */
  function FrontmatterOf(content: string): Option<Frontmatter>
  {
    match FrontmatterText(content)
    case None => None
    case Some(text) => Some(Entries(Split(text, "\n")))
  }

  /** `parse_frontmatter(content)`: cuts out the block between the `---` markers and reads it line by line. */
  method ParseFrontmatter(content: string) returns (r: Option<Frontmatter>)
    ensures r == FrontmatterOf(content)
  {
    if !StartsWith(content, "---") {
      return None;
    }
    var parts := SplitN(content, "---", 2);
    if |parts| < 3 {
      return None;
    }
    var frontmatter := Strip(parts[1]);
    var result := ReadEntries(Split(frontmatter, "\n"));
    return Some(result);
  }

  /** The line loop of `parse_frontmatter`: each `key: value` line sets one entry of the dictionary. */
  method ReadEntries(lines: seq<string>) returns (result: Frontmatter)
    ensures result == Entries(lines)
  {
    result := map[];
    for n := 0 to |lines|
      invariant result == Entries(lines[..n])
    {
      EntriesStep(lines, n);
      var entry := ReadEntry(lines[n]);
      if entry.Some? {
        result := result[entry.value.0 := entry.value.1];
      }
      assert result == Put(Entries(lines[..n]), entry);
    }
    assert lines[..|lines|] == lines;
  }

  /** The body of that loop for one line: split at the first colon, strip both sides, drop one pair of quotes. */
  method ReadEntry(line: string) returns (entry: Option<(string, Option<string>)>)
    ensures entry == EntryOf(line)
  {
    if !Contains(line, ":") {
      return None;
    }
    EntryOfParts(line);
    var kv := SplitN(line, ":", 1);
    var key, value := Strip(kv[0]), Strip(kv[1]);
    if StartsWith(value, "\"") && EndsWith(value, "\"") {
      value := InnerSlice(value);
    } else if StartsWith(value, "'") && EndsWith(value, "'") {
      value := InnerSlice(value);
    }
    var stored := if value == "" || value == "null" then None else Some(value);
    return Some((key, stored));
  }

  /** One more line extends the dictionary by that line's entry. */
  lemma EntriesStep(lines: seq<string>, n: nat)
    requires n < |lines|
    ensures Entries(lines[..n + 1]) == Put(Entries(lines[..n]), EntryOf(lines[n]))
  {
    var es := Parsed(lines[..n + 1]);
    assert es[..n] == Parsed(lines[..n]);
    assert lines[..n + 1][n] == lines[n];
  }

  /** `line.split(':', 1)` yields the key text and the value text of the line's entry. */
  lemma EntryOfParts(line: string)
    requires Contains(line, ":")
    ensures |SplitN(line, ":", 1)| == 2
    ensures EntryOf(line) == Some((Strip(SplitN(line, ":", 1)[0]), ValueOf(SplitN(line, ":", 1)[1])))
  {
    var i := Find(line, ":").value;
    SplitNCut(line, ":", 1, i);
    assert SplitN(line[i + 1..], ":", 0) == [line[i + 1..]];
  }

  /**
   * There is a frontmatter exactly when the text starts with `---` and
   * another `---` follows; it is the stripped text between the two.
   */
  lemma {:induction false} FrontmatterDelimited(content: string)
    ensures FrontmatterText(content).Some? <==>
      StartsWith(content, "---") && Contains(content[3..], "---")
    ensures FrontmatterText(content).Some? ==>
      FrontmatterText(content).value == Strip(content[3..][..Find(content[3..], "---").value])
  {
    if StartsWith(content, "---") {
      assert IsAt(content, "---", 0);
      assert Find(content, "---") == Some(0);
      var rest := content[3..];
      if Find(rest, "---").Some? {
        SplitNTwice(content, "---", 0, Find(rest, "---").value);
      } else {
        SplitNTwiceShort(content, "---");
      }
    }
  }

  /** A line is cut at its first colon, so the value may hold further colons; key and value are stripped. */
  lemma EntryAtFirstColon(key: string, rest: string)
    requires ':' !in key
    ensures EntryOf(key + ":" + rest) == Some((Strip(key), ValueOf(rest)))
  {
    var line := key + ":" + rest;
    assert Find(line, ":") == Some(|key|) by {
      FindCharFree(key, ":", rest);
    }
    assert line[..|key|] == key && line[|key| + 1..] == rest;
  }

  /** A line without a colon adds nothing. */
  lemma EntryNeedsColon(line: string)
    requires ':' !in line
    ensures EntryOf(line) == None
  {
    ContainsChar(line, ':');
  }

  /** A value in a matching pair of quotes loses exactly that pair. */
  lemma ValueUnquoted(x: string, quote: char)
    requires quote == '"' || quote == '\''
    ensures Unquote([quote] + x + [quote]) == x
  {
    var v := [quote] + x + [quote];
    assert v[..1] == [quote] && v[|v| - 1..] == [quote];
    assert v[1..|v| - 1] == x;
  }

  lemma {:induction false} AssembleKeys(es: seq<Option<(string, Option<string>)>>, k: string)
    ensures k in Assemble(es) <==> exists i :: 0 <= i < |es| && es[i].Some? && es[i].value.0 == k
  {
    if es != [] {
      var init := es[..|es| - 1];
      AssembleKeys(init, k);
      assert forall i :: 0 <= i < |init| ==> es[i] == init[i];
    }
  }

  lemma {:induction false} AssembleLastWins(es: seq<Option<(string, Option<string>)>>, k: string, i: nat)
    requires i < |es| && es[i].Some? && es[i].value.0 == k
    requires forall j :: i < j < |es| ==> es[j].None? || es[j].value.0 != k
    ensures k in Assemble(es) && Assemble(es)[k] == es[i].value.1
  {
    var init := es[..|es| - 1];
    if i < |es| - 1 {
      assert es[i] == init[i];
      AssembleLastWins(init, k, i);
    }
  }

  /** A key is in the dictionary exactly when some line has an entry with that key. */
  lemma EntriesKeys(lines: seq<string>, k: string)
    ensures k in Entries(lines) <==>
      exists i :: 0 <= i < |lines| && EntryOf(lines[i]).Some? && EntryOf(lines[i]).value.0 == k
  {
    AssembleKeys(Parsed(lines), k);
  }

  /** The last line with a key gives that key's value: a later line overwrites an earlier one. */
  lemma EntriesLastWins(lines: seq<string>, k: string, i: nat)
    requires i < |lines| && EntryOf(lines[i]).Some? && EntryOf(lines[i]).value.0 == k
    requires forall j :: i < j < |lines| ==> EntryOf(lines[j]).None? || EntryOf(lines[j]).value.0 != k
    ensures k in Entries(lines) && Entries(lines)[k] == EntryOf(lines[i]).value.1
  {
    AssembleLastWins(Parsed(lines), k, i);
  }

  // ---------------------------------------------------------------------------
  // read_tasks
  // ---------------------------------------------------------------------------

  /** A `*.md` file of the tasks directory: its name, its stem and its text. */
  datatype TaskFile = TaskFile(name: string, stem: string, content: string)

  /** The `task_data` dictionary of one task; `None` where the value is Python's `None`. */
  datatype Task = Task(
    file: string,
    title: Option<string>,
    priority: Option<string>,
    status: Option<string>,
    dueDate: Option<string>,
    nextAction: Option<string>,
    nextActionDue: Option<string>,
    blockedBy: Option<string>,
    blockedType: Option<string>,
    blockedExpected: Option<string>)

  /** The six lists `read_tasks` returns. */
  datatype TaskLists = TaskLists(
    allTasks: seq<Task>,
    actionsDueToday: seq<Task>,
    actionsDueThisWeek: seq<Task>,
    blockedTasks: seq<Task>,
    p0Tasks: seq<Task>,
    p1Tasks: seq<Task>)

  /** `frontmatter.get(key, default)`: the default only for an absent key, not for one mapped to `None`. */
  function Get(fm: Frontmatter, key: string, default: Option<string>): Option<string>
  {
    if key in fm then fm[key] else default
  }

  function TaskOf(f: TaskFile, fm: Frontmatter): Task
  {
    Task(
      file := f.name,
      title := Get(fm, "title", Some(f.stem)),
      priority := Get(fm, "priority", Some("P2")),
      status := Get(fm, "status", Some("n")),
      dueDate := Get(fm, "due_date", None),
      nextAction := Get(fm, "next_action", None),
      nextActionDue := Get(fm, "next_action_due", None),
      blockedBy := Get(fm, "blocked_by", None),
      blockedType := Get(fm, "blocked_type", None),
      blockedExpected := Get(fm, "blocked_expected", None))
  }

  /**
   * The defaults `P2`, `n` and the file stem apply only when the key is
   * absent; a present key is taken as is, even when it maps to None.
   */
  lemma DefaultsOnlyWhenAbsent(f: TaskFile, fm: Frontmatter)
    ensures TaskOf(f, fm).priority == Some("P2") <==> ("priority" !in fm || fm["priority"] == Some("P2"))
    ensures "status" !in fm ==> TaskOf(f, fm).status == Some("n")
    ensures "status" in fm ==> TaskOf(f, fm).status == fm["status"]
    ensures "title" in fm ==> TaskOf(f, fm).title == fm["title"]
    ensures "due_date" !in fm ==> TaskOf(f, fm).dueDate == None
    ensures "title" !in fm ==> TaskOf(f, fm).title == Some(f.stem)
  {
  }

  /** A file takes part in `read_tasks` when its frontmatter parses to a non-empty dictionary. */
  predicate Listed(f: TaskFile)
  {
    FrontmatterOf(f.content).Some? && FrontmatterOf(f.content).value != map[]
  }

  /** `all_tasks`: one task per listed file, in file order. */
  function Tasks(files: seq<TaskFile>): seq<Task>
  {
    if files == [] then []
    else
      var rest := Tasks(files[..|files| - 1]);
      var f := files[|files| - 1];
      if Listed(f) then rest + [TaskOf(f, FrontmatterOf(f.content).value)] else rest
  }

  /** `next_action_due` as a day: `None` when unset, empty or not a `%Y-%m-%d` date. */
  function NextActionDay(t: Task, parseDate: string -> Option<int>): Option<int>
  {
    match t.nextActionDue
    case None => None
    case Some(s) => if s == "" then None else parseDate(s)
  }

  datatype Bucket = DueToday | DueThisWeek | Blocked | P0 | P1

  predicate IsBlocked(t: Task) { t.status == Some("b") }

  predicate IsDone(t: Task) { t.status == Some("d") }

  /** Whether `read_tasks` appends a task of `all_tasks` to the list of `b`. */
  predicate InBucket(t: Task, b: Bucket, today: int, parseDate: string -> Option<int>)
  {
    if b == Blocked then IsBlocked(t)
    else if IsBlocked(t) || IsDone(t) then false
    else
      var day := NextActionDay(t, parseDate);
      match b
      case DueToday => day.Some? && day.value <= today
      case DueThisWeek => day.Some? && today < day.value <= today + 7
      case P0 => t.priority == Some("P0")
      case P1 => t.priority == Some("P1")
  }

  /** The tasks of `ts` that go into the list of `b`, in order. */
  function Select(ts: seq<Task>, b: Bucket, today: int, parseDate: string -> Option<int>): seq<Task>
  {
    if ts == [] then []
    else
      var rest := Select(ts[..|ts| - 1], b, today, parseDate);
      if InBucket(ts[|ts| - 1], b, today, parseDate) then rest + [ts[|ts| - 1]] else rest
  }

  /** The lists `read_tasks` returns for the given files and day. */
  function Categorize(files: seq<TaskFile>, today: int, parseDate: string -> Option<int>): TaskLists
  {
    ListsOf(Tasks(files), today, parseDate)
  }

  /** `all_tasks` and the five lists drawn from it. */
  function ListsOf(all: seq<Task>, today: int, parseDate: string -> Option<int>): TaskLists
  {
    TaskLists(all,
      Select(all, DueToday, today, parseDate),
      Select(all, DueThisWeek, today, parseDate),
      Select(all, Blocked, today, parseDate),
      Select(all, P0, today, parseDate),
      Select(all, P1, today, parseDate))
  }

  /** `read_tasks()`: one pass over the task files, appending to the six lists. */
  method ReadTasks(files: seq<TaskFile>, today: int, parseDate: string -> Option<int>) returns (r: TaskLists)
    ensures r == Categorize(files, today, parseDate)
  {
    r := TaskLists([], [], [], [], [], []);
    for n := 0 to |files|
      invariant r == Categorize(files[..n], today, parseDate)
    {
      CategorizeStep(files, n, today, parseDate);
      var frontmatter := ParseFrontmatter(files[n].content);
      if frontmatter.None? || frontmatter.value == map[] {
        continue;
      }
      var task := TaskOf(files[n], frontmatter.value);
      r := AddTask(r, task, today, parseDate);
    }
    assert files[..|files|] == files;
  }

  /** The lists with `t` appended to `all_tasks` and to the list of each bucket it belongs to. */
  function Added(r: TaskLists, t: Task, today: int, parseDate: string -> Option<int>): TaskLists
  {
    TaskLists(r.allTasks + [t],
      r.actionsDueToday + (if InBucket(t, DueToday, today, parseDate) then [t] else []),
      r.actionsDueThisWeek + (if InBucket(t, DueThisWeek, today, parseDate) then [t] else []),
      r.blockedTasks + (if InBucket(t, Blocked, today, parseDate) then [t] else []),
      r.p0Tasks + (if InBucket(t, P0, today, parseDate) then [t] else []),
      r.p1Tasks + (if InBucket(t, P1, today, parseDate) then [t] else []))
  }

  /** The body of the loop of `read_tasks` for one task: blocked, done, due dates and priority in that order. */
  method AddTask(r: TaskLists, task: Task, today: int, parseDate: string -> Option<int>) returns (r': TaskLists)
    ensures r' == Added(r, task, today, parseDate)
  {
    var weekEnd := today + 7;
    r' := r.(allTasks := r.allTasks + [task]);
    if task.status == Some("b") {
      r' := r'.(blockedTasks := r.blockedTasks + [task]);
      return;
    }
    if task.status == Some("d") {
      return;
    }
    var due := NextActionDay(task, parseDate);
    if due.Some? && due.value <= today {
      r' := r'.(actionsDueToday := r.actionsDueToday + [task]);
    } else if due.Some? && due.value <= weekEnd {
      r' := r'.(actionsDueThisWeek := r.actionsDueThisWeek + [task]);
    }
    if task.priority == Some("P0") {
      r' := r'.(p0Tasks := r.p0Tasks + [task]);
    } else if task.priority == Some("P1") {
      r' := r'.(p1Tasks := r.p1Tasks + [task]);
    }
  }

  /** One more file adds its task to the lists when the file is listed. */
  lemma CategorizeStep(files: seq<TaskFile>, n: nat, today: int, parseDate: string -> Option<int>)
    requires n < |files|
    ensures Categorize(files[..n + 1], today, parseDate) ==
      if Listed(files[n])
      then Added(Categorize(files[..n], today, parseDate),
                 TaskOf(files[n], FrontmatterOf(files[n].content).value), today, parseDate)
      else Categorize(files[..n], today, parseDate)
  {
    TasksStep(files, n);
    if Listed(files[n]) {
      ListsOfStep(Tasks(files[..n]), TaskOf(files[n], FrontmatterOf(files[n].content).value), today, parseDate);
    }
  }

  /** One more task goes into `all_tasks` and into the list of each bucket it belongs to. */
  lemma ListsOfStep(all: seq<Task>, t: Task, today: int, parseDate: string -> Option<int>)
    ensures ListsOf(all + [t], today, parseDate) == Added(ListsOf(all, today, parseDate), t, today, parseDate)
  {
    SelectStep(all, t, DueToday, today, parseDate);
    SelectStep(all, t, DueThisWeek, today, parseDate);
    SelectStep(all, t, Blocked, today, parseDate);
    SelectStep(all, t, P0, today, parseDate);
    SelectStep(all, t, P1, today, parseDate);
  }

  /** One more file adds its task to `all_tasks` when the file is listed. */
  lemma TasksStep(files: seq<TaskFile>, n: nat)
    requires n < |files|
    ensures Tasks(files[..n + 1]) ==
      if Listed(files[n]) then Tasks(files[..n]) + [TaskOf(files[n], FrontmatterOf(files[n].content).value)]
      else Tasks(files[..n])
  {
    assert files[..n + 1][..n] == files[..n];
  }

  /** One more task joins the list of `b` when it belongs there. */
  lemma SelectStep(ts: seq<Task>, t: Task, b: Bucket, today: int, parseDate: string -> Option<int>)
    ensures Select(ts + [t], b, today, parseDate) ==
      if InBucket(t, b, today, parseDate) then Select(ts, b, today, parseDate) + [t]
      else Select(ts, b, today, parseDate)
  {
    assert (ts + [t])[..|ts|] == ts;
  }

  /** A list holds exactly the tasks of its input that belong to it, and no more tasks than the input. */
  lemma {:induction false} SelectMembers(ts: seq<Task>, b: Bucket, today: int, parseDate: string -> Option<int>)
    ensures |Select(ts, b, today, parseDate)| <= |ts|
    ensures forall t :: t in Select(ts, b, today, parseDate) <==> t in ts && InBucket(t, b, today, parseDate)
  {
    if ts != [] {
      var init := ts[..|ts| - 1];
      SelectMembers(init, b, today, parseDate);
      assert ts == init + [ts[|ts| - 1]];
    }
  }

  /** `all_tasks` holds one task per listed file and nothing else. */
  lemma {:induction false} TasksFromListedFiles(files: seq<TaskFile>)
    ensures |Tasks(files)| <= |files|
    ensures forall t :: t in Tasks(files) <==>
      exists f :: f in files && Listed(f) && t == TaskOf(f, FrontmatterOf(f.content).value)
  {
    if files != [] {
      var init := files[..|files| - 1];
      TasksFromListedFiles(init);
      assert files == init + [files[|files| - 1]];
    }
  }

  /**
   * Blocked tasks are listed only as blocked; done tasks only in
   * `all_tasks`; the two due lists never share a task.
   */
  lemma Exclusive(files: seq<TaskFile>, today: int, parseDate: string -> Option<int>, t: Task)
    ensures var r := Categorize(files, today, parseDate);
      && (t in r.blockedTasks <==> t in r.allTasks && IsBlocked(t))
      && (t in r.blockedTasks ==>
            t !in r.actionsDueToday && t !in r.actionsDueThisWeek && t !in r.p0Tasks && t !in r.p1Tasks)
      && (IsDone(t) ==>
            t !in r.blockedTasks && t !in r.actionsDueToday && t !in r.actionsDueThisWeek &&
            t !in r.p0Tasks && t !in r.p1Tasks)
      && !(t in r.actionsDueToday && t in r.actionsDueThisWeek)
      && !(t in r.p0Tasks && t in r.p1Tasks)
  {
    var all := Tasks(files);
    SelectMembers(all, DueToday, today, parseDate);
    SelectMembers(all, DueThisWeek, today, parseDate);
    SelectMembers(all, Blocked, today, parseDate);
    SelectMembers(all, P0, today, parseDate);
    SelectMembers(all, P1, today, parseDate);
  }

  /**
   * The due lists by date: on or before today (overdue included) is due
   * today, the seven days after are due this week, a task without a
   * readable date is in neither.
   */
  lemma DueByDate(files: seq<TaskFile>, today: int, parseDate: string -> Option<int>, t: Task)
    requires t in Tasks(files) && !IsBlocked(t) && !IsDone(t)
    ensures var r := Categorize(files, today, parseDate);
      var day := NextActionDay(t, parseDate);
      && (t in r.actionsDueToday <==> day.Some? && day.value <= today)
      && (t in r.actionsDueThisWeek <==> day.Some? && today < day.value <= today + 7)
      && (t in r.p0Tasks <==> t.priority == Some("P0"))
      && (t in r.p1Tasks <==> t.priority == Some("P1"))
  {
    var all := Tasks(files);
    SelectMembers(all, DueToday, today, parseDate);
    SelectMembers(all, DueThisWeek, today, parseDate);
    SelectMembers(all, P0, today, parseDate);
    SelectMembers(all, P1, today, parseDate);
  }

  // ---------------------------------------------------------------------------
  // load_agent_instructions and the context periods
  // ---------------------------------------------------------------------------

  /** The instructions `load_agent_instructions` returns for the text of an agent file. */
  function AgentInstructions(content: string): (r: string)
    ensures StartsWith(content, "#") ==> r == content
    ensures r == content || Trimmed(r, IsSpace)
  {
    if StartsWith(content, "#") then content
    else
      var parts := SplitN(content, "---", 2);
      if |parts| >= 3 then Strip(parts[2]) else content
  }

  /** Everything after the second `---`, stripped, when the file does not start with `#` and has two. */
  lemma InstructionsAfterHeader(content: string, i: nat, j: nat)
    requires !StartsWith(content, "#")
    requires Find(content, "---") == Some(i) && Find(content[i + 3..], "---") == Some(j)
    ensures AgentInstructions(content) == Strip(content[i + 3..][j + 3..])
  {
    SplitNTwice(content, "---", i, j);
  }

  /** The whole file when it starts with `#` or has fewer than two `---`. */
  lemma InstructionsWhole(content: string)
    requires StartsWith(content, "#") || Find(content, "---").None? ||
      Find(content[Find(content, "---").value + 3..], "---").None?
    ensures AgentInstructions(content) == content
  {
    if !StartsWith(content, "#") {
      SplitNTwiceShort(content, "---");
    }
  }

  /** The context period `orchestrate` asks for, by workflow type. */
  function ContextPeriod(workflowType: string): (period: string)
    ensures period == "since_briefing" <==> workflowType == "daily-closing"
    ensures period == "7d" <==> workflowType == "weekly-review"
    ensures period == "24h" <==> workflowType != "daily-closing" && workflowType != "weekly-review"
  {
    var periods := map["daily-briefing" := "24h", "daily-closing" := "since_briefing", "weekly-review" := "7d"];
    if workflowType in periods then periods[workflowType] else "24h"
  }
}
