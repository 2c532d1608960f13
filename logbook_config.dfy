/**
 * `load_config` of scripts/logbook-local.py: the `.env` file, then the
 * process environment, then two defaults, in that order of precedence.
 *
 * The `.env` file is given as its lines (`None` when it does not exist),
 * the process environment as a map, and the default tasks directory, which
 * the script derives from its own location, as a string.
 */
module LogbookConfig {
  import opened Wrappers
  import opened PyStr
  import opened DotEnv

  type Config = map<string, string>

  /** The variables the environment may override, in the order the script visits them. */
  const EnvVars: seq<string> := [
    "ATLASSIAN_DOMAIN", "ATLASSIAN_EMAIL", "ATLASSIAN_API_TOKEN",
    "JIRA_PROJECT", "CONFLUENCE_SPACES",
    "LLM_API_URL", "LLM_API_KEY", "LLM_MODEL",
    "SLACK_BOT_TOKEN", "SLACK_CHANNEL_ID", "SLACK_USER_TOKEN",
    "SLACK_MCP_TOKEN_PATH", "TASKS_DIR"]

  const DefaultModel: string := "gpt-4o-mini"

  predicate IsDoubleQuote(c: char) { c == '"' }

  predicate IsSingleQuote(c: char) { c == '\'' }

  /** `value.strip('"').strip("'")` on an already stripped value. */
  function CleanValue(v: string): string
  {
    StripChars(StripChars(v, IsDoubleQuote), IsSingleQuote)
  }

  /** `config[key.strip()] = ...` for a line that assigns, nothing for one the loop skips. */
  function PutLine(config: Config, a: Option<(string, string)>): Config
  {
    match a
    case None => config
    case Some(kv) => config[kv.0 := CleanValue(kv.1)]
  }

  /** The dictionary filled from the assignments in order. */
  function Collect(as_: seq<Option<(string, string)>>): Config
  {
    if as_ == [] then map[] else PutLine(Collect(as_[..|as_| - 1]), as_[|as_| - 1])
  }

  /** What the `.env` loop leaves in `config`. */
  function FileConfig(lines: seq<string>): Config
  {
    Collect(Assignments(lines))
  }

  /** `os.environ.get(var)` is truthy: set and not empty. */
  predicate Overrides(environ: map<string, string>, var_: string)
  {
    var_ in environ && environ[var_] != ""
  }

  /** The environment loop over `vars`. */
  function Override(config: Config, environ: map<string, string>, vars: seq<string>): Config
  {
    if vars == [] then config
    else
      var c := Override(config, environ, vars[..|vars| - 1]);
      var v := vars[|vars| - 1];
      if Overrides(environ, v) then c[v := environ[v]] else c
  }

  /** `dict.setdefault(key, value)` */
  function SetDefault(config: Config, key: string, value: string): Config
  {
    if key in config then config else config[key := value]
  }

  /** The dictionary `load_config` returns. */
  function ConfigOf(envFile: Option<seq<string>>, environ: map<string, string>, defaultTasksDir: string): Config
  {
    var fromFile := if envFile.Some? then FileConfig(envFile.value) else map[];
    var c := Override(fromFile, environ, EnvVars);
    SetDefault(SetDefault(c, "LLM_MODEL", DefaultModel), "TASKS_DIR", defaultTasksDir)
  }

  /** `load_config()` */
  method LoadConfig(envFile: Option<seq<string>>, environ: map<string, string>, defaultTasksDir: string)
    returns (config: Config)
    ensures config == ConfigOf(envFile, environ, defaultTasksDir)
  {
    config := map[];
    if envFile.Some? {
      config := ReadEnvFile(envFile.value);
    }
    ghost var fromFile := config;
    for n := 0 to |EnvVars|
      invariant config == Override(fromFile, environ, EnvVars[..n])
    {
      assert EnvVars[..n + 1][..n] == EnvVars[..n];
      var v := EnvVars[n];
      if v in environ && environ[v] != "" {
        config := config[v := environ[v]];
      }
    }
    assert EnvVars[..|EnvVars|] == EnvVars;
    if "LLM_MODEL" !in config {
      config := config["LLM_MODEL" := DefaultModel];
    }
    if "TASKS_DIR" !in config {
      config := config["TASKS_DIR" := defaultTasksDir];
    }
  }

  /** The `.env` loop of `load_config`. */
  method ReadEnvFile(lines: seq<string>) returns (config: Config)
    ensures config == FileConfig(lines)
  {
    config := map[];
    for n := 0 to |lines|
      invariant config == Collect(Assignments(lines[..n]))
    {
      CollectStep(lines, n);
      var a := Assignment(lines[n]);
      if a.Some? {
        var key, value := a.value.0, a.value.1;
        config := config[key := CleanValue(value)];
      }
    }
    assert lines[..|lines|] == lines;
  }

  lemma CollectStep(lines: seq<string>, n: nat)
    requires n < |lines|
    ensures Collect(Assignments(lines[..n + 1])) == PutLine(Collect(Assignments(lines[..n])), Assignment(lines[n]))
  {
    var as_ := Assignments(lines[..n + 1]);
    assert as_[..n] == Assignments(lines[..n]);
    assert lines[..n + 1][n] == lines[n];
  }

  lemma {:induction false} CollectKeys(as_: seq<Option<(string, string)>>, k: string)
    ensures k in Collect(as_) <==> exists i :: 0 <= i < |as_| && as_[i].Some? && as_[i].value.0 == k
  {
    if as_ != [] {
      var init := as_[..|as_| - 1];
      CollectKeys(init, k);
      assert forall i :: 0 <= i < |init| ==> as_[i] == init[i];
    }
  }

  lemma {:induction false} CollectLastWins(as_: seq<Option<(string, string)>>, k: string, i: nat)
    requires i < |as_| && as_[i].Some? && as_[i].value.0 == k
    requires forall j :: i < j < |as_| ==> as_[j].None? || as_[j].value.0 != k
    ensures k in Collect(as_) && Collect(as_)[k] == CleanValue(as_[i].value.1)
  {
    var init, last := as_[..|as_| - 1], as_[|as_| - 1];
    assert Collect(as_) == PutLine(Collect(init), last);
    if i < |as_| - 1 {
      assert k in Collect(init) && Collect(init)[k] == CleanValue(as_[i].value.1) by {
        assert init[i] == as_[i];
        forall j | i < j < |init| ensures init[j].None? || init[j].value.0 != k {
          assert init[j] == as_[j];
        }
        CollectLastWins(init, k, i);
      }
      PutLineOther(Collect(init), last, k);
    }
  }

  /** A line assigning another key, or none, leaves `k` as it was. */
  lemma PutLineOther(config: Config, a: Option<(string, string)>, k: string)
    requires a.None? || a.value.0 != k
    ensures (k in PutLine(config, a)) == (k in config)
    ensures k in config ==> PutLine(config, a)[k] == config[k]
  {
  }

  /** A key is in the file's settings exactly when some line assigns it. */
  lemma FileConfigKeys(lines: seq<string>, k: string)
    ensures k in FileConfig(lines) <==>
      exists i :: 0 <= i < |lines| && Assignment(lines[i]).Some? && Assignment(lines[i]).value.0 == k
  {
    CollectKeys(Assignments(lines), k);
  }

  /** The last line assigning a key gives its value, with outer `"` and then `'` removed. */
  lemma FileConfigLastWins(lines: seq<string>, k: string, i: nat)
    requires i < |lines| && Assignment(lines[i]).Some? && Assignment(lines[i]).value.0 == k
    requires forall j :: i < j < |lines| ==> Assignment(lines[j]).None? || Assignment(lines[j]).value.0 != k
    ensures k in FileConfig(lines) && FileConfig(lines)[k] == CleanValue(Assignment(lines[i]).value.1)
  {
    CollectLastWins(Assignments(lines), k, i);
  }

  /** A value in double quotes loses them: `KEY="v"` sets `v`. */
  lemma QuotesStripped(key: string, v: string)
    requires key != [] && key[0] != '#' && '=' !in key && Trimmed(key, IsSpace)
    requires Trimmed(v, IsDoubleQuote) && Trimmed(v, IsSingleQuote)
    ensures FileConfig([key + "=" + ("\"" + v + "\"")]) == map[key := v]
  {
    var quoted := "\"" + v + "\"";
    assert CleanValue(quoted) == v by {
      assert quoted == ['"'] + v + ['"'];
      StripEnclosed(v, IsDoubleQuote, '"');
    }
    assert Assignment(key + "=" + quoted) == Some((key, quoted)) by {
      assert quoted[0] == '"' && quoted[|quoted| - 1] == '"';
      AssignmentRoundTrip(key, quoted);
    }
    FileConfigSingle(key + "=" + quoted, key, quoted);
  }

  lemma FileConfigSingle(line: string, k: string, v: string)
    requires Assignment(line) == Some((k, v))
    ensures FileConfig([line]) == map[k := CleanValue(v)]
  {
    var as_ := Assignments([line]);
    assert as_[..0] == [];
    assert as_[0] == Some((k, v));
    var c := CleanValue(v);
    assert Collect(as_) == PutLine(map[], Some((k, v)));
    assert PutLine(map[], Some((k, v))) == map[k := c];
  }

  /** The environment loop sets exactly the listed variables that are set and non-empty. */
  lemma {:induction false} OverrideAt(config: Config, environ: map<string, string>, vars: seq<string>, k: string)
    ensures k in vars && Overrides(environ, k) ==>
      k in Override(config, environ, vars) && Override(config, environ, vars)[k] == environ[k]
    ensures !(k in vars && Overrides(environ, k)) ==>
      (k in Override(config, environ, vars) <==> k in config) &&
      (k in config ==> Override(config, environ, vars)[k] == config[k])
  {
    if vars != [] {
      OverrideAt(config, environ, vars[..|vars| - 1], k);
      assert vars == vars[..|vars| - 1] + [vars[|vars| - 1]];
    }
  }

  /**
   * Precedence of one key: a listed variable set and non-empty in the
   * environment wins; else the `.env` value; else the defaults, which apply
   * only to `LLM_MODEL` and `TASKS_DIR`; any other key is absent.
   */
  lemma Precedence(envFile: Option<seq<string>>, environ: map<string, string>, defaultTasksDir: string, k: string)
    ensures var config := ConfigOf(envFile, environ, defaultTasksDir);
      var fromFile := if envFile.Some? then FileConfig(envFile.value) else map[];
      if k in EnvVars && Overrides(environ, k) then k in config && config[k] == environ[k]
      else if k in fromFile then k in config && config[k] == fromFile[k]
      else if k == "LLM_MODEL" then k in config && config[k] == DefaultModel
      else if k == "TASKS_DIR" then k in config && config[k] == defaultTasksDir
      else k !in config
  {
    var fromFile := if envFile.Some? then FileConfig(envFile.value) else map[];
    OverrideAt(fromFile, environ, EnvVars, k);
  }
}
