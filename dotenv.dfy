/**
 * The `.env` line rule shared by `load_config` in scripts/logbook-local.py
 * and `load_env` in scripts/slack-enrichment.py: a line is stripped; blank
 * lines, `#` comments and lines without `=` are skipped; the rest is cut at
 * its first `=` into a stripped key and a stripped value.
 */
module DotEnv {
  import opened Wrappers
  import opened PyStr

  /** The key and value a `.env` line assigns, or `None` for a line the loops skip. */
  function Assignment(line: string): (r: Option<(string, string)>)
    ensures r.Some? ==> |r.value.0| + |r.value.1| < |line|
  {
    var l := Strip(line);
    if l == [] || StartsWith(l, "#") || !Contains(l, "=") then None
    else
      var i := Find(l, "=").value;
      Some((Strip(l[..i]), Strip(l[i + 1..])))
  }

  /** The assignments of the lines, one per line. */
  function Assignments(lines: seq<string>): (as_: seq<Option<(string, string)>>)
    ensures |as_| == |lines| && forall i :: 0 <= i < |lines| ==> as_[i] == Assignment(lines[i])
  {
    seq(|lines|, i requires 0 <= i < |lines| => Assignment(lines[i]))
  }

  /** The key is cut at the first `=`, so it never holds one, and keys and values carry no outer whitespace. */
  lemma AssignmentParts(line: string)
    requires Assignment(line).Some?
    ensures '=' !in Assignment(line).value.0
    ensures Trimmed(Assignment(line).value.0, IsSpace) && Trimmed(Assignment(line).value.1, IsSpace)
  {
    var l := Strip(line);
    var i := Find(l, "=").value;
    var head := l[..i];
    assert '=' !in head by {
      HeadFree(l, "=", i);
      ContainsChar(head, '=');
    }
    assert Assignment(line).value.0 == Strip(head);
  }

  /** A trimmed key without `=` or a leading `#`, and a trimmed value, come back unchanged from `key=value`. */
  lemma AssignmentRoundTrip(key: string, value: string)
    requires key != [] && key[0] != '#' && '=' !in key
    requires Trimmed(key, IsSpace) && Trimmed(value, IsSpace)
    ensures Assignment(key + "=" + value) == Some((key, value))
  {
    var line := key + "=" + value;
    assert !StartsWith(line, "#") && line[..|key|] == key && line[|key| + 1..] == value by {
      LineShape(key, value);
    }
    assert Strip(line) == line by {
      LineTrimmed(key, value);
    }
    assert Find(line, "=") == Some(|key|) by {
      FindCharFree(key, "=", value);
    }
    AssignmentAt(line, |key|);
  }

  /** A line that is already stripped and has its first `=` at `i` is cut there. */
  lemma AssignmentAt(line: string, i: nat)
    requires Strip(line) == line && !StartsWith(line, "#") && Find(line, "=") == Some(i)
    ensures Assignment(line) == Some((Strip(line[..i]), Strip(line[i + 1..])))
  {
  }

  lemma LineShape(key: string, value: string)
    requires key != [] && key[0] != '#'
    ensures !StartsWith(key + "=" + value, "#")
    ensures (key + "=" + value)[..|key|] == key && (key + "=" + value)[|key| + 1..] == value
  {
    assert (key + "=" + value)[..1] == [key[0]];
  }

  lemma LineTrimmed(key: string, value: string)
    requires key != [] && Trimmed(key, IsSpace) && Trimmed(value, IsSpace)
    ensures Strip(key + "=" + value) == key + "=" + value
  {
    var line := key + "=" + value;
    assert line[0] == key[0];
    assert line[|line| - 1] == if value == [] then '=' else value[|value| - 1];
  }
}
