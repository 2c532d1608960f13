/**
 * The parts of Python's `str` type that the three scripts rely on, with
 * Python's own semantics: `strip`, `startswith`/`endswith`, `in` and `find`,
 * `split` with and without a limit, `join`, `replace` of one character,
 * `title`, `str()` of an integer and the ordering `<` of strings.
 */
module PyStr {
  import opened Wrappers

  // ---------------------------------------------------------------------------
  // strip
  // ---------------------------------------------------------------------------

  /** `c.isspace()`: what `strip()` with no argument removes. */
  predicate IsSpace(c: char)
  {
    || '\t' <= c <= '\r' || '\U{1C}' <= c <= '\U{1F}' || c == ' '
    || c == '\U{85}' || c == '\U{A0}' || c == '\U{1680}' || '\U{2000}' <= c <= '\U{200A}'
    || c == '\U{2028}' || c == '\U{2029}' || c == '\U{202F}' || c == '\U{205F}' || c == '\U{3000}'
  }

  /** `s.lstrip(chars)`, with `chars` given as its membership test: drops the longest prefix of such characters. */
  function LStrip(s: string, chars: char -> bool): (r: string)
    ensures |r| <= |s| && r == s[|s| - |r|..]
    ensures r != [] ==> !chars(r[0])
  {
    if s != [] && chars(s[0]) then LStrip(s[1..], chars) else s
  }

  /** `s.rstrip(chars)`: drops the longest suffix of such characters. */
  function RStrip(s: string, chars: char -> bool): (r: string)
    ensures |r| <= |s| && r == s[..|r|]
    ensures r != [] ==> !chars(r[|r| - 1])
  {
    if s != [] && chars(s[|s| - 1]) then RStrip(s[..|s| - 1], chars) else s
  }

  /** True when `s` neither starts nor ends with one of `chars`. */
  predicate Trimmed(s: string, chars: char -> bool)
  {
    s == [] || (!chars(s[0]) && !chars(s[|s| - 1]))
  }

  /** `s.strip(chars)`: both ends at once. */
  function StripChars(s: string, chars: char -> bool): (r: string)
    ensures |r| <= |s|
    ensures Trimmed(r, chars)
    ensures Trimmed(s, chars) ==> r == s
  {
    var l := LStrip(s, chars);
    var r := RStrip(l, chars);
    assert r != [] ==> r[0] == l[0];
    r
  }

  /** `s.strip()` with no argument. */
  function Strip(s: string): (r: string)
    ensures |r| <= |s| && Trimmed(r, IsSpace)
    ensures Trimmed(s, IsSpace) ==> r == s
  {
    StripChars(s, IsSpace)
  }

  /** Stripping twice removes nothing more than stripping once. */
  lemma {:induction false} StripIdempotent(s: string, chars: char -> bool)
    ensures StripChars(StripChars(s, chars), chars) == StripChars(s, chars)
  {
  }

  /** A pair of stripped characters around a text that does not start or end with one is exactly what goes. */
  lemma {:induction false} LStripEnclosed(x: string, chars: char -> bool, c: char)
    requires chars(c) && Trimmed(x, chars)
    ensures LStrip([c] + x + [c], chars) == if x == [] then [] else x + [c]
  {
    var s := [c] + x + [c];
    assert s[0] == c && s[1..] == x + [c];
    if x == [] {
      assert (x + [c])[1..] == [];
    } else {
      assert (x + [c])[0] == x[0];
    }
  }
  lemma {:induction false} RStripEnclosed(x: string, chars: char -> bool, c: char)
    requires chars(c) && Trimmed(x, chars)
    ensures RStrip(x + [c], chars) == x
  {
    var s := x + [c];
    assert s[|s| - 1] == c && s[..|s| - 1] == x;
  }
  lemma {:induction false} StripEnclosed(x: string, chars: char -> bool, c: char)
    requires chars(c) && Trimmed(x, chars)
    ensures StripChars([c] + x + [c], chars) == x
  {
    LStripEnclosed(x, chars, c);
    if x != [] {
      RStripEnclosed(x, chars, c);
    }
  }

  // ---------------------------------------------------------------------------
  // startswith, endswith, in, find
  // ---------------------------------------------------------------------------

  predicate StartsWith(s: string, prefix: string)
  {
    |prefix| <= |s| && s[..|prefix|] == prefix
  }

  predicate EndsWith(s: string, suffix: string)
  {
    |suffix| <= |s| && s[|s| - |suffix|..] == suffix
  }

  /** `sub` occurs in `s` at index `i`. */
  predicate IsAt(s: string, sub: string, i: nat)
  {
    i + |sub| <= |s| && s[i..i + |sub|] == sub
  }

  /** `s.find(sub, start)`, with `None` for Python's -1. */
  function FindFrom(s: string, sub: string, start: nat): (r: Option<nat>)
    requires start <= |s|
    ensures r.Some? ==> start <= r.value && IsAt(s, sub, r.value)
    decreases |s| - start
  {
    if IsAt(s, sub, start) then Some(start)
    else if start == |s| then None
    else FindFrom(s, sub, start + 1)
  }

  /** `s.find(sub)`: an occurrence, the first one by `FindBefore`. */
  function Find(s: string, sub: string): (r: Option<nat>)
    ensures r.Some? ==> IsAt(s, sub, r.value)
  {
    FindFrom(s, sub, 0)
  }

  /** No occurrence lies between `start` and what `FindFrom` answers, nor anywhere after `start` when it answers `None`. */
  lemma {:induction false} FindFromBefore(s: string, sub: string, start: nat, j: nat)
    requires start <= j && start <= |s|
    requires FindFrom(s, sub, start).None? || j < FindFrom(s, sub, start).value
    ensures !IsAt(s, sub, j)
    decreases |s| - start
  {
    if start < j && start < |s| {
      FindFromBefore(s, sub, start + 1, j);
    }
  }

  /** `find` answers the first occurrence: none lies before it, and none at all when it answers -1. */
  lemma {:induction false} FindBefore(s: string, sub: string, j: nat)
    requires Find(s, sub).None? || j < Find(s, sub).value
    ensures !IsAt(s, sub, j)
  {
    FindFromBefore(s, sub, 0, j);
  }

  /** Any occurrence bounds what `find` answers. */
  lemma {:induction false} FindAtMost(s: string, sub: string, j: nat)
    requires IsAt(s, sub, j)
    ensures Find(s, sub).Some? && Find(s, sub).value <= j
  {
    if Find(s, sub).None? || j < Find(s, sub).value {
      FindBefore(s, sub, j);
    }
  }

  /** Python's `sub in s`. */
  predicate Contains(s: string, sub: string)
  {
    Find(s, sub).Some?
  }

  /** Whatever surrounds `sub`, the result contains it. */
  lemma {:induction false} ContainsInfix(prefix: string, sub: string, suffix: string)
    ensures Contains(prefix + sub + suffix, sub)
  {
    var s := prefix + sub + suffix;
    assert s[|prefix|..|prefix| + |sub|] == sub;
    FindAtMost(s, sub, |prefix|);
  }

  /** A one-character `sub` occurs exactly when that character does. */
  lemma {:induction false} ContainsChar(s: string, c: char)
    ensures Contains(s, [c]) <==> c in s
  {
    if c in s {
      var i :| 0 <= i < |s| && s[i] == c;
      assert s[i..i + 1] == [c];
      FindAtMost(s, [c], i);
    }
    if Contains(s, [c]) {
      var i := Find(s, [c]).value;
      assert s[i] == s[i..i + 1][0];
    }
  }

  // ---------------------------------------------------------------------------
  // split and join
  // ---------------------------------------------------------------------------

  /** `s.split(sep, maxsplit)`: at most `maxsplit` cuts, at the leftmost occurrences. */
  function SplitN(s: string, sep: string, maxsplit: nat): (parts: seq<string>)
    requires sep != []
    ensures 1 <= |parts| <= maxsplit + 1
    decreases |s|
  {
    if maxsplit == 0 then [s]
    else match Find(s, sep)
      case None => [s]
      case Some(i) => [s[..i]] + SplitN(s[i + |sep|..], sep, maxsplit - 1)
  }

  /**
   * `s.split(sep)` without a limit: every cut consumes at least one
   * character, so a limit of `|s|` never binds.
   */
  function Split(s: string, sep: string): (parts: seq<string>)
    requires sep != []
  {
    SplitN(s, sep, |s|)
  }

  /** `sep.join(parts)` */
  function Join(parts: seq<string>, sep: string): string
  {
    if |parts| == 0 then ""
    else if |parts| == 1 then parts[0]
    else parts[0] + sep + Join(parts[1..], sep)
  }

  lemma {:induction false} JoinCons(head: string, rest: seq<string>, sep: string)
    requires |rest| >= 1
    ensures Join([head] + rest, sep) == head + sep + Join(rest, sep)
  {
    assert ([head] + rest)[1..] == rest;
  }

  lemma {:induction false} SplitNCut(s: string, sep: string, maxsplit: nat, i: nat)
    requires sep != [] && maxsplit > 0 && Find(s, sep) == Some(i)
    ensures SplitN(s, sep, maxsplit) == [s[..i]] + SplitN(s[i + |sep|..], sep, maxsplit - 1)
  {
  }

  /** An occurrence of `sep` at `i` splits `s` into the text before, `sep` and the text after. */
  lemma {:induction false} Around(s: string, sep: string, i: nat)
    requires IsAt(s, sep, i)
    ensures s == s[..i] + sep + s[i + |sep|..]
  {
    assert s[i..i + |sep|] == sep;
  }

  /** `s.split(sep, 1)` cuts at the first occurrence when there is one. */
  lemma {:induction false} SplitNOnce(s: string, sep: string)
    requires sep != []
    ensures Find(s, sep).None? ==> SplitN(s, sep, 1) == [s]
    ensures Find(s, sep).Some? ==>
      SplitN(s, sep, 1) == [s[..Find(s, sep).value], s[Find(s, sep).value + |sep|..]]
  {
    if Find(s, sep).Some? {
      SplitNCut(s, sep, 1, Find(s, sep).value);
    }
  }

  /** `s.split(sep, 2)` when `sep` occurs at least twice: the text before, between and after. */
  lemma {:induction false} SplitNTwice(s: string, sep: string, i: nat, j: nat)
    requires sep != [] && Find(s, sep) == Some(i) && Find(s[i + |sep|..], sep) == Some(j)
    ensures SplitN(s, sep, 2) == [s[..i], s[i + |sep|..][..j], s[i + |sep|..][j + |sep|..]]
  {
    var t := s[i + |sep|..];
    SplitNCut(s, sep, 2, i);
    SplitNOnce(t, sep);
  }

  /** `s.split(sep, 2)` has fewer than three parts when `sep` occurs at most once. */
  lemma {:induction false} SplitNTwiceShort(s: string, sep: string)
    requires sep != []
    requires Find(s, sep).Some? ==> Find(s[Find(s, sep).value + |sep|..], sep).None?
    ensures |SplitN(s, sep, 2)| < 3
  {
    if Find(s, sep).Some? {
      var i := Find(s, sep).value;
      SplitNCut(s, sep, 2, i);
      SplitNOnce(s[i + |sep|..], sep);
    }
  }

  /** A string that starts with `sep` splits into at least two pieces, the first of them empty. */
  lemma {:induction false} SplitAfterPrefix(s: string, sep: string)
    requires sep != [] && StartsWith(s, sep)
    ensures |Split(s, sep)| >= 2 && Split(s, sep)[0] == ""
  {
    assert IsAt(s, sep, 0);
    assert Find(s, sep) == Some(0);
    SplitNCut(s, sep, |s|, 0);
  }

  /** Joining the pieces of a split gives back the string. */
  lemma JoinSplitN(s: string, sep: string, maxsplit: nat)
    requires sep != []
    ensures Join(SplitN(s, sep, maxsplit), sep) == s
  {
    Rejoins(s, sep, maxsplit);
  }

  predicate JoinsBack(s: string, sep: string, maxsplit: nat)
    requires sep != []
  {
    Join(SplitN(s, sep, maxsplit), sep) == s
  }

  lemma {:induction false} Rejoins(s: string, sep: string, maxsplit: nat)
    requires sep != []
    ensures JoinsBack(s, sep, maxsplit)
    decreases |s|
  {
    if maxsplit > 0 && Find(s, sep).Some? {
      var i := Find(s, sep).value;
      Rejoins(s[i + |sep|..], sep, maxsplit - 1);
      RejoinsStep(s, sep, maxsplit, i);
    } else {
      assert SplitN(s, sep, maxsplit) == [s];
    }
  }

  lemma {:induction false} RejoinsStep(s: string, sep: string, maxsplit: nat, i: nat)
    requires sep != [] && maxsplit > 0 && Find(s, sep) == Some(i)
    requires JoinsBack(s[i + |sep|..], sep, maxsplit - 1)
    ensures JoinsBack(s, sep, maxsplit)
  {
    SplitNCut(s, sep, maxsplit, i);
    JoinCons(s[..i], SplitN(s[i + |sep|..], sep, maxsplit - 1), sep);
    Around(s, sep, i);
  }

  /** Two limits that never bind give the same split. */
  lemma {:induction false} SplitNUnbounded(s: string, sep: string, m: nat, n: nat)
    requires sep != [] && m >= |s| && n >= |s|
    ensures SplitN(s, sep, m) == SplitN(s, sep, n)
    decreases |s|
  {
    if s == [] {
      assert !IsAt(s, sep, 0);
    } else if Find(s, sep).Some? {
      var i := Find(s, sep).value;
      var rest := s[i + |sep|..];
      assert SplitN(rest, sep, m - 1) == SplitN(rest, sep, n - 1) by {
        SplitNUnbounded(rest, sep, m - 1, n - 1);
      }
      SplitNCut(s, sep, m, i);
      SplitNCut(s, sep, n, i);
    }
  }

  /** No piece of an unlimited split contains the separator. */
  lemma {:induction false} SplitPartsFree(s: string, sep: string, maxsplit: nat)
    requires sep != [] && maxsplit >= |s|
    ensures forall k :: 0 <= k < |SplitN(s, sep, maxsplit)| ==> !Contains(SplitN(s, sep, maxsplit)[k], sep)
    decreases |s|
  {
    if maxsplit > 0 && Find(s, sep).Some? {
      var i := Find(s, sep).value;
      SplitPartsFree(s[i + |sep|..], sep, maxsplit - 1);
      SplitPartsFreeStep(s, sep, maxsplit, i);
    } else if maxsplit == 0 {
      assert SplitN(s, sep, maxsplit) == [[]];
    }
  }

  lemma {:induction false} SplitPartsFreeStep(s: string, sep: string, maxsplit: nat, i: nat)
    requires sep != [] && maxsplit > 0 && Find(s, sep) == Some(i)
    requires var rest := SplitN(s[i + |sep|..], sep, maxsplit - 1);
      forall k :: 0 <= k < |rest| ==> !Contains(rest[k], sep)
    ensures forall k :: 0 <= k < |SplitN(s, sep, maxsplit)| ==> !Contains(SplitN(s, sep, maxsplit)[k], sep)
  {
    var head := s[..i];
    assert !Contains(head, sep) by {
      HeadFree(s, sep, i);
    }
    SplitNCut(s, sep, maxsplit, i);
  }

  /** What precedes the first occurrence does not contain the separator. */
  lemma {:induction false} HeadFree(s: string, sep: string, i: nat)
    requires sep != [] && Find(s, sep) == Some(i)
    ensures !Contains(s[..i], sep)
  {
    var head := s[..i];
    if Contains(head, sep) {
      var j := Find(head, sep).value;
      assert s[j..j + |sep|] == head[j..j + |sep|];
      FindBefore(s, sep, j);
    }
  }

  lemma {:induction false} FindCharFree(head: string, sep: string, tail: string)
    requires |sep| == 1 && sep[0] !in head
    ensures Find(head + sep + tail, sep) == Some(|head|)
  {
    var s := head + sep + tail;
    assert s[|head|..|head| + 1] == sep;
    FindAtMost(s, sep, |head|);
    var v := Find(s, sep).value;
    assert s[v] == s[v..v + 1][0];
    assert !(v < |head|);
  }

  lemma {:induction false} SplitCharFree(s: string, sep: string)
    requires |sep| == 1 && sep[0] !in s
    ensures Split(s, sep) == [s]
  {
  }

  /**
   * Splitting a join at a one-character separator that none of the parts
   * holds gives back the parts.
   */
  lemma {:induction false} SplitJoin(parts: seq<string>, sep: string)
    requires |sep| == 1 && |parts| >= 1
    requires forall k :: 0 <= k < |parts| ==> sep[0] !in parts[k]
    ensures Split(Join(parts, sep), sep) == parts
  {
    if |parts| == 1 {
      SplitCharFree(parts[0], sep);
    } else {
      var tail := Join(parts[1..], sep);
      assert Split(tail, sep) == parts[1..] by {
        SplitJoin(parts[1..], sep);
      }
      assert Join(parts, sep) == parts[0] + sep + tail;
      SplitCons(parts[0], sep, tail, parts[1..]);
      assert parts == [parts[0]] + parts[1..];
    }
  }

  /** A piece free of a one-character separator comes off whole as the first part of a split. */
  lemma {:induction false} SplitCons(head: string, sep: string, tail: string, rest: seq<string>)
    requires |sep| == 1 && sep[0] !in head && Split(tail, sep) == rest
    ensures Split(head + sep + tail, sep) == [head] + rest
  {
    var s := head + sep + tail;
    assert Find(s, sep) == Some(|head|) by {
      FindCharFree(head, sep, tail);
    }
    assert s[..|head|] == head && s[|head| + 1..] == tail;
    assert SplitN(tail, sep, |s| - 1) == rest by {
      SplitNUnbounded(tail, sep, |s| - 1, |tail|);
    }
    SplitNCut(s, sep, |s|, |head|);
  }

  // ---------------------------------------------------------------------------
  // replace and title
  // ---------------------------------------------------------------------------

  /** `s.replace(from, to)` for one-character `from` and `to`. */
  function ReplaceChar(s: string, from: char, to: char): (r: string)
    ensures |r| == |s|
    ensures forall i :: 0 <= i < |s| ==> r[i] == if s[i] == from then to else s[i]
  {
    seq(|s|, i requires 0 <= i < |s| => if s[i] == from then to else s[i])
  }

  /** A letter that has an upper and a lower case (ASCII letters only). */
  predicate IsCased(c: char)
  {
    'a' <= c <= 'z' || 'A' <= c <= 'Z'
  }

  function Upper(c: char): char
  {
    if 'a' <= c <= 'z' then (c as int - 32) as char else c
  }

  function Lower(c: char): char
  {
    if 'A' <= c <= 'Z' then (c as int + 32) as char else c
  }

  /** What `title()` makes of `s[i]`: upper case at the start of a word, lower case inside one. */
  function TitleChar(s: string, i: nat): char
    requires i < |s|
  {
    if !IsCased(s[i]) then s[i]
    else if i > 0 && IsCased(s[i - 1]) then Lower(s[i])
    else Upper(s[i])
  }

  /** `title()` over the rest of a string, given whether the character before it was cased. */
  function TitleFrom(s: string, previousIsCased: bool): string
  {
    if s == [] then []
    else
      var c := s[0];
      var t := if !IsCased(c) then c else if previousIsCased then Lower(c) else Upper(c);
      [t] + TitleFrom(s[1..], IsCased(c))
  }

  /** `s.title()` */
  function Title(s: string): string
  {
    TitleFrom(s, false)
  }

  lemma {:induction false} TitleFromAt(s: string, previousIsCased: bool, i: nat)
    requires i < |s|
    ensures |TitleFrom(s, previousIsCased)| == |s|
    ensures TitleFrom(s, previousIsCased)[i] ==
      if !IsCased(s[i]) then s[i]
      else if (if i == 0 then previousIsCased else IsCased(s[i - 1])) then Lower(s[i])
      else Upper(s[i])
  {
    if i > 0 {
      TitleFromAt(s[1..], IsCased(s[0]), i - 1);
    } else if |s| > 1 {
      TitleFromAt(s[1..], IsCased(s[0]), 0);
    }
  }

  /** Character by character, `title()` upper-cases word starts and lower-cases the rest. */
  lemma {:induction false} TitleAt(s: string)
    ensures |Title(s)| == |s|
    ensures forall i :: 0 <= i < |s| ==> Title(s)[i] == TitleChar(s, i)
  {
    if s != [] {
      TitleFromAt(s, false, 0);
      forall i | 0 <= i < |s| ensures |Title(s)| == |s| && Title(s)[i] == TitleChar(s, i) {
        TitleFromAt(s, false, i);
      }
    }
  }

  // ---------------------------------------------------------------------------
  // str() of an integer
  // ---------------------------------------------------------------------------

  predicate IsDigit(c: char)
  {
    '0' <= c <= '9'
  }

  function DigitChar(d: nat): (c: char)
    requires d < 10
    ensures IsDigit(c) && c as int - '0' as int == d
  {
    ('0' as int + d) as char
  }

  /** `str(n)` for `n >= 0`: decimal digits, no leading zero. */
  function NatToString(n: nat): (r: string)
    ensures r != [] && forall i :: 0 <= i < |r| ==> IsDigit(r[i])
    ensures r[0] == '0' ==> n == 0
  {
    if n < 10 then [DigitChar(n)] else NatToString(n / 10) + [DigitChar(n % 10)]
  }

  /** `str(i)` */
  function IntToString(i: int): string
  {
    if i < 0 then "-" + NatToString(-i) else NatToString(i)
  }

  /** `int(s)` for a string of decimal digits. */
  function ParseNat(s: string): nat
    requires forall i :: 0 <= i < |s| ==> IsDigit(s[i])
  {
    if s == [] then 0
    else
      assert IsDigit(s[|s| - 1]);
      ParseNat(s[..|s| - 1]) * 10 + (s[|s| - 1] as int - '0' as int)
  }

  /** `int(str(n)) == n`: the decimal text of a count determines the count. */
  lemma {:induction false} ParseNatToString(n: nat)
    ensures ParseNat(NatToString(n)) == n
  {
    if n >= 10 {
      var r := NatToString(n);
      ParseNatToString(n / 10);
      assert r[..|r| - 1] == NatToString(n / 10);
    }
  }

  // ---------------------------------------------------------------------------
  // string ordering
  // ---------------------------------------------------------------------------

  /** Python's `a < b` on strings: code point by code point, a proper prefix first. */
  predicate Less(a: string, b: string)
  {
    if a == [] then b != []
    else if b == [] then false
    else if a[0] != b[0] then a[0] < b[0]
    else Less(a[1..], b[1..])
  }

  /** `<` on strings is transitive. */
  lemma {:induction false} LessTransitive(a: string, b: string, c: string)
    requires Less(a, b) && Less(b, c)
    ensures Less(a, c)
  {
    if a != [] && b != [] && c != [] && a[0] == b[0] && b[0] == c[0] {
      LessTransitive(a[1..], b[1..], c[1..]);
    }
  }

  /** `<` on strings is a strict total order: exactly one of `a < b`, `a == b`, `b < a`. */
  lemma {:induction false} LessTrichotomy(a: string, b: string)
    ensures a == b || Less(a, b) || Less(b, a)
    ensures !(Less(a, b) && Less(b, a))
    ensures !Less(a, a)
  {
    if a != [] && b != [] && a[0] == b[0] {
      LessTrichotomy(a[1..], b[1..]);
      if a[1..] == b[1..] {
        assert a == [a[0]] + a[1..] && b == [b[0]] + b[1..];
      }
    }
    if a != [] {
      LessTrichotomy(a[1..], a[1..]);
    }
  }
}
