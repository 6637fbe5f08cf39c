/**
 * The key=value configuration reader `load_config`, which create_kg.py and
 * validate_queries.py define with the same code.  The file is given as the
 * sequence of its lines (each may still end in its line terminator); a file
 * that does not exist is `None`.
 */
module Config {

  import opened Options

  /** Python's `str.isspace`: the characters `str.strip()` removes. */
  predicate IsSpace(c: char)
  {
    || c in {'\t', '\n', '\U{B}', '\U{C}', '\r', '\U{1C}', '\U{1D}', '\U{1E}', '\U{1F}', ' ',
             '\U{85}', '\U{A0}', '\U{1680}', '\U{2028}', '\U{2029}', '\U{202F}', '\U{205F}', '\U{3000}'}
    || ('\U{2000}' <= c <= '\U{200A}')
  }

  /** The number of whitespace characters at the front of `s`. */
  function LeadingSpaces(s: string): (n: nat)
    ensures n <= |s|
    ensures forall i :: 0 <= i < n ==> IsSpace(s[i])
    ensures n < |s| ==> !IsSpace(s[n])
  {
    if s != [] && IsSpace(s[0]) then 1 + LeadingSpaces(s[1..]) else 0
  }

  /** The number of whitespace characters at the end of `s`. */
  function TrailingSpaces(s: string): (n: nat)
    ensures n <= |s|
    ensures forall i :: |s| - n <= i < |s| ==> IsSpace(s[i])
    ensures n < |s| ==> !IsSpace(s[|s| - 1 - n])
  {
    if s != [] && IsSpace(s[|s| - 1]) then 1 + TrailingSpaces(s[..|s| - 1]) else 0
  }

  /** Python's `str.strip()`: `s` without its leading and trailing whitespace. */
  function Strip(s: string): (r: string)
    ensures r == [] || (!IsSpace(r[0]) && !IsSpace(r[|r| - 1]))
    ensures forall i :: 0 <= i < |s| && !IsSpace(s[i]) ==> s[i] in r
  {
    var a := LeadingSpaces(s);
    var t := s[a..];
    var b := TrailingSpaces(t);
    assert forall i :: 0 <= i < |s| && !IsSpace(s[i]) ==> a <= i && i - a < |t| - b && s[i] == t[..|t| - b][i - a];
    t[..|t| - b]
  }

  /** The position of the first '=' in `s`. */
  function FirstEquals(s: string): (k: nat)
    requires '=' in s
    ensures k < |s| && s[k] == '=' && '=' !in s[..k]
  {
    if s[0] == '=' then 0 else 1 + FirstEquals(s[1..])
  }

  /**
   * What one line contributes: nothing when it holds no '=', otherwise the
   * stripped line split at its first '=' (Python's `split('=', 1)`).
   */
  function ParseLine(line: string): (r: Option<(string, string)>)
    ensures r.Some? <==> '=' in line
    ensures r.Some? ==> '=' !in r.value.0 && Strip(line) == r.value.0 + "=" + r.value.1
  {
    if '=' in line then
      var t := Strip(line);
      assert '=' in t by {
        var i :| 0 <= i < |line| && line[i] == '=';
        assert !IsSpace(line[i]);
      }
      var k := FirstEquals(t);
      assert t == t[..k] + "=" + t[k + 1..];
      Some((t[..k], t[k + 1..]))
    else
      None
  }

  /** The dictionary after reading `lines` in order: a later key replaces an earlier one. */
  function ConfigOf(lines: seq<string>): (config: map<string, string>)
    ensures forall k :: k in config ==> '=' !in k
  {
    if lines == [] then map[] else Step(ConfigOf(lines[..|lines| - 1]), lines[|lines| - 1])
  }

  /** The dictionary `m` after the loop body has run on `line` (`config[key] = value`). */
  function Step(m: map<string, string>, line: string): map<string, string>
  {
    match ParseLine(line)
    case None => m
    case Some((k, v)) => m[k := v]
  }

  /** Reading one more line is one more `Step`. */
  lemma ConfigSnoc(lines: seq<string>, line: string)
    ensures ConfigOf(lines + [line]) == Step(ConfigOf(lines), line)
  {
    assert (lines + [line])[..|lines|] == lines;
  }

  /** Line `line` assigns key `k`. */
  predicate Assigns(line: string, k: string)
  {
    ParseLine(line).Some? && ParseLine(line).value.0 == k
  }

  /** `load_config`: `None` when the file does not exist, else the dictionary its lines build. */
  method LoadConfig(file: Option<seq<string>>) returns (config: Option<map<string, string>>)
    ensures file.None? ==> config.None?
    ensures file.Some? ==> config == Some(ConfigOf(file.value))
  {
    if file.None? {
      return None;
    }
    var lines := file.value;
    var m: map<string, string> := map[];
    for i := 0 to |lines|
      invariant m == ConfigOf(lines[..i])
    {
      assert lines[..i + 1][..i] == lines[..i];
      match ParseLine(lines[i])
      case None =>
      case Some((key, value)) =>
        m := m[key := value];
    }
    assert lines[..|lines|] == lines;
    return Some(m);
  }

  /** A key is in the dictionary exactly when some line assigns it. */
  lemma {:induction false} ConfigKeys(lines: seq<string>, k: string)
    ensures k in ConfigOf(lines) <==> exists i :: 0 <= i < |lines| && Assigns(lines[i], k)
  {
    if lines != [] {
      var init, last := lines[..|lines| - 1], lines[|lines| - 1];
      assert lines == init + [last];
      ConfigKeys(init, k);
      ConfigSnoc(init, last);
      if k in ConfigOf(lines) {
        if Assigns(last, k) {
          assert Assigns(lines[|lines| - 1], k);
        } else {
          var i :| 0 <= i < |init| && Assigns(init[i], k);
          assert lines[i] == init[i];
        }
      }
      if i :| 0 <= i < |lines| && Assigns(lines[i], k) {
        if i < |init| {
          assert init[i] == lines[i];
        }
      }
    }
  }

  /** The value of a key is the one given by the last line that assigns it. */
  lemma {:induction false} ConfigLastWins(lines: seq<string>, i: nat)
    requires i < |lines| && ParseLine(lines[i]).Some?
    requires forall j :: i < j < |lines| ==> !Assigns(lines[j], ParseLine(lines[i]).value.0)
    ensures ParseLine(lines[i]).value.0 in ConfigOf(lines)
    ensures ConfigOf(lines)[ParseLine(lines[i]).value.0] == ParseLine(lines[i]).value.1
  {
    var init := lines[..|lines| - 1];
    if i < |init| {
      assert init[i] == lines[i];
      ConfigLastWins(init, i);
    }
  }

  /** A line without '=' can be dropped without changing the dictionary. */
  lemma {:induction false} ConfigIgnoresLinesWithoutEquals(before: seq<string>, line: string, after: seq<string>)
    requires '=' !in line
    ensures ConfigOf(before + [line] + after) == ConfigOf(before + after)
  {
    if after == [] {
      assert before + [line] + after == before + [line];
      assert before + after == before;
      ConfigSnoc(before, line);
    } else {
      var init := after[..|after| - 1];
      var last := after[|after| - 1];
      ConfigIgnoresLinesWithoutEquals(before, line, init);
      assert before + [line] + after == (before + [line] + init) + [last];
      assert before + after == (before + init) + [last];
      ConfigSnoc(before + [line] + init, last);
      ConfigSnoc(before + init, last);
    }
  }
}
