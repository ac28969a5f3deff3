/**
 * The `.env` loader: `KEY=VALUE` lines read into a dictionary, and the
 * lookups that prefer the process environment over the file. The file is
 * given as its lines (`None` when it does not exist) and the process
 * environment as the value `os.getenv` returns.
 */
module EnvLoader {
  import opened Wrappers

  /** The characters `str.strip()` removes: those for which `str.isspace()` holds. */
  const Whitespace: set<char> := {
    '\t', '\n', '\U{0B}', '\U{0C}', '\r', '\U{1C}', '\U{1D}', '\U{1E}', '\U{1F}', ' ', '\U{85}', '\U{A0}',
    '\U{1680}', '\U{2000}', '\U{2001}', '\U{2002}', '\U{2003}', '\U{2004}', '\U{2005}', '\U{2006}',
    '\U{2007}', '\U{2008}', '\U{2009}', '\U{200A}', '\U{2028}', '\U{2029}', '\U{202F}', '\U{205F}', '\U{3000}'}

  /** The characters the value is stripped of after trimming: both quote marks. */
  const Quotes: set<char> := {'"', '\''}

  /** How many leading characters of `s` are in `cs`. */
  function LeadCount(s: string, cs: set<char>): (n: nat)
    ensures n <= |s|
    ensures forall k :: 0 <= k < n ==> s[k] in cs
    ensures n < |s| ==> s[n] !in cs
    decreases |s|
  {
    if |s| > 0 && s[0] in cs then 1 + LeadCount(s[1..], cs) else 0
  }

  /** How many trailing characters of `s` are in `cs`. */
  function TrailCount(s: string, cs: set<char>): (n: nat)
    ensures n <= |s|
    ensures forall k :: |s| - n <= k < |s| ==> s[k] in cs
    ensures n < |s| ==> s[|s| - n - 1] !in cs
    decreases |s|
  {
    if |s| > 0 && s[|s| - 1] in cs then 1 + TrailCount(s[..|s| - 1], cs) else 0
  }

  /**
   * `s.strip(chars)`: the longest run of `s` that neither starts nor ends
   * with a character of `cs`; everything removed from either end is in `cs`.
   */
  function Strip(s: string, cs: set<char>): (r: string)
    ensures |r| > 0 ==> r[0] !in cs && r[|r| - 1] !in cs
    ensures LeadCount(s, cs) + |r| <= |s| && r == s[LeadCount(s, cs)..LeadCount(s, cs) + |r|]
    ensures forall k :: LeadCount(s, cs) + |r| <= k < |s| ==> s[k] in cs
  {
    var lead := LeadCount(s, cs);
    if lead == |s| then
      assert s[0..0] == [];
      []
    else
      var trail := TrailCount(s, cs);
      s[lead..|s| - trail]
  }

  /** Stripping twice removes nothing more. */
  lemma StripIdempotent(s: string, cs: set<char>)
    ensures Strip(Strip(s, cs), cs) == Strip(s, cs)
  {
    var r := Strip(s, cs);
    if |r| > 0 {
      assert LeadCount(r, cs) == 0;
      assert TrailCount(r, cs) == 0;
    }
  }

  /** `s.strip()`. */
  function Trim(s: string): string
  {
    Strip(s, Whitespace)
  }

  /** The index of the first `c` in `s`, as `split(c, 1)` finds it. */
  function FindFirst(s: string, c: char): (r: Option<nat>)
    ensures r.None? <==> c !in s
    ensures r.Some? ==> r.value < |s| && s[r.value] == c && c !in s[..r.value]
    decreases |s|
  {
    if |s| == 0 then None
    else if s[0] == c then
      assert s[..0] == [];
      Some(0)
    else
      match FindFirst(s[1..], c)
      case None =>
        assert s == [s[0]] + s[1..];
        None
      case Some(i) =>
        assert s[..i + 1] == [s[0]] + s[1..][..i];
        Some(i + 1)
  }

  /**
   * One line of the file: nothing for a blank line, a comment or a line
   * without `=`; otherwise the trimmed text before the first `=` as the key
   * and the trimmed, quote-stripped text after it as the value.
   */
  function ParseLine(line: string): Option<(string, string)>
  {
    var text := Trim(line);
    if |text| == 0 || text[0] == '#' then None
    else
      match FindFirst(text, '=')
      case None => None
      case Some(eq) =>
        var key := Trim(text[..eq]);
        Some((key, Strip(Trim(text[eq + 1..]), Quotes)))
  }

  /** A line is skipped exactly when, once trimmed, it is blank, a comment or has no `=`. */
  lemma ParseLineSkips(line: string)
    ensures ParseLine(line).None? <==> |Trim(line)| == 0 || Trim(line)[0] == '#' || '=' !in Trim(line)
  {
  }

  /** A loaded key holds no `=` and does not start or end with whitespace. */
  lemma ParseLineKey(line: string)
    requires ParseLine(line).Some?
    ensures '=' !in ParseLine(line).value.0
    ensures |ParseLine(line).value.0| > 0 ==>
              ParseLine(line).value.0[0] !in Whitespace && ParseLine(line).value.0[|ParseLine(line).value.0| - 1] !in Whitespace
  {
    var text := Trim(line);
    var eq := FindFirst(text, '=').value;
    StripKeepsOut(text[..eq], Whitespace, '=');
  }

  /** A loaded value does not start or end with a quote mark. */
  lemma ParseLineValue(line: string)
    requires ParseLine(line).Some?
    ensures |ParseLine(line).value.1| > 0 ==>
              ParseLine(line).value.1[0] !in Quotes && ParseLine(line).value.1[|ParseLine(line).value.1| - 1] !in Quotes
  {
  }

  /** Stripping adds no character. */
  lemma StripKeepsOut(s: string, cs: set<char>, c: char)
    requires c !in s
    ensures c !in Strip(s, cs)
  {
  }

  /** Splitting happens at the first `=`: the key holds no `=`, and the value is what follows it, trimmed and unquoted. */
  lemma ParseLineSplit(line: string, before: string, after: string)
    requires Trim(line) == before + "=" + after && '=' !in before && |before| > 0 && before[0] != '#'
    ensures ParseLine(line) == Some((Trim(before), Strip(Trim(after), Quotes)))
  {
    var text := Trim(line);
    assert text[..|before|] == before;
    assert text[|before| + 1..] == after;
    FindFirstAt(text, '=', |before|);
  }

  /** The first occurrence is the one with none before it. */
  lemma FindFirstAt(s: string, c: char, i: nat)
    requires i < |s| && s[i] == c && c !in s[..i]
    ensures FindFirst(s, c) == Some(i)
  {
  }

  /** The dictionary `load_env` builds from the lines read so far: a later line for a key overwrites an earlier one. */
  function EnvOf(lines: seq<string>): map<string, string>
    decreases |lines|
  {
    if |lines| == 0 then map[]
    else
      var prev := EnvOf(lines[..|lines| - 1]);
      match ParseLine(lines[|lines| - 1])
      case None => prev
      case Some((key, value)) => prev[key := value]
  }

  /** `load_env`: the dictionary of the file's lines, empty when the file does not exist. */
  method LoadEnv(file: Option<seq<string>>) returns (env: map<string, string>)
    ensures file.None? ==> env == map[]
    ensures file.Some? ==> env == EnvOf(file.value)
  {
    env := map[];
    if file.None? {
      return;
    }
    var lines := file.value;
    for i := 0 to |lines|
      invariant env == EnvOf(lines[..i])
    {
      assert lines[..i + 1][..i] == lines[..i];
      var parsed := ParseLine(lines[i]);
      if parsed.None? {
        continue;
      }
      var (key, value) := parsed.value;
      env := env[key := value];
    }
    assert lines[..|lines|] == lines;
  }

  /** A key is loaded only from a line that parses to it. */
  lemma {:induction false} EnvOfFrom(lines: seq<string>, key: string)
    requires key in EnvOf(lines)
    ensures exists i :: 0 <= i < |lines| && ParseLine(lines[i]).Some? && ParseLine(lines[i]).value.0 == key
    decreases |lines|
  {
    var init := lines[..|lines| - 1];
    var last := ParseLine(lines[|lines| - 1]);
    if !(last.Some? && last.value.0 == key) {
      EnvOfFrom(init, key);
      var i :| 0 <= i < |init| && ParseLine(init[i]).Some? && ParseLine(init[i]).value.0 == key;
      assert lines[i] == init[i];
    }
  }

  /** The value loaded for a key is the one on the last line that names it. */
  lemma {:induction false} EnvOfLast(lines: seq<string>, i: nat, key: string, value: string)
    requires i < |lines| && ParseLine(lines[i]) == Some((key, value))
    requires forall j :: i < j < |lines| ==> ParseLine(lines[j]).None? || ParseLine(lines[j]).value.0 != key
    ensures key in EnvOf(lines) && EnvOf(lines)[key] == value
    decreases |lines|
  {
    if i < |lines| - 1 {
      var init := lines[..|lines| - 1];
      assert init[i] == lines[i];
      EnvOfLast(init, i, key, value);
      var last := ParseLine(lines[|lines| - 1]);
      assert last.None? || last.value.0 != key;
    }
  }

  /**
   * `get_env`: a value set in the process environment wins, even an empty
   * one; then the file's value; then the default.
   */
  function GetEnv(key: string, default: Option<string>, osValue: Option<string>, file: Option<seq<string>>): (r: Option<string>)
    ensures osValue.Some? ==> r == osValue
    ensures osValue.None? && file.Some? && key in EnvOf(file.value) ==> r == Some(EnvOf(file.value)[key])
    ensures osValue.None? && (file.None? || key !in EnvOf(file.value)) ==> r == default
  {
    if osValue.Some? then osValue
    else
      var env := if file.Some? then EnvOf(file.value) else map[];
      if key in env then Some(env[key]) else default
  }

  /**
   * `get_tushare_token`: the process environment's `TUSHARE_TOKEN` only when
   * it is non-empty, otherwise the file's value, otherwise nothing.
   */
  function GetTushareToken(osValue: Option<string>, file: Option<seq<string>>): (r: Option<string>)
    ensures osValue.Some? && |osValue.value| > 0 ==> r == osValue
    ensures (osValue.None? || |osValue.value| == 0) && file.Some? && "TUSHARE_TOKEN" in EnvOf(file.value) ==>
      r == Some(EnvOf(file.value)["TUSHARE_TOKEN"])
    ensures (osValue.None? || |osValue.value| == 0) && (file.None? || "TUSHARE_TOKEN" !in EnvOf(file.value)) ==>
      r.None?
  {
    if osValue.Some? && |osValue.value| > 0 then osValue
    else
      var env := if file.Some? then EnvOf(file.value) else map[];
      if "TUSHARE_TOKEN" in env then Some(env["TUSHARE_TOKEN"]) else None
  }

  /**
   * The token lookup is `get_env('TUSHARE_TOKEN')` except for an empty
   * environment value, which `get_env` returns and the token lookup skips.
   */
  lemma TokenIsGetEnv(osValue: Option<string>, file: Option<seq<string>>)
    ensures osValue != Some("") ==> GetTushareToken(osValue, file) == GetEnv("TUSHARE_TOKEN", None, osValue, file)
    ensures osValue == Some("") ==> (GetEnv("TUSHARE_TOKEN", None, osValue, file) == Some("")
                                     && GetTushareToken(osValue, file) == GetTushareToken(None, file))
  {
  }
}
