/** The bot's configuration: the `.env` file parser and the fallbacks that
    pick the channel. Reading the file and the process environment is
    outside the model; both arrive as values. */
module Config {
  import opened Wrappers
  import opened Text

  /** The bot's own account name. */
  const BotUsername: string := "Corujita"

  /** The channel used when neither `.env` nor the environment names one. */
  const DefaultChannel: string := "fantonlord"

  /** The value is wrapped in one pair of the same quote character. */
  predicate Quoted(value: string) {
    |value| >= 1
    && ((value[0] == '"' && value[|value| - 1] == '"')
        || (value[0] == '\'' && value[|value| - 1] == '\''))
  }

  /** The quote handling of `loadEnvFile`: the first and last characters are dropped when both
      ends carry the same quote character. A lone quote character becomes the
      empty string. */
  function Unquote(value: string): (r: string)
    ensures !Quoted(value) ==> r == value
    ensures Quoted(value) && |value| >= 2 ==> value == [value[0]] + r + [value[0]]
    ensures Quoted(value) && |value| == 1 ==> r == ""
  {
    if Quoted(value) then
      if |value| >= 2 then value[1..|value| - 1] else ""
    else value
  }

  /** One line of `loadEnvFile`: the line is trimmed first. */
  function ParseLine(line: string): Option<(string, string)> {
    ParseTrimmed(Trim(line))
  }

  /** A trimmed line that is empty or opens with `#`: a blank or comment line. */
  predicate BlankOrComment(trimmed: string) {
    trimmed == "" || StartsWith(trimmed, "#")
  }

  /** The rest of the loop body on the trimmed line. */
  function ParseTrimmed(trimmed: string): Option<(string, string)> {
    if BlankOrComment(trimmed) || CharIndex(trimmed, '=') == |trimmed| then None
    else Some(SplitAt(trimmed, CharIndex(trimmed, '=')))
  }

  /** The key and value around the `=` at `equalIndex`. */
  function SplitAt(trimmed: string, equalIndex: nat): (string, string)
    requires equalIndex < |trimmed|
  {
    (Trim(trimmed[..equalIndex]), Unquote(Trim(trimmed[equalIndex + 1..])))
  }

  /** What a trimmed line gives: nothing for a blank line, a comment line or
      a line without `=`; otherwise the key is the trimmed text before the
      first `=` and the value the trimmed, unquoted text after it. */
  lemma ParseTrimmedMeaning(trimmed: string)
    ensures var r := ParseTrimmed(trimmed);
      (r.None? <==> trimmed == "" || trimmed[0] == '#' || '=' !in trimmed)
      && (r.Some? ==>
            exists equalIndex :: 0 <= equalIndex < |trimmed|
              && trimmed[equalIndex] == '=' && '=' !in trimmed[..equalIndex]
              && r.value.0 == Trim(trimmed[..equalIndex])
              && r.value.1 == Unquote(Trim(trimmed[equalIndex + 1..])))
  {
    StartsWithChar(trimmed, '#');
    var equalIndex := CharIndex(trimmed, '=');
    if equalIndex == |trimmed| {
      assert trimmed[..equalIndex] == trimmed;
    }
  }

  /** `s.startsWith(c)` for a one-character `c`. */
  lemma StartsWithChar(s: string, c: char)
    ensures StartsWith(s, [c]) <==> s != [] && s[0] == c
  {
    if s != [] && s[0] == c {
      assert s[..1] == [c];
    }
  }

  /** The one key a plain JavaScript object does not store: assigning to it
      sets the object's prototype, which ignores a string value. */
  const ProtoKey: string := "__proto__"

  /** The `env` record after writing one parsed line into it. */
  function Write(env: map<string, string>, entry: Option<(string, string)>): map<string, string> {
    match entry
    case None => env
    case Some((key, value)) => if key == ProtoKey then env else env[key := value]
  }

  /** The `env` record built from a sequence of parsed lines, in order: each
      entry writes its key, later writes overwriting earlier ones. */
  function Collect(entries: seq<Option<(string, string)>>): map<string, string>
    decreases |entries|
  {
    if entries == [] then map[]
    else Write(Collect(entries[..|entries| - 1]), entries[|entries| - 1])
  }

  /** Each line parsed on its own. */
  function ParsedLines(lines: seq<string>): (entries: seq<Option<(string, string)>>)
    ensures |entries| == |lines|
  {
    seq(|lines|, i requires 0 <= i < |lines| => ParseLine(lines[i]))
  }

  /** The `env` record after the loop has processed `lines`, in order. */
  function ParseLines(lines: seq<string>): map<string, string> {
    Collect(ParsedLines(lines))
  }

  /** What `loadEnvFile` returns: an empty record when there is no `.env`
      file, otherwise the lines of its content, split on `\n` only. */
  function EnvOf(file: Option<string>): map<string, string> {
    match file
    case None => map[]
    case Some(content) => ParseLines(SplitOn(content, '\n'))
  }

  /** One more line processed by the loop. */
  lemma ParseLinesSnoc(lines: seq<string>, i: int)
    requires 0 <= i < |lines|
    ensures ParseLines(lines[..i + 1]) == Write(ParseLines(lines[..i]), ParseLine(lines[i]))
  {
    var e := ParsedLines(lines[..i + 1]);
    assert e[..i] == ParsedLines(lines[..i]);
    assert e[i] == ParseLine(lines[i]);
  }

  /** `loadEnvFile()`, given the content of `.env` when the file exists:
      the content is split into lines, then the lines are read in order. */
  method LoadEnvFile(file: Option<string>) returns (env: map<string, string>)
    ensures env == EnvOf(file)
  {
    env := map[];
    if file.Some? {
      var lines := SplitOn(file.value, '\n');
      env := LoadLines(lines);
    }
  }

  /** The loop of `loadEnvFile` over the lines: each line that has an `=` stores its
      value under its key (except `__proto__`); blank and comment lines are
      skipped. */
  method LoadLines(lines: seq<string>) returns (env: map<string, string>)
    ensures env == ParseLines(lines)
  {
    env := map[];
    var i := 0;
    while i < |lines|
      invariant 0 <= i <= |lines|
      invariant env == ParseLines(lines[..i])
    {
      var entry := ParseEntry(lines[i]);
      ParseLinesSnoc(lines, i);
      if entry.Some? && entry.value.0 != ProtoKey {
        env := env[entry.value.0 := entry.value.1];
      }
      i := i + 1;
    }
    assert lines[..|lines|] == lines;
  }

  /** A trimmed line that is neither blank nor a comment and has its first
      `=` at `equalIndex` gives the pair around that `=`. */
  lemma ParsedEntry(trimmed: string, equalIndex: nat)
    requires !BlankOrComment(trimmed) && equalIndex < |trimmed|
    requires equalIndex == CharIndex(trimmed, '=')
    ensures ParseTrimmed(trimmed) == Some((Trim(trimmed[..equalIndex]), Unquote(Trim(trimmed[equalIndex + 1..]))))
  {
  }

  /** The body of the loop for one line: the line is trimmed; a blank line,
      a comment line or a line without `=` is skipped (`continue`); otherwise
      the key is the trimmed text before the first `=` and the value the
      trimmed, unquoted text after it. */
  method ParseEntry(line: string) returns (entry: Option<(string, string)>)
    ensures entry == ParseLine(line)
  {
    entry := None;
    var trimmed := Trim(line);
    if !BlankOrComment(trimmed) {
      var equalIndex := CharIndex(trimmed, '=');
      if equalIndex != |trimmed| {
        var key := Trim(trimmed[..equalIndex]);
        var value := Trim(trimmed[equalIndex + 1..]);
        value := Unquote(value);
        entry := Some((key, value));
        ParsedEntry(trimmed, equalIndex);
      }
    }
  }

  /** Every key of the record comes from some entry that sets it. */
  lemma {:induction false} CollectKeys(entries: seq<Option<(string, string)>>, key: string)
    requires key in Collect(entries)
    ensures key != ProtoKey
    ensures exists i :: 0 <= i < |entries| && entries[i].Some? && entries[i].value.0 == key
    decreases |entries|
  {
    var init := entries[..|entries| - 1];
    var last := entries[|entries| - 1];
    if !(last.Some? && last.value.0 == key && key != ProtoKey) {
      CollectKeys(init, key);
      var i :| 0 <= i < |init| && init[i].Some? && init[i].value.0 == key;
      assert entries[i] == init[i];
    }
  }

  /** The last entry that sets a key decides its value. */
  lemma {:induction false} CollectLastWins(entries: seq<Option<(string, string)>>, i: int, key: string, value: string)
    requires 0 <= i < |entries| && entries[i] == Some((key, value)) && key != ProtoKey
    requires forall j :: i < j < |entries| ==> entries[j].None? || entries[j].value.0 != key
    ensures key in Collect(entries) && Collect(entries)[key] == value
    decreases |entries|
  {
    var init := entries[..|entries| - 1];
    if i < |entries| - 1 {
      assert init[i] == entries[i];
      assert forall j :: i < j < |init| ==> init[j] == entries[j];
      CollectLastWins(init, i, key, value);
    }
  }

  /** Every key of the result comes from some line that parses to it, and
      `__proto__` is never a key. */
  lemma KeysFromLines(lines: seq<string>, key: string)
    requires key in ParseLines(lines)
    ensures key != ProtoKey
    ensures exists i :: 0 <= i < |lines| && ParseLine(lines[i]).Some? && ParseLine(lines[i]).value.0 == key
  {
    var entries := ParsedLines(lines);
    CollectKeys(entries, key);
    var i :| 0 <= i < |entries| && entries[i].Some? && entries[i].value.0 == key;
    assert entries[i] == ParseLine(lines[i]);
  }

  /** A later line with the same key overwrites an earlier one: the value a
      key other than `__proto__` ends up with is the one on the last line
      that sets it. */
  lemma LastLineWins(lines: seq<string>, i: int, key: string, value: string)
    requires 0 <= i < |lines| && ParseLine(lines[i]) == Some((key, value)) && key != ProtoKey
    requires forall j :: i < j < |lines| ==> ParseLine(lines[j]).None? || ParseLine(lines[j]).value.0 != key
    ensures key in ParseLines(lines) && ParseLines(lines)[key] == value
  {
    var entries := ParsedLines(lines);
    forall j | i < j < |entries|
      ensures entries[j].None? || entries[j].value.0 != key
    {
      assert entries[j] == ParseLine(lines[j]);
    }
    assert entries[i] == ParseLine(lines[i]);
    CollectLastWins(entries, i, key, value);
  }

  /** Lines that give no entry add nothing: blank lines, comments and lines
      without `=` can be removed without changing the result. */
  lemma IgnoredLine(lines: seq<string>, line: string)
    requires ParseLine(line).None?
    ensures ParseLines(lines + [line]) == ParseLines(lines)
  {
    var all := lines + [line];
    ParseLinesSnoc(all, |lines|);
    assert all[..|lines| + 1] == all && all[..|lines|] == lines;
  }

  /** A `\r` before the line break, as in a file with CRLF endings, changes
      nothing. */
  lemma CarriageReturnIgnored(line: string)
    ensures ParseLine(line + "\r") == ParseLine(line)
  {
    TrimDropsTrailingWhite(line, '\r');
  }

  /** The inverse of parsing one line: writing `KEY=value` with a key that
      is trimmed, non-empty, free of `=` and not a comment, and a value that
      is trimmed and not quoted, reads back as that pair. */
  lemma FormatParse(key: string, value: string)
    requires key != [] && key[0] != '#' && '=' !in key && Trim(key) == key
    requires Trim(value) == value && !Quoted(value)
    ensures ParseLine(key + "=" + value) == Some((key, value))
  {
    var line := key + "=" + value;
    assert line[0] == key[0] && line[|line| - 1] == if value == [] then '=' else value[|value| - 1];
    TrimmedEnds(line);
    FormatParseTrimmed(key, value);
  }

  /** The same on the already trimmed line. */
  lemma FormatParseTrimmed(key: string, value: string)
    requires key != [] && key[0] != '#' && '=' !in key && Trim(key) == key
    requires Trim(value) == value && !Quoted(value)
    ensures ParseTrimmed(key + "=" + value) == Some((key, value))
  {
    var line := key + "=" + value;
    StartsWithChar(line, '#');
    CharIndexAfter(key, "=" + value, '=');
    assert key + ("=" + value) == line;
    assert line[..|key|] == key;
    assert line[|key| + 1..] == value;
  }

  /** The first `c` of `a + b` is that of `b`, shifted, when `a` has none
      and `b` starts with it. */
  lemma {:induction false} CharIndexAfter(a: string, b: string, c: char)
    requires c !in a && b != [] && b[0] == c
    ensures CharIndex(a + b, c) == |a|
    decreases |a|
  {
    if a != [] {
      assert (a + b)[1..] == a[1..] + b;
      CharIndexAfter(a[1..], b, c);
    } else {
      assert a + b == b;
    }
  }

  /** The `||` chain for a setting: the `.env` value, else the process
      environment's, else the default; a missing or empty value falls
      through. */
  function Setting(env: map<string, string>, processEnv: map<string, string>, name: string, default: string): (r: string)
    ensures name in env && env[name] != "" ==> r == env[name]
    ensures (name !in env || env[name] == "") && name in processEnv && processEnv[name] != "" ==> r == processEnv[name]
    ensures (name !in env || env[name] == "") && (name !in processEnv || processEnv[name] == "") ==> r == default
  {
    if name in env && env[name] != "" then env[name]
    else if name in processEnv && processEnv[name] != "" then processEnv[name]
    else default
  }

  /** `config.channel`: never empty. */
  function Channel(env: map<string, string>, processEnv: map<string, string>): (r: string)
    ensures r != ""
    ensures ("CHANNEL" in env && r == env["CHANNEL"]) || ("CHANNEL" in processEnv && r == processEnv["CHANNEL"]) || r == DefaultChannel
  {
    Setting(env, processEnv, "CHANNEL", DefaultChannel)
  }

  /** `rawToken`: the `.env` token, else the environment's, else the
      built-in fallback token, which is passed in as `fallback`. With a
      non-empty fallback the token is never empty, so the missing-token exit
      cannot happen. */
  function OauthToken(env: map<string, string>, processEnv: map<string, string>, fallback: string): (r: string)
    ensures fallback != "" ==> r != ""
    ensures ("OAUTH_TOKEN" in env && r == env["OAUTH_TOKEN"]) || ("OAUTH_TOKEN" in processEnv && r == processEnv["OAUTH_TOKEN"]) || r == fallback
  {
    Setting(env, processEnv, "OAUTH_TOKEN", fallback)
  }
}
