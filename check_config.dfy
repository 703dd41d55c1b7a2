/**
 * The configuration checker run before starting the application: it reads
 * the `.env` file line by line into a dictionary of variables, then reports
 * for each of the three required variables whether it holds a real value
 * (not empty, not one of the placeholders the example file ships with), and
 * exits with status 0 only when all three do.
 *
 * Reading the file is a parameter: whether it exists, and its text.
 */
module CheckConfig {
  import opened Text
  import opened Model

  /** One `KEY=value` assignment. */
  datatype Entry = Entry(key: string, value: string)

  /**
   * What one line of the file contributes: nothing for a blank line or a
   * `#` comment; otherwise the trimmed text before the first `=` as the key
   * and everything after it, re-joined on `=` and trimmed, as the value. A
   * line without `=`, or one that starts with `=`, contributes nothing.
   */
  function LineEntry(line: string): Option<Entry> {
    var trimmed := Trim(line);
    if trimmed == [] || IsPrefix("#", trimmed) then None
    else
      var parts := Split(trimmed, '=');
      if parts[0] != [] && |parts| > 1 then Some(Entry(Trim(parts[0]), Trim(Join(parts[1..], '='))))
      else None
  }

  /** The dictionary after the given lines, applied in order: a later line overwrites. */
  function Parsed(lines: seq<string>): map<string, string> {
    if lines == [] then map[]
    else
      var before := Parsed(lines[..|lines| - 1]);
      match LineEntry(lines[|lines| - 1])
      case Some(e) => before[e.key := e.value]
      case None => before
  }

  /** The forEach over the lines of the file, writing into `envVars`. */
  method ParseEnv(content: string) returns (envVars: map<string, string>)
    ensures envVars == Parsed(Split(content, '\n'))
  {
    var lines := Split(content, '\n');
    envVars := map[];
    var i := 0;
    while i < |lines|
      invariant 0 <= i <= |lines|
      invariant envVars == Parsed(lines[..i])
    {
      var trimmed := Trim(lines[i]);
      if trimmed != [] && !IsPrefix("#", trimmed) {
        var parts := Split(trimmed, '=');
        var key := parts[0];
        var valueParts := parts[1..];
        if key != [] && |valueParts| > 0 {
          envVars := envVars[Trim(key) := Trim(Join(valueParts, '='))];
        }
      }
      assert lines[..i + 1][..i] == lines[..i];
      i := i + 1;
    }
    assert lines[..|lines|] == lines;
  }

  // ------------------------------------------------------------ what a line means

  /**
   * A non-comment line is an assignment exactly when its trimmed text has an
   * `=` after at least one character; the key is the text before the first
   * `=` and the value all the text after it, so a value may itself hold `=`.
   */
  lemma EntryOfLine(line: string)
    ensures var t := Trim(line);
      (t == [] || IsPrefix("#", t) || '=' !in t || t[0] == '=') <==> LineEntry(line) == None
    ensures var t := Trim(line);
      !IsPrefix("#", t) && '=' in t && t[0] != '=' ==>
        var i := IndexOf(t, '=');
        LineEntry(line) == Some(Entry(Trim(t[..i]), Trim(t[i + 1..])))
  {
    var t := Trim(line);
    if t != [] {
      var parts := Split(t, '=');
      if '=' in t {
        var i := IndexOf(t, '=');
        SplitAtFirst(t, '=');
        SplitTailJoin(t, '=');
        assert |parts| > 1;
        assert parts[0] == [] <==> t[0] == '=' by {
          if i > 0 { assert parts[0][0] == t[0]; }
        }
      } else {
        SplitNoSep(t, '=');
      }
    }
  }

  /** Blank lines and comments leave the dictionary as it was. */
  lemma IgnoredLine(lines: seq<string>, line: string)
    requires Trim(line) == [] || IsPrefix("#", Trim(line))
    ensures Parsed(lines + [line]) == Parsed(lines)
  {
    assert (lines + [line])[..|lines|] == lines;
  }

  /** The line sets the key `key`. */
  predicate Defines(line: string, key: string) {
    LineEntry(line).Some? && LineEntry(line).value.key == key
  }

  /** The index of the last line that sets `key`, or -1 when none does. */
  function LastDefining(lines: seq<string>, key: string): (j: int)
    ensures -1 <= j < |lines|
    ensures j >= 0 ==> Defines(lines[j], key)
    ensures forall k :: j < k < |lines| ==> !Defines(lines[k], key)
  {
    if lines == [] then -1
    else if Defines(lines[|lines| - 1], key) then |lines| - 1
    else
      var init := lines[..|lines| - 1];
      var j := LastDefining(init, key);
      assert forall k :: j < k < |init| ==> init[k] == lines[k];
      j
  }

  /**
   * A key is in the dictionary exactly when some line sets it, and its value
   * is the one given by the last line that does.
   */
  lemma {:induction false} LastDefinitionWins(lines: seq<string>, key: string)
    ensures var j := LastDefining(lines, key);
      (key in Parsed(lines) <==> j >= 0) &&
      (j >= 0 ==> Parsed(lines)[key] == LineEntry(lines[j]).value.value)
  {
    if lines != [] && !Defines(lines[|lines| - 1], key) {
      var init := lines[..|lines| - 1];
      LastDefinitionWins(init, key);
      var j := LastDefining(init, key);
      if j >= 0 {
        assert lines[j] == init[j];
      }
    }
  }

  // ------------------------------------------------------------ the check

  /** The variables the application cannot start without. */
  const RequiredVars: seq<string> := ["VITE_SUPABASE_URL", "VITE_SUPABASE_ANON_KEY", "VITE_GEMINI_API_KEY"]

  /** The values the example file ships with. */
  const Placeholders: seq<string> := ["your_supabase_url", "your_supabase_anon_key", "your_gemini_api_key"]

  /**
   * `value && value !== 'your_supabase_url' && ...`: present, non-empty and not
   * a placeholder, whichever variable the placeholder was meant for.
   */
  predicate IsConfigured(value: Option<string>) {
    value.Some? && value.value != [] && value.value !in Placeholders
  }

  function Lookup(vars: map<string, string>, key: string): (v: Option<string>)
    ensures v.Some? <==> key in vars
    ensures v.Some? ==> v.value == vars[key]
  {
    if key in vars then Some(vars[key]) else None
  }

  /** The value as shown to confirm it: at most 20 characters, then `...` when cut. */
  function Display(value: string): (r: string)
    ensures |value| <= 20 ==> r == value
    ensures |value| > 20 ==> |r| == 23 && r[..20] == value[..20] && r[20..] == "..."
  {
    if |value| > 20 then value[..20] + "..." else value
  }

  /** What the report says of one required variable. */
  datatype ReportLine = Ready(name: string, shown: string) | NotConfigured(name: string)

  function ReportFor(name: string, value: Option<string>): (line: ReportLine)
    ensures line.name == name
    ensures line.Ready? <==> IsConfigured(value)
    ensures line.Ready? ==> line.shown == Display(value.value)
  {
    if IsConfigured(value) then Ready(name, Display(value.value)) else NotConfigured(name)
  }

  /**
   * The whole script: exit status 1 without a `.env` file; otherwise one
   * report line per required variable, in order, and status 0 exactly when
   * every one of them is configured.
   */
  method Check(envExists: bool, content: string) returns (status: int, report: seq<ReportLine>)
    ensures status == 0 || status == 1
    ensures !envExists ==> status == 1 && report == []
    ensures envExists ==> |report| == |RequiredVars|
    ensures envExists ==> forall i :: 0 <= i < |RequiredVars| ==>
        report[i] == ReportFor(RequiredVars[i], Lookup(Parsed(Split(content, '\n')), RequiredVars[i]))
    ensures status == 0 <==>
      envExists && forall i :: 0 <= i < |RequiredVars| ==>
        IsConfigured(Lookup(Parsed(Split(content, '\n')), RequiredVars[i]))
  {
    if !envExists {
      return 1, [];
    }
    var envVars := ParseEnv(content);
    var allConfigured := true;
    report := [];
    var i := 0;
    while i < |RequiredVars|
      invariant 0 <= i <= |RequiredVars|
      invariant |report| == i
      invariant forall k :: 0 <= k < i ==> report[k] == ReportFor(RequiredVars[k], Lookup(envVars, RequiredVars[k]))
      invariant allConfigured <==> forall k :: 0 <= k < i ==> IsConfigured(Lookup(envVars, RequiredVars[k]))
    {
      var value := Lookup(envVars, RequiredVars[i]);
      if IsConfigured(value) {
        report := report + [Ready(RequiredVars[i], Display(value.value))];
      } else {
        report := report + [NotConfigured(RequiredVars[i])];
        allConfigured := false;
      }
      i := i + 1;
    }
    status := if allConfigured then 0 else 1;
  }
}
