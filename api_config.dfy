/**
 * The API settings of the assistant (`ApiConfigUtil`): an API key, a base URL
 * and a model name, starting from built-in defaults and overridden, in order,
 * by a properties file, a `.env` file and the process environment, and later
 * by explicit calls to `SetApiConfig`.
 *
 * The layers are given as values: what `Properties.load` produced (or that the
 * file was missing or unreadable), the lines of `.env` and how reading them
 * ended, and the environment as a map. Every writer assigns only a value that
 * is non-null and non-empty.
 */
module ApiConfigUtil {
  import opened Wrappers
  import opened JavaString
  import opened LineInput

  const DefaultApiKey: string := ""
  const DefaultBaseUrl: string := "https://api.openai.com/v1"
  const DefaultModel: string := "gpt-3.5-turbo"

  datatype Config = Config(apiKey: string, baseUrl: string, model: string)

  const Defaults: Config := Config(DefaultApiKey, DefaultBaseUrl, DefaultModel)

  /** The three settings, so that per-setting facts are stated once. */
  datatype Setting = ApiKey | BaseUrl | Model

  function Get(c: Config, s: Setting): string {
    match s
    case ApiKey => c.apiKey
    case BaseUrl => c.baseUrl
    case Model => c.model
  }

  /** Key of the setting in `logisim-evolution.properties`. */
  function PropertyName(s: Setting): string {
    match s
    case ApiKey => "api.key"
    case BaseUrl => "api.base.url"
    case Model => "api.model"
  }

  /** Name of the setting in `.env` and in the process environment. */
  function EnvName(s: Setting): string {
    match s
    case ApiKey => "OPENAI_API_KEY"
    case BaseUrl => "OPENAI_BASE_URL"
    case Model => "OPENAI_MODEL"
  }

  /** The base URL and the model are never empty; the API key may be. */
  predicate Usable(c: Config) {
    c.baseUrl != "" && c.model != ""
  }

  /** The rule every writer follows: a present candidate replaces the current value. */
  function Override(current: string, candidate: Option<string>): (r: string)
    ensures current != "" ==> r != ""
  {
    if IsPresent(candidate) then candidate.value else current
  }

  /** `Properties.getProperty(key)` and `System.getenv(name)`: null when absent. */
  function Lookup(m: map<string, string>, key: string): Option<string> {
    if key in m then Some(m[key]) else None
  }

  // ---------------------------------------------------------------- layer 1

  /** A `logisim-evolution.properties` file: not there, there but unreadable
      (`IOException`, logged and skipped), or loaded. */
  datatype PropertiesFile = NoFile | Unreadable | Loaded(properties: map<string, string>)

  /** The file in the working directory is used when it exists; only when it
      does not is the one in the home directory considered. */
  function ChoosePropertiesFile(workingDir: PropertiesFile, home: PropertiesFile): PropertiesFile {
    if workingDir.NoFile? then home else workingDir
  }

  function ApplyProperties(c: Config, file: PropertiesFile): Config {
    match file
    case Loaded(p) =>
      Config(Override(c.apiKey, Lookup(p, "api.key")),
             Override(c.baseUrl, Lookup(p, "api.base.url")),
             Override(c.model, Lookup(p, "api.model")))
    case _ => c
  }

  // ---------------------------------------------------------------- layer 2

  /** What one line of `.env` says: nothing, or a trimmed key and value. */
  datatype EnvLine = NoEntry | Entry(key: string, value: string)

  /** Judged on the trimmed line: blank lines and `#` comments say nothing. */
  predicate IsCommentOrBlank(line: string) {
    var trimmed := Trim(line);
    "#" <= trimmed || trimmed == ""
  }

  /** An `export ` at column 0 of the untrimmed line is dropped. */
  function StripExport(line: string): string {
    if "export " <= line then line[7..] else line
  }

  /** The cut at the first `=`, key and value trimmed; no `=`, no entry. */
  function SplitEntry(rest: string): EnvLine {
    var parts := SplitLimit2(rest, '=');
    if |parts| == 2 then Entry(Trim(parts[0]), Trim(parts[1])) else NoEntry
  }

  /** One line of `.env`. */
  function ParseEnvLine(line: string): EnvLine {
    if IsCommentOrBlank(line) then NoEntry else SplitEntry(StripExport(line))
  }

  /** The `switch` on the key: the three known keys with a non-empty value set
      their setting; any other key changes nothing. */
  function ApplyEnvEntry(c: Config, e: EnvLine): Config {
    match e
    case NoEntry => c
    case Entry(key, value) =>
      if key == "OPENAI_API_KEY" then c.(apiKey := Override(c.apiKey, Some(value)))
      else if key == "OPENAI_BASE_URL" then c.(baseUrl := Override(c.baseUrl, Some(value)))
      else if key == "OPENAI_MODEL" then c.(model := Override(c.model, Some(value)))
      else c
  }

  /** What each line of the file says, in order. */
  function ParseEnvLines(lines: seq<string>): (entries: seq<EnvLine>)
    ensures |entries| == |lines|
    ensures forall k :: 0 <= k < |lines| ==> entries[k] == ParseEnvLine(lines[k])
  {
    seq(|lines|, k requires 0 <= k < |lines| => ParseEnvLine(lines[k]))
  }

  /** The entries applied first to last. */
  function ApplyEnvEntries(c: Config, entries: seq<EnvLine>): Config
    decreases |entries|
  {
    if entries == [] then c
    else ApplyEnvEntry(ApplyEnvEntries(c, entries[..|entries| - 1]), entries[|entries| - 1])
  }

  function ApplyEnvLines(c: Config, lines: seq<string>): Config {
    ApplyEnvEntries(c, ParseEnvLines(lines))
  }

  // ---------------------------------------------------------------- layer 3

  function ApplySystemEnv(c: Config, env: map<string, string>): Config {
    Config(Override(c.apiKey, Lookup(env, "OPENAI_API_KEY")),
           Override(c.baseUrl, Lookup(env, "OPENAI_BASE_URL")),
           Override(c.model, Lookup(env, "OPENAI_MODEL")))
  }

  /** The settings after class initialisation: defaults, then the properties
      file, then `.env` (the lines read before any read error), then the
      environment. A missing `.env` is a stream that fails before its first line. */
  function Resolve(workingDir: PropertiesFile, home: PropertiesFile,
                   dotEnv: LineStream, env: map<string, string>): Config
  {
    var afterProperties := ApplyProperties(Defaults, ChoosePropertiesFile(workingDir, home));
    ApplySystemEnv(ApplyEnvLines(afterProperties, dotEnv.lines), env)
  }

  /** `setApiConfig`: each present argument replaces its setting. */
  function SetConfig(c: Config, newApiKey: Option<string>, newBaseUrl: Option<string>,
                     newModel: Option<string>): Config
  {
    Config(Override(c.apiKey, newApiKey), Override(c.baseUrl, newBaseUrl), Override(c.model, newModel))
  }

  // ------------------------------------------------ the layers, one setting at a time

  /** The value a properties file supplies for `s`, if any. */
  function PropertiesValue(file: PropertiesFile, s: Setting): Option<string> {
    if file.Loaded? && IsPresent(Lookup(file.properties, PropertyName(s)))
    then Lookup(file.properties, PropertyName(s)) else None
  }

  /** Whether a `.env` entry sets `s` (to a non-empty value). */
  predicate Sets(e: EnvLine, s: Setting) {
    e.Entry? && e.key == EnvName(s) && e.value != ""
  }

  /** The value of the last entry that sets `s`, if any. */
  function EnvFileValue(entries: seq<EnvLine>, s: Setting): Option<string>
    decreases |entries|
  {
    if entries == [] then None
    else if Sets(entries[|entries| - 1], s) then Some(entries[|entries| - 1].value)
    else EnvFileValue(entries[..|entries| - 1], s)
  }

  /** The value the environment supplies for `s`, if any. */
  function SystemEnvValue(env: map<string, string>, s: Setting): Option<string> {
    if IsPresent(Lookup(env, EnvName(s))) then Lookup(env, EnvName(s)) else None
  }

  /** The first layer, from the highest, that supplies a value. */
  function FirstSupplied(layers: seq<Option<string>>, fallback: string): string {
    if layers == [] then fallback
    else if layers[0].Some? then layers[0].value
    else FirstSupplied(layers[1..], fallback)
  }

  /** Blank and comment lines say nothing. */
  lemma CommentAndBlankLinesSayNothing(line: string)
    requires Trim(line) == "" || "#" <= Trim(line)
    ensures ParseEnvLine(line) == NoEntry
  {
  }

  /** The cut is at the first `=` only, so the value may itself hold `=`. */
  lemma SplitAtFirstEquals(rest: string, i: nat)
    requires i < |rest| && rest[i] == '=' && '=' !in rest[..i]
    ensures SplitEntry(rest) == Entry(Trim(rest[..i]), Trim(rest[i + 1..]))
  {
    var parts := SplitLimit2(rest, '=');
    assert IndexOf(rest, '=') == i;
    assert parts[0] == rest[..i];
  }

  /** A line with `export ` at column 0 reads as the line without it, cut at
      its first `=` into a trimmed key and a trimmed value. */
  lemma ExportPrefixDropped(rest: string, key: string, value: string)
    requires '=' !in key
    requires rest == key + "=" + value
    ensures ParseEnvLine("export " + rest) == Entry(Trim(key), Trim(value))
  {
    var line := "export " + rest;
    assert !IsCommentOrBlank(line) by {
      assert line[0] == 'e';
    }
    assert StripExport(line) == rest by {
      assert line[..7] == "export ";
    }
    assert rest[..|key|] == key && rest[|key|] == '=' && rest[|key| + 1..] == value;
    SplitAtFirstEquals(rest, |key|);
  }

  /** Without `export `, a line that is not blank or a comment is cut at its
      first `=` into a trimmed key and a trimmed value. */
  lemma FirstEqualsSplits(line: string, i: nat)
    requires i < |line| && line[i] == '=' && '=' !in line[..i]
    requires !("export " <= line)
    requires !IsCommentOrBlank(line)
    ensures ParseEnvLine(line) == Entry(Trim(line[..i]), Trim(line[i + 1..]))
  {
    SplitAtFirstEquals(line, i);
  }

  /** A line without `=` says nothing. */
  lemma LineWithoutEqualsSaysNothing(line: string)
    requires '=' !in line
    ensures ParseEnvLine(line) == NoEntry
  {
    if "export " <= line {
      assert forall k :: 0 <= k < |line[7..]| ==> line[7..][k] == line[k + 7];
    }
  }

  /** `export` is recognised only at column 0: after leading white space (any
      run of chars `<= ' '`) it stays part of the key, which then names no
      setting, so the line changes nothing. */
  lemma IndentedExportIgnored(c: Config, ws: string, rest: string)
    requires ws != [] && forall k :: 0 <= k < |ws| ==> IsTrimmable(ws[k])
    ensures ApplyEnvEntry(c, ParseEnvLine(ws + "export " + rest)) == c
  {
    IndentedExportKey(ws, rest);
    KeyStartingWithEIgnored(c, ParseEnvLine(ws + "export " + rest));
  }

  lemma KeyStartingWithEIgnored(c: Config, e: EnvLine)
    requires e.Entry? ==> e.key != "" && e.key[0] == 'e'
    ensures ApplyEnvEntry(c, e) == c
  {
    if e.Entry? {
      assert "OPENAI_API_KEY"[0] == 'O' && "OPENAI_BASE_URL"[0] == 'O' && "OPENAI_MODEL"[0] == 'O';
    }
  }

  /** The key of such a line, if it has one, starts with the `e` of `export`. */
  lemma IndentedExportKey(ws: string, rest: string)
    requires ws != [] && forall k :: 0 <= k < |ws| ==> IsTrimmable(ws[k])
    ensures var e := ParseEnvLine(ws + "export " + rest);
            e.Entry? ==> e.key != "" && e.key[0] == 'e'
  {
    var t := "export " + rest;
    assert (ws + t)[0] == ws[0];
    assert StripExport(ws + t) == ws + t;
    KeyAfterBlankPrefix(ws, t);
    assert ws + "export " + rest == ws + t;
  }

  /** After leading white space, the first char that is neither white space
      nor `=` starts the key, if the line has one. */
  lemma KeyAfterBlankPrefix(ws: string, t: string)
    requires forall k :: 0 <= k < |ws| ==> IsTrimmable(ws[k])
    requires t != [] && !IsTrimmable(t[0]) && t[0] != '='
    ensures var e := SplitEntry(ws + t);
            e.Entry? ==> e.key != "" && e.key[0] == t[0]
  {
    var parts := SplitLimit2(ws + t, '=');
    if |parts| == 2 {
      var p := parts[0];
      CutAfterBlankPrefix(ws, t, p, parts[1]);
      TrimAfterBlankPrefix(ws, p[|ws|..]);
    }
  }

  /** A cut at an `=` of such a line falls after the white space and after
      the first char of `t`. */
  lemma CutAfterBlankPrefix(ws: string, t: string, p: string, q: string)
    requires forall k :: 0 <= k < |ws| ==> IsTrimmable(ws[k])
    requires t != [] && t[0] != '='
    requires ws + t == p + ['='] + q
    ensures |p| > |ws| && p == ws + p[|ws|..] && p[|ws|] == t[0]
  {
    var line := ws + t;
    CharAtCut(line, p, q);
    assert forall k :: 0 <= k < |ws| ==> line[k] == ws[k];
    assert line[|ws|] == t[0];
    assert |p| > |ws|;
    assert p[..|ws|] == line[..|ws|] == ws;
  }

  /** Where a line is cut around an `=`. */
  lemma CharAtCut(line: string, p: string, q: string)
    requires line == p + ['='] + q
    ensures |p| < |line| && line[|p|] == '=' && line[..|p|] == p
    ensures forall k :: 0 <= k < |p| ==> line[k] == p[k]
  {
    assert line == p + (['='] + q);
  }

  /** An entry whose key is not one of the three changes nothing. */
  lemma UnknownKeyIgnored(c: Config, key: string, value: string)
    requires forall s: Setting :: key != EnvName(s)
    ensures ApplyEnvEntry(c, Entry(key, value)) == c
  {
    assert key != EnvName(ApiKey) && key != EnvName(BaseUrl) && key != EnvName(Model);
  }

  /** An entry changes at most the setting its key names, and only to a non-empty value. */
  lemma EntryEffect(c: Config, e: EnvLine, s: Setting)
    ensures Get(ApplyEnvEntry(c, e), s)
         == if e.Entry? && e.key == EnvName(s) && e.value != "" then e.value else Get(c, s)
  {
  }

  /** Reading one more line applies its entry after the others. */
  lemma ParseEnvLinesSnoc(lines: seq<string>, i: nat)
    requires i < |lines|
    ensures ParseEnvLines(lines[..i + 1]) == ParseEnvLines(lines[..i]) + [ParseEnvLine(lines[i])]
  {
  }

  /** Reading one more line applies what that line says. */
  lemma ApplyEnvLinesSnoc(c: Config, lines: seq<string>, i: nat)
    requires i < |lines|
    ensures ApplyEnvLines(c, lines[..i + 1]) == ApplyEnvEntry(ApplyEnvLines(c, lines[..i]), ParseEnvLine(lines[i]))
  {
    ParseEnvLinesSnoc(lines, i);
    var entries := ParseEnvLines(lines[..i + 1]);
    assert entries[..i] == ParseEnvLines(lines[..i]);
  }

  /** After the whole file, a setting holds the value of the last entry that sets
      it, and is as before when no entry does; the other settings play no part. */
  lemma {:induction false} EnvFileLastWins(c: Config, entries: seq<EnvLine>, s: Setting)
    ensures Get(ApplyEnvEntries(c, entries), s) == EnvFileValue(entries, s).GetOr(Get(c, s))
    decreases |entries|
  {
    if entries != [] {
      var init := entries[..|entries| - 1];
      EnvFileLastWins(c, init, s);
      EntryEffect(ApplyEnvEntries(c, init), entries[|entries| - 1], s);
    }
  }

  /** `EnvFileValue` is the value of the last line of the file that sets `s`. */
  lemma EnvFileValueIsLastAssignment(lines: seq<string>, s: Setting, i: nat)
    requires i < |lines| && Sets(ParseEnvLine(lines[i]), s)
    requires forall j :: i < j < |lines| ==> !Sets(ParseEnvLine(lines[j]), s)
    ensures EnvFileValue(ParseEnvLines(lines), s) == Some(ParseEnvLine(lines[i]).value)
  {
    LastEntryWins(ParseEnvLines(lines), s, i);
  }

  lemma {:induction false} LastEntryWins(entries: seq<EnvLine>, s: Setting, i: nat)
    requires i < |entries| && Sets(entries[i], s)
    requires forall j :: i < j < |entries| ==> !Sets(entries[j], s)
    ensures EnvFileValue(entries, s) == Some(entries[i].value)
    decreases |entries|
  {
    if i < |entries| - 1 {
      var init := entries[..|entries| - 1];
      assert init[i] == entries[i];
      assert forall j :: i < j < |init| ==> init[j] == entries[j];
      LastEntryWins(init, s, i);
    }
  }

  /** With no line setting `s`, the file supplies nothing for it. */
  lemma {:induction false} EnvFileValueNone(entries: seq<EnvLine>, s: Setting)
    requires forall j :: 0 <= j < |entries| ==> !Sets(entries[j], s)
    ensures EnvFileValue(entries, s) == None
    decreases |entries|
  {
    if entries != [] {
      var init := entries[..|entries| - 1];
      assert forall j :: 0 <= j < |init| ==> init[j] == entries[j];
      EnvFileValueNone(init, s);
    }
  }

  /** The layering, setting by setting: the environment wins over `.env`, which
      wins over the properties file, which wins over the default, each layer
      counting only where it supplies a non-empty value; a setting depends on
      nothing the layers say about the other two. */
  lemma ResolveLayering(workingDir: PropertiesFile, home: PropertiesFile,
                        dotEnv: LineStream, env: map<string, string>, s: Setting)
    ensures Get(Resolve(workingDir, home, dotEnv, env), s)
         == FirstSupplied([SystemEnvValue(env, s), EnvFileValue(ParseEnvLines(dotEnv.lines), s),
                           PropertiesValue(ChoosePropertiesFile(workingDir, home), s)],
                          Get(Defaults, s))
  {
    var file := ChoosePropertiesFile(workingDir, home);
    var afterProperties := ApplyProperties(Defaults, file);
    var afterEnvFile := ApplyEnvLines(afterProperties, dotEnv.lines);
    PropertiesEffect(Defaults, file, s);
    var entries := ParseEnvLines(dotEnv.lines);
    EnvFileLastWins(afterProperties, entries, s);
    SystemEnvEffect(afterEnvFile, env, s);
    var layers := [SystemEnvValue(env, s), EnvFileValue(entries, s), PropertiesValue(file, s)];
    assert layers[1..] == [EnvFileValue(entries, s), PropertiesValue(file, s)];
    assert layers[1..][1..] == [PropertiesValue(file, s)];
    assert layers[1..][1..][1..] == [];
    var d := Get(Defaults, s);
    assert FirstSupplied(layers[1..][1..], d) == PropertiesValue(file, s).GetOr(d);
    assert FirstSupplied(layers[1..], d) == EnvFileValue(entries, s).GetOr(FirstSupplied(layers[1..][1..], d));
    assert FirstSupplied(layers, d) == SystemEnvValue(env, s).GetOr(FirstSupplied(layers[1..], d));
  }

  /** The properties layer, one setting at a time. */
  lemma PropertiesEffect(c: Config, file: PropertiesFile, s: Setting)
    ensures Get(ApplyProperties(c, file), s) == PropertiesValue(file, s).GetOr(Get(c, s))
  {
  }

  /** The environment layer, one setting at a time. */
  lemma SystemEnvEffect(c: Config, env: map<string, string>, s: Setting)
    ensures Get(ApplySystemEnv(c, env), s) == SystemEnvValue(env, s).GetOr(Get(c, s))
  {
  }

  /** An environment that sets only the model changes only the model. */
  lemma ModelFromEnvironmentOnly(workingDir: PropertiesFile, home: PropertiesFile,
                                 dotEnv: LineStream, m: string)
    requires m != ""
    ensures Resolve(workingDir, home, dotEnv, map["OPENAI_MODEL" := m])
         == Resolve(workingDir, home, dotEnv, map[]).(model := m)
  {
  }

  /** Whatever the sources, the base URL and the model are never empty. */
  lemma {:induction false} EnvEntriesKeepUsable(c: Config, entries: seq<EnvLine>)
    requires Usable(c)
    ensures Usable(ApplyEnvEntries(c, entries))
    decreases |entries|
  {
    if entries != [] {
      var init := entries[..|entries| - 1];
      EnvEntriesKeepUsable(c, init);
      EntryEffect(ApplyEnvEntries(c, init), entries[|entries| - 1], BaseUrl);
      EntryEffect(ApplyEnvEntries(c, init), entries[|entries| - 1], Model);
    }
  }

  lemma ResolvedIsUsable(workingDir: PropertiesFile, home: PropertiesFile,
                         dotEnv: LineStream, env: map<string, string>)
    ensures Usable(Resolve(workingDir, home, dotEnv, env))
  {
    EnvEntriesKeepUsable(ApplyProperties(Defaults, ChoosePropertiesFile(workingDir, home)),
                         ParseEnvLines(dotEnv.lines));
  }

  /** With no file and no environment, the defaults stand. */
  lemma NoSourcesGiveDefaults(missing: string)
    ensures Resolve(NoFile, NoFile, LineStream([], Failed(missing)), map[]) == Defaults
  {
  }

  /** A working-directory file that exists but cannot be read is not replaced by
      the home-directory one: the properties layer then changes nothing. */
  lemma UnreadableWorkingDirFileShadowsHome(c: Config, home: PropertiesFile)
    ensures ApplyProperties(c, ChoosePropertiesFile(Unreadable, home)) == c
  {
  }

  /** `SetConfig` changes exactly the settings whose argument is present. */
  lemma SetConfigChangesOnlyPresent(c: Config, newApiKey: Option<string>, newBaseUrl: Option<string>,
                                    newModel: Option<string>, s: Setting)
    ensures var arg := match s case ApiKey => newApiKey case BaseUrl => newBaseUrl case Model => newModel;
            Get(SetConfig(c, newApiKey, newBaseUrl, newModel), s) == if IsPresent(arg) then arg.value else Get(c, s)
  {
  }

  /** Setting the same values twice is the same as setting them once. */
  lemma SetConfigIdempotent(c: Config, newApiKey: Option<string>, newBaseUrl: Option<string>,
                            newModel: Option<string>)
    ensures var once := SetConfig(c, newApiKey, newBaseUrl, newModel);
            SetConfig(once, newApiKey, newBaseUrl, newModel) == once
  {
  }

  /** The class-level fields of `ApiConfigUtil`. */
  class ApiConfig {
    var apiKey: string
    var baseUrl: string
    var model: string

    function Current(): Config
      reads this
    {
      Config(apiKey, baseUrl, model)
    }

    ghost predicate Valid()
      reads this
    {
      Usable(Current())
    }

    /** The static initialiser: defaults, then the three loaders in order. */
    constructor (workingDir: PropertiesFile, home: PropertiesFile,
                 dotEnv: LineStream, env: map<string, string>)
      ensures Valid()
      ensures Current() == Resolve(workingDir, home, dotEnv, env)
    {
      apiKey, baseUrl, model := DefaultApiKey, DefaultBaseUrl, DefaultModel;
      new;
      LoadFromPropertiesFile(workingDir, home);
      LoadFromEnvFile(dotEnv);
      LoadFromSystemEnv(env);
    }

    method LoadFromPropertiesFile(workingDir: PropertiesFile, home: PropertiesFile)
      requires Valid()
      modifies this
      ensures Valid()
      ensures Current() == ApplyProperties(old(Current()), ChoosePropertiesFile(workingDir, home))
    {
      var configFile := workingDir;
      if configFile.NoFile? {
        configFile := home;
      }
      if configFile.Loaded? {
        var prop := configFile.properties;
        var v := Lookup(prop, "api.key");
        if v.Some? && v.value != "" {
          apiKey := v.value;
        }
        v := Lookup(prop, "api.base.url");
        if v.Some? && v.value != "" {
          baseUrl := v.value;
        }
        v := Lookup(prop, "api.model");
        if v.Some? && v.value != "" {
          model := v.value;
        }
      }
    }

    method LoadFromSystemEnv(env: map<string, string>)
      requires Valid()
      modifies this
      ensures Valid()
      ensures Current() == ApplySystemEnv(old(Current()), env)
    {
      var envApiKey := Lookup(env, "OPENAI_API_KEY");
      if envApiKey.Some? && envApiKey.value != "" {
        apiKey := envApiKey.value;
      }
      var envBaseUrl := Lookup(env, "OPENAI_BASE_URL");
      if envBaseUrl.Some? && envBaseUrl.value != "" {
        baseUrl := envBaseUrl.value;
      }
      var envModel := Lookup(env, "OPENAI_MODEL");
      if envModel.Some? && envModel.value != "" {
        model := envModel.value;
      }
    }

    /** Reads `.env` line by line; the lines read before an `IOException`
        (a missing file fails before the first) keep their effect. */
    method LoadFromEnvFile(dotEnv: LineStream)
      requires Valid()
      modifies this
      ensures Valid()
      ensures Current() == ApplyEnvLines(old(Current()), dotEnv.lines)
    {
      var lines := dotEnv.lines;
      var i := 0;
      while i < |lines|
        invariant 0 <= i <= |lines|
        invariant Valid()
        invariant Current() == ApplyEnvLines(old(Current()), lines[..i])
      {
        ApplyEnvLinesSnoc(old(Current()), lines, i);
        ReadEnvLine(lines[i]);
        i := i + 1;
      }
      assert lines[..i] == lines;
    }

    /** The body of the read loop, for one line. */
    method ReadEnvLine(line: string)
      requires Valid()
      modifies this
      ensures Valid()
      ensures Current() == ApplyEnvEntry(old(Current()), ParseEnvLine(line))
    {
      var trimmed := Trim(line);
      if "#" <= trimmed || trimmed == "" {
        return;
      }
      var rest := line;
      if "export " <= line {
        rest := line[7..];
      }
      var parts := SplitLimit2(rest, '=');
      if |parts| == 2 {
        var key := Trim(parts[0]);
        var value := Trim(parts[1]);
        SetFromEnvEntry(key, value);
      }
    }

    method SetFromEnvEntry(key: string, value: string)
      requires Valid()
      modifies this
      ensures Valid()
      ensures Current() == ApplyEnvEntry(old(Current()), Entry(key, value))
    {
      if key == "OPENAI_API_KEY" {
        if value != "" {
          apiKey := value;
        }
      } else if key == "OPENAI_BASE_URL" {
        if value != "" {
          baseUrl := value;
        }
      } else if key == "OPENAI_MODEL" {
        if value != "" {
          model := value;
        }
      }
    }

    /** `setApiConfig`: a null or empty argument leaves its setting alone. */
    method SetApiConfig(newApiKey: Option<string>, newBaseUrl: Option<string>, newModel: Option<string>)
      requires Valid()
      modifies this
      ensures Valid()
      ensures Current() == SetConfig(old(Current()), newApiKey, newBaseUrl, newModel)
    {
      if newApiKey.Some? && newApiKey.value != "" {
        apiKey := newApiKey.value;
      }
      if newBaseUrl.Some? && newBaseUrl.value != "" {
        baseUrl := newBaseUrl.value;
      }
      if newModel.Some? && newModel.value != "" {
        model := newModel.value;
      }
    }

    /** `getApiConfig`: a fresh map with exactly the three current settings. */
    function GetApiConfig(): (m: map<string, string>)
      reads this
      ensures m.Keys == {"apiKey", "baseUrl", "model"}
      ensures m["apiKey"] == apiKey && m["baseUrl"] == baseUrl && m["model"] == model
    {
      map["apiKey" := apiKey, "baseUrl" := baseUrl, "model" := model]
    }
  }
}
