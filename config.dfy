/** The service configuration (configs/config.go): the table of options
    with their defaults, the environment-variable names derived from option
    names, the three documentation generators, the flag registration switch
    on each option's typing tag, and the masked printout. */
module Configs {
  import opened Text
  import opened FloatText

  const ServiceName := "guestcovider"

  /** A default value. The one floating-point default of the table is a
      whole number, and floats are kept as whole numbers. */
  datatype OptValue =
    | StrVal(s: string)
    | IntVal(i: int)
    | BoolVal(b: bool)
    | FloatVal(whole: int)

  datatype ConfigOption = ConfigOption(name: string, typing: string, value: OptValue, description: string)

  /** The `options` table, in order. */
  const Options: seq<ConfigOption> := [
    ConfigOption("config", "string", StrVal(""), "config file"),
    ConfigOption("server.http.port", "int", IntVal(8080), "server http port"),
    ConfigOption("server.http.timeout_sec", "int", IntVal(86400), "server http connection timeout"),
    ConfigOption("server.grpc.port", "int", IntVal(9194), "server grpc port"),
    ConfigOption("server.grpc.timeout_sec", "int", IntVal(86400), "server grpc connection timeout"),
    ConfigOption("postgres.host", "string", StrVal("localhost"), "postgres master host"),
    ConfigOption("postgres.port", "int", IntVal(5432), "postgres master port"),
    ConfigOption("postgres.user", "string", StrVal("guestcovider"), "postgres master user"),
    ConfigOption("postgres.password", "string", StrVal("guestcovider"), "postgres master password"),
    ConfigOption("postgres.database_name", "string", StrVal("guestcovider"), "postgres master database name"),
    ConfigOption("postgres.secure", "string", StrVal("disable"), "postgres master SSL support"),
    ConfigOption("logger.level", "string", StrVal("emerg"),
                 "Level of logging. A string that correspond to the following levels: emerg, alert, crit, err, warning, notice, info, debug"),
    ConfigOption("logger.time_format", "string", StrVal("2006-01-02T15:04:05.999999999"), "Date format in logs"),
    ConfigOption("sentry.enabled", "bool", BoolVal(false), "Enables or disables sentry"),
    ConfigOption("sentry.dsn", "string", StrVal("https://hasbool@sentry.com/1"), "Data source name. Sentry addr"),
    ConfigOption("sentry.environment", "string", StrVal("local"), "The environment to be sent with events."),
    ConfigOption("tracer.enabled", "bool", BoolVal(false), "Enables or disables tracing"),
    ConfigOption("tracer.host", "string", StrVal("127.0.0.1"), "The tracer host"),
    ConfigOption("tracer.port", "int", IntVal(5775), "The tracer port"),
    ConfigOption("tracer.name", "string", StrVal("export"), "The tracer name"),
    ConfigOption("metrics.enabled", "bool", BoolVal(false), "Enables or disables metrics"),
    ConfigOption("metrics.port", "int", IntVal(9153), "server http port"),
    ConfigOption("limiter.enabled", "bool", BoolVal(false), "Enables or disables limiter"),
    ConfigOption("limiter.limit", "float64", FloatVal(10000), "Limit tokens per second")
  ]

  // ---------------------------------------------------------------------
  // Environment names

  /** The character an option name's character becomes in its
      environment name. */
  function EnvChar(c: char): char
  {
    UpperChar(if c == '.' || c == '-' then '_' else c)
  }

  /** The environment variable of an option: the service name and the
      option name joined by '_', with '.' and '-' replaced by '_', upper
      case. */
  function EnvName(name: string): (r: string)
    ensures |r| == |ServiceName| + 1 + |name|
    ensures r[..|ServiceName| + 1] == "GUESTCOVIDER_"
    ensures forall k :: 0 <= k < |name| ==> r[|ServiceName| + 1 + k] == EnvChar(name[k])
    ensures forall k :: 0 <= k < |r| ==> r[k] != '.' && r[k] != '-'
  {
    var r := Upper(ReplaceChar(ReplaceChar(ServiceName + "_" + name, '.', '_'), '-', '_'));
    assert forall k :: 0 <= k < |name| ==> (ServiceName + "_" + name)[|ServiceName| + 1 + k] == name[k];
    r
  }

  /** Two option names of the same length share an environment name
      exactly when they agree character by character once each character
      is rewritten: so names that differ only in '.' against '-' or '_', or
      in letter case, collide, and names that differ at a digit do not. */
  lemma EnvNameCollisions(a: string, b: string)
    requires |a| == |b|
    ensures EnvName(a) == EnvName(b) <==> forall k :: 0 <= k < |a| ==> EnvChar(a[k]) == EnvChar(b[k])
  {
    var ea, eb := EnvName(a), EnvName(b);
    var n := |ServiceName| + 1;
    if forall k :: 0 <= k < |a| ==> EnvChar(a[k]) == EnvChar(b[k]) {
      forall k | 0 <= k < |ea| ensures ea[k] == eb[k] {
        if k < n {
          assert ea[..n][k] == eb[..n][k];
        } else {
          var j := k - n;
          assert ea[n + j] == EnvChar(a[j]) && eb[n + j] == EnvChar(b[j]);
        }
      }
      assert ea == eb;
    }
    if ea == eb {
      forall k | 0 <= k < |a| ensures EnvChar(a[k]) == EnvChar(b[k]) {
        assert ea[n + k] == eb[n + k];
      }
    }
  }

  // ---------------------------------------------------------------------
  // The generators

  /** `fmt.Sprintf("%v", value)`. */
  function FormatValue(v: OptValue): string
  {
    match v
    case StrVal(s) => s
    case IntVal(i) => IntToString(i)
    case BoolVal(b) => if b then "true" else "false"
    case FloatVal(w) => FormatWholeFloat(w)
  }

  /** The table's limit prints as plain digits. */
  lemma LimitFormat()
    ensures FormatValue(FloatVal(10000)) == "10000"
  {
    assert NatToString(1) == "1";
    assert NatToString(10) == "10";
    assert NatToString(100) == "100";
    assert NatToString(1000) == "1000";
  }


  // The title line, written in two halves so that proofs can take it apart.
  const MdTitle := "Command line | Environment" + " | Default |Description"
  const MdRule := "--- | --- | --- | ---"
  const MdHeader := MdTitle + "\n" + MdRule + "\n"

  function MdRow(o: ConfigOption): string
  {
    o.name + " | " + EnvName(o.name) + " | " + FormatValue(o.value) + " | " + o.description + "\n"
  }

  function EnvLine(o: ConfigOption): string
  {
    EnvName(o.name) + ": " + FormatValue(o.value) + "\n"
  }

  const TaskTitle := "| Command line | Environment |"
  const TaskHeader := TaskTitle + "\n"

  function TaskRow(o: ConfigOption): string
  {
    "| " + EnvName(o.name) + " | " + FormatValue(o.value) + " |\n"
  }

  /** The rows a generator builds for a list of options, one per option
      and in order. */
  function Rows(os: seq<ConfigOption>, row: ConfigOption -> string): string
  {
    if os == [] then "" else Rows(os[..|os| - 1], row) + row(os[|os| - 1])
  }

  /** `Rows` grows by one row per option. */
  lemma RowsStep(table: seq<ConfigOption>, i: nat, row: ConfigOption -> string)
    requires i < |table|
    ensures Rows(table[..i + 1], row) == Rows(table[..i], row) + row(table[i])
  {
    assert table[..i + 1][..i] == table[..i];
  }

  lemma Assoc(a: string, b: string, c: string)
    ensures (a + b) + c == a + (b + c)
  {
  }

  /** One row of the Markdown table appended to `t`, piece by piece. */
  method AppendMdRow(t0: string, o: ConfigOption) returns (t: string)
    ensures t == t0 + MdRow(o)
  {
    var env := EnvName(o.name);
    var value := FormatValue(o.value);
    t := t0;
    t := t + o.name;
    t := t + " | ";
    t := t + env;
    t := t + " | ";
    t := t + value;
    t := t + " | ";
    t := t + o.description;
    t := t + "\n";
  }

  /** One row of the `GenerateFromTask` table appended to `t`, piece by piece. */
  method AppendTaskRow(t0: string, o: ConfigOption) returns (t: string)
    ensures t == t0 + TaskRow(o)
  {
    var env := EnvName(o.name);
    var value := FormatValue(o.value);
    t := t0;
    t := t + "| ";
    t := t + env;
    t := t + " | ";
    t := t + value;
    t := t + " |";
    t := t + "\n";
  }

  /** The two header lines of the Markdown table, appended piece by piece. */
  method BuildMdHeader() returns (t: string)
    ensures t == MdHeader
  {
    t := "";
    t := t + MdTitle;
    assert t == MdTitle;
    t := t + "\n";
    t := t + MdRule;
    t := t + "\n";
  }

  /** The header line of the `GenerateFromTask` table. */
  method BuildTaskHeader() returns (t: string)
    ensures t == TaskHeader
  {
    t := "";
    t := t + TaskTitle;
    t := t + "\n";
  }

  /** `GenerateMdTable`: two header lines and one row per option; the text
      is printed with one more line break. The source's generators read the
      global `options` table; here the table is the argument. */
  method GenerateMdTable(table: seq<ConfigOption>) returns (printed: string)
    ensures printed == MdHeader + Rows(table, MdRow) + "\n"
  {
    var t := BuildMdHeader();
    ghost var header := t;
    var i := 0;
    while i < |table|
      invariant 0 <= i <= |table|
      invariant t == header + Rows(table[..i], MdRow)
    {
      var o := table[i];
      ghost var rows := Rows(table[..i], MdRow);
      t := AppendMdRow(t, o);
      RowsStep(table, i, MdRow);
      Assoc(header, rows, MdRow(o));
      i := i + 1;
    }
    assert table[..i] == table;
    printed := t + "\n";
  }

  /** `GenerateEnvironment`: one "NAME: default" line per option. */
  method GenerateEnvironment(table: seq<ConfigOption>) returns (printed: string)
    ensures printed == Rows(table, EnvLine) + "\n"
  {
    var t := "";
    var i := 0;
    while i < |table|
      invariant 0 <= i <= |table|
      invariant t == Rows(table[..i], EnvLine)
    {
      var o := table[i];
      ghost var before := t;
      var env := EnvName(o.name);
      var value := FormatValue(o.value);
      t := t + env;
      t := t + ": ";
      t := t + value;
      t := t + "\n";
      assert t == before + EnvLine(o);
      RowsStep(table, i, EnvLine);
      i := i + 1;
    }
    assert table[..i] == table;
    printed := t + "\n";
  }

  /** `GenerateFromTask`: a header line, then one "| NAME | default |" row
      per option. The header names the command-line flag in its first
      column, but the rows hold the environment name and the default. */
  method GenerateFromTask(table: seq<ConfigOption>) returns (printed: string)
    ensures printed == TaskHeader + Rows(table, TaskRow) + "\n"
  {
    var t := BuildTaskHeader();
    ghost var header := t;
    var i := 0;
    while i < |table|
      invariant 0 <= i <= |table|
      invariant t == header + Rows(table[..i], TaskRow)
    {
      var o := table[i];
      ghost var rows := Rows(table[..i], TaskRow);
      t := AppendTaskRow(t, o);
      RowsStep(table, i, TaskRow);
      Assoc(header, rows, TaskRow(o));
      i := i + 1;
    }
    assert table[..i] == table;
    printed := t + "\n";
  }

  /** The number of line breaks in a text. */
  function Breaks(s: string): nat
  {
    if s == [] then 0 else Breaks(s[..|s| - 1]) + (if s[|s| - 1] == '\n' then 1 else 0)
  }

  lemma {:induction false} BreaksConcat(a: string, b: string)
    ensures Breaks(a + b) == Breaks(a) + Breaks(b)
    decreases |b|
  {
    if b == [] {
      assert a + b == a;
    } else {
      assert (a + b)[..|a + b| - 1] == a + b[..|b| - 1];
      BreaksConcat(a, b[..|b| - 1]);
    }
  }

  predicate OneLine(s: string)
  {
    '\n' !in s
  }

  lemma {:induction false} NoBreaks(s: string)
    requires OneLine(s)
    ensures Breaks(s) == 0
    decreases |s|
  {
    if s != [] {
      NoBreaks(s[..|s| - 1]);
    }
  }

  /** Each row a generator builds is one line: it ends in its only line
      break, provided the option's texts hold none. */
  predicate RowIsOneLine(row: ConfigOption -> string, o: ConfigOption)
  {
    |row(o)| > 0 && row(o)[|row(o)| - 1] == '\n' && OneLine(row(o)[..|row(o)| - 1])
  }

  lemma RowsAreLines(o: ConfigOption)
    requires OneLine(o.name) && OneLine(o.description) && OneLine(FormatValue(o.value))
    ensures RowIsOneLine(MdRow, o) && RowIsOneLine(EnvLine, o) && RowIsOneLine(TaskRow, o)
  {
    var e := EnvName(o.name);
    assert OneLine(e) by {
      forall k | 0 <= k < |e| ensures e[k] != '\n' {
        if k >= |ServiceName| + 1 {
          assert e[k] == EnvChar(o.name[k - |ServiceName| - 1]);
        } else {
          assert e[k] == e[..|ServiceName| + 1][k];
        }
      }
    }
    assert MdRow(o)[..|MdRow(o)| - 1] == o.name + " | " + e + " | " + FormatValue(o.value) + " | " + o.description;
    assert EnvLine(o)[..|EnvLine(o)| - 1] == e + ": " + FormatValue(o.value);
    assert TaskRow(o)[..|TaskRow(o)| - 1] == "| " + e + " | " + FormatValue(o.value) + " |";
  }

  lemma RowBreaks(row: ConfigOption -> string, o: ConfigOption)
    requires RowIsOneLine(row, o)
    ensures Breaks(row(o)) == 1
  {
    var r := row(o);
    NoBreaks(r[..|r| - 1]);
  }

  /** A generator's rows hold one line break per option. */
  lemma {:induction false} RowsBreaks(os: seq<ConfigOption>, row: ConfigOption -> string)
    requires forall k :: 0 <= k < |os| ==> RowIsOneLine(row, os[k])
    ensures Breaks(Rows(os, row)) == |os|
  {
    if os != [] {
      RowsBreaks(os[..|os| - 1], row);
      BreaksConcat(Rows(os[..|os| - 1], row), row(os[|os| - 1]));
      RowBreaks(row, os[|os| - 1]);
    }
  }

  /** No text of a table holds a line break. */
  predicate TableIsOneLine(table: seq<ConfigOption>)
  {
    forall k :: 0 <= k < |table| ==>
      OneLine(table[k].name) && OneLine(table[k].description) && OneLine(FormatValue(table[k].value))
  }

  /** Each generator prints exactly one line per option after its header:
      the Markdown table has two header lines, the `GenerateFromTask` table one, the
      environment list none, and each printout ends with an empty line. */
  lemma OneLinePerOption(table: seq<ConfigOption>)
    requires TableIsOneLine(table)
    ensures Breaks(MdHeader + Rows(table, MdRow) + "\n") == 2 + |table| + 1
    ensures Breaks(Rows(table, EnvLine) + "\n") == |table| + 1
    ensures Breaks(TaskHeader + Rows(table, TaskRow) + "\n") == 1 + |table| + 1
  {
    forall k | 0 <= k < |table|
      ensures RowIsOneLine(MdRow, table[k]) && RowIsOneLine(EnvLine, table[k]) && RowIsOneLine(TaskRow, table[k])
    {
      RowsAreLines(table[k]);
    }
    RowsBreaks(table, MdRow);
    RowsBreaks(table, EnvLine);
    RowsBreaks(table, TaskRow);
    HeaderBreaks();
    BreaksConcat(MdHeader, Rows(table, MdRow));
    BreaksConcat(MdHeader + Rows(table, MdRow), "\n");
    BreaksConcat(Rows(table, EnvLine), "\n");
    BreaksConcat(TaskHeader, Rows(table, TaskRow));
    BreaksConcat(TaskHeader + Rows(table, TaskRow), "\n");
  }

  lemma MdTitleOneLine()
    ensures OneLine(MdTitle)
  {
    var a, b := "Command line | Environment", " | Default |Description";
    forall k | 0 <= k < |a| ensures a[k] != '\n' { }
    forall k | 0 <= k < |b| ensures b[k] != '\n' { }
  }

  lemma HeaderBreaks()
    ensures Breaks(MdHeader) == 2 && Breaks(TaskHeader) == 1 && Breaks("\n") == 1
  {
    MdTitleOneLine();
    assert OneLine(MdRule) by {
      forall k | 0 <= k < |MdRule| ensures MdRule[k] != '\n' { }
    }
    assert OneLine(TaskTitle) by {
      forall k | 0 <= k < |TaskTitle| ensures TaskTitle[k] != '\n' { }
    }
    NoBreaks(MdTitle);
    NoBreaks(MdRule);
    NoBreaks(TaskTitle);
    assert "\n"[..0] == "";
    BreaksConcat(MdTitle, "\n");
    BreaksConcat(MdTitle + "\n", MdRule);
    BreaksConcat(MdTitle + "\n" + MdRule, "\n");
    BreaksConcat(TaskTitle, "\n");
  }

  // ---------------------------------------------------------------------
  // Flag registration

  /** The typing tags the registration switch knows. */
  const KnownTypings: set<string> := {"string", "int", "bool", "float64"}

  /** Whether a default value has the type its tag names. */
  predicate HasTyping(typing: string, v: OptValue)
  {
    match v
    case StrVal(_) => typing == "string"
    case IntVal(_) => typing == "int"
    case BoolVal(_) => typing == "bool"
    case FloatVal(_) => typing == "float64"
  }

  /** What registering one option does: a command-line flag of the tagged
      type with the default and the description, a plain viper default for
      an unknown tag, or a panic when the default is not of the tagged type
      (a failed type assertion). */
  datatype Registration =
    | Flag(name: string, typing: string, value: OptValue, description: string)
    | ViperDefault(name: string, value: OptValue)
    | Panic(name: string)

  /** The switch on `o.typing` inside `Read`. */
  function Register(o: ConfigOption): (r: Registration)
    ensures r.Flag? <==> o.typing in KnownTypings && HasTyping(o.typing, o.value)
    ensures r.ViperDefault? <==> o.typing !in KnownTypings
    ensures r.Panic? <==> o.typing in KnownTypings && !HasTyping(o.typing, o.value)
    ensures r.Flag? ==> r == Flag(o.name, o.typing, o.value, o.description)
    ensures r.ViperDefault? ==> r.name == o.name && r.value == o.value
  {
    if o.typing in KnownTypings then
      if HasTyping(o.typing, o.value) then Flag(o.name, o.typing, o.value, o.description) else Panic(o.name)
    else
      ViperDefault(o.name, o.value)
  }

  /** The registration loop of `Read`: every option in order, until a
      failed type assertion panics and ends the loop. */
  method RegisterFlags(table: seq<ConfigOption>) returns (regs: seq<Registration>, panicked: bool)
    ensures panicked <==> exists k :: 0 <= k < |table| && Register(table[k]).Panic?
    ensures |regs| <= |table|
    ensures forall k :: 0 <= k < |regs| ==> regs[k] == Register(table[k]) && !regs[k].Panic?
    ensures !panicked ==> |regs| == |table|
    ensures panicked ==> |regs| < |table| && Register(table[|regs|]).Panic?
  {
    regs := [];
    panicked := false;
    var i := 0;
    while i < |table|
      invariant 0 <= i <= |table| && |regs| == i
      invariant forall k :: 0 <= k < i ==> regs[k] == Register(table[k]) && !regs[k].Panic?
    {
      var r := Register(table[i]);
      if r.Panic? {
        panicked := true;
        return;
      }
      regs := regs + [r];
      i := i + 1;
    }
  }

  /** Every entry of the shipped table is well typed for its tag, so the
      registration never panics and never falls through to a plain
      default: every option becomes a flag. */
  lemma OptionsRegisterAsFlags()
    ensures forall k :: 0 <= k < |Options| ==> Register(Options[k]).Flag?
  {
    forall k | 0 <= k < |Options| ensures Options[k].typing in KnownTypings && HasTyping(Options[k].typing, Options[k].value) {
    }
  }

  // ---------------------------------------------------------------------
  // The configuration and its printout

  datatype PortTimeout = PortTimeout(port: int, timeoutSec: int)
  datatype ServerConfig = ServerConfig(grpc: PortTimeout, http: PortTimeout)
  datatype LoggerConfig = LoggerConfig(level: string, timeFormat: string)
  datatype SentryConfig = SentryConfig(enabled: bool, dsn: string, environment: string)
  datatype TracerConfig = TracerConfig(enabled: bool, host: string, port: int, name: string)
  datatype MetricsConfig = MetricsConfig(enabled: bool, port: int)
  datatype LimiterConfig = LimiterConfig(enabled: bool, limit: real)
  datatype PostgresConfig = PostgresConfig(host: string, port: int, user: string, password: string, databaseName: string, secure: string)

  /** `Config`: the values the service reads at start-up. */
  datatype Config = Config(
    server: ServerConfig,
    logger: LoggerConfig,
    sentry: SentryConfig,
    tracer: TracerConfig,
    metrics: MetricsConfig,
    limiter: LimiterConfig,
    postgres: PostgresConfig)

  const Mask := "******"

  /** `Print` works on its own copy of the configuration (a value
      receiver), overwrites the password in that copy and prints the copy.
      The result is the configuration that gets printed; the caller's
      configuration is a value and stays as it was. */
  method Print(c: Config) returns (shown: Config)
    ensures shown.postgres.password == Mask
    ensures shown.(postgres := shown.postgres.(password := c.postgres.password)) == c
  {
    var copy := c;
    copy := copy.(postgres := copy.postgres.(password := Mask));
    shown := copy;
  }

  /** The printout does not depend on the password: two configurations
      that differ at most in the password print alike. */
  lemma PrintHidesPassword(a: Config, b: Config, sa: Config, sb: Config)
    requires a.(postgres := a.postgres.(password := b.postgres.password)) == b
    requires sa.postgres.password == Mask && sa.(postgres := sa.postgres.(password := a.postgres.password)) == a
    requires sb.postgres.password == Mask && sb.(postgres := sb.postgres.(password := b.postgres.password)) == b
    ensures sa == sb
  {
  }
}
