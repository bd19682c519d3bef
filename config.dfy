/**
 * The back-end's settings: each read from an environment variable or taken
 * from its default, the integer ones parsed with `int(...)`, and the
 * database address assembled into a PostgreSQL connection string.
 */
module Config {
  import opened Wrappers
  import opened Text

  datatype DatabaseConfig = DatabaseConfig(
    host: string, port: int, username: string, password: string, database: string,
    minPoolSize: int, maxPoolSize: int)

  datatype AuthConfig = AuthConfig(secretKey: string, algorithm: string, accessTokenExpireMinutes: int)

  datatype AppConfig = AppConfig(debug: bool, allowedOrigins: seq<string>, apiV1Prefix: string)

  datatype Settings = Settings(database: DatabaseConfig, auth: AuthConfig, app: AppConfig)

  const DsnScheme: string := "postgresql://"
  const ApiV1Prefix: string := "/api/v1"
  const DefaultOrigins: string := "http://localhost:5173,http://localhost:3000"
  const DefaultSecret: string := "your-secret-key-change-in-production"

  /** `DatabaseConfig.dsn`: `postgresql://<user>:<password>@<host>:<port>/<database>`. */
  function Dsn(c: DatabaseConfig): string
  {
    DsnScheme + (c.username + ([':'] + (c.password + (['@'] + (c.host + ([':'] + (IntToString(c.port) + (['/'] + c.database))))))))
  }

  /** The parts a connection string names, in the order it names them. */
  datatype DsnParts = DsnParts(username: string, password: string, host: string, port: int, database: string)

  /**
   * Reads a connection string back: the user up to the first `:`, the password
   * up to the next `@`, the host up to the next `:`, the port up to the next
   * `/`, and the rest as the database.
   */
  function ParseDsn(s: string): Option<DsnParts>
  {
    if StartsWith(s, DsnScheme) then ParseUser(s[|DsnScheme|..]) else None
  }

  function ParseUser(r: string): Option<DsnParts>
  {
    match IndexOf(r, ':')
    case None => None
    case Some(i) => ParsePassword(r[..i], r[i + 1..])
  }

  function ParsePassword(user: string, r: string): Option<DsnParts>
  {
    match IndexOf(r, '@')
    case None => None
    case Some(j) => ParseHost(user, r[..j], r[j + 1..])
  }

  function ParseHost(user: string, password: string, r: string): Option<DsnParts>
  {
    match IndexOf(r, ':')
    case None => None
    case Some(k) => ParsePort(user, password, r[..k], r[k + 1..])
  }

  function ParsePort(user: string, password: string, host: string, r: string): Option<DsnParts>
  {
    match IndexOf(r, '/')
    case None => None
    case Some(l) =>
      match ParseInt(r[..l])
      case None => None
      case Some(port) => Some(DsnParts(user, password, host, port, r[l + 1..]))
  }

  /** The first `c` of `a + ([c] + b)`, when `a` has none, is the one after `a`. */
  lemma {:induction false} FirstAfter(a: string, c: char, b: string)
    requires Lacks(a, c)
    ensures IndexOf(a + ([c] + b), c) == Some(|a|)
    decreases |a|
  {
    if |a| > 0 {
      FirstAfter(a[1..], c, b);
      assert (a + ([c] + b))[1..] == a[1..] + ([c] + b);
    }
  }

  /** Cutting `a + ([c] + b)` at its first `c`, when `a` has none, gives `a` and `b`. */
  lemma CutAt(a: string, c: char, b: string)
    requires Lacks(a, c)
    ensures IndexOf(a + ([c] + b), c) == Some(|a|)
    ensures (a + ([c] + b))[..|a|] == a && (a + ([c] + b))[|a| + 1..] == b
  {
    FirstAfter(a, c, b);
  }

  lemma ParsePortOf(user: string, password: string, host: string, port: int, database: string)
    ensures ParsePort(user, password, host, IntToString(port) + (['/'] + database)) ==
      Some(DsnParts(user, password, host, port, database))
  {
    IntToStringChars(port);
    assert Lacks(IntToString(port), '/');
    ParseIntToString(port);
    CutAt(IntToString(port), '/', database);
  }

  /**
   * The connection string names the configured database: it reads back to
   * the same parts whenever the user has no `:`, the password no `@` and the
   * host no `:`.
   */
  lemma DsnRoundTrip(c: DatabaseConfig)
    requires Lacks(c.username, ':') && Lacks(c.password, '@') && Lacks(c.host, ':')
    ensures ParseDsn(Dsn(c)) == Some(DsnParts(c.username, c.password, c.host, c.port, c.database))
  {
    var r4 := IntToString(c.port) + (['/'] + c.database);
    var r3 := c.host + ([':'] + r4);
    var r2 := c.password + (['@'] + r3);
    var r := c.username + ([':'] + r2);
    assert (DsnScheme + r)[..|DsnScheme|] == DsnScheme && (DsnScheme + r)[|DsnScheme|..] == r;
    ParsePortOf(c.username, c.password, c.host, c.port, c.database);
    CutAt(c.host, ':', r4);
    CutAt(c.password, '@', r3);
    CutAt(c.username, ':', r2);
  }

  /** `value.lower() == "true"` */
  predicate DebugOn(value: string)
  {
    ToLower(value) == "true"
  }

  /** `os.getenv(key, default)`. */
  function Getenv(env: map<string, string>, key: string, default: string): (v: string)
    ensures key in env ==> v == env[key]
    ensures key !in env ==> v == default
  {
    if key in env then env[key] else default
  }

  /**
   * `get_settings()` as a function of the environment; `None` when one of the
   * integer settings is not an integer, where `int(...)` raises.
   */
  function GetSettings(env: map<string, string>): (r: Option<Settings>)
    ensures r.None? <==>
      ParseInt(Getenv(env, "POSTGRES_PORT", "5432")).None? ||
      ParseInt(Getenv(env, "DB_MIN_POOL_SIZE", "5")).None? ||
      ParseInt(Getenv(env, "DB_MAX_POOL_SIZE", "20")).None? ||
      ParseInt(Getenv(env, "ACCESS_TOKEN_EXPIRE_MINUTES", "1440")).None?
    ensures r.Some? ==> r.value.database.host == Getenv(env, "POSTGRES_HOST", "localhost")
    ensures r.Some? ==> r.value.database.username == Getenv(env, "POSTGRES_USER", "postgres")
    ensures r.Some? ==> r.value.database.password == Getenv(env, "POSTGRES_PASSWORD", "postgres")
    ensures r.Some? ==> r.value.database.database == Getenv(env, "POSTGRES_DB", "stack_radar")
    ensures r.Some? ==> Some(r.value.database.port) == ParseInt(Getenv(env, "POSTGRES_PORT", "5432"))
    ensures r.Some? ==> Some(r.value.database.minPoolSize) == ParseInt(Getenv(env, "DB_MIN_POOL_SIZE", "5"))
    ensures r.Some? ==> Some(r.value.database.maxPoolSize) == ParseInt(Getenv(env, "DB_MAX_POOL_SIZE", "20"))
    ensures r.Some? ==>
      Some(r.value.auth.accessTokenExpireMinutes) == ParseInt(Getenv(env, "ACCESS_TOKEN_EXPIRE_MINUTES", "1440"))
    ensures r.Some? ==> r.value.auth.secretKey == Getenv(env, "SECRET_KEY", DefaultSecret)
    ensures r.Some? ==> r.value.auth.algorithm == Getenv(env, "JWT_ALGORITHM", "HS256")
    ensures r.Some? ==> r.value.app.debug == DebugOn(Getenv(env, "DEBUG", "false"))
    ensures r.Some? ==> Join([','], r.value.app.allowedOrigins) == Getenv(env, "ALLOWED_ORIGINS", DefaultOrigins)
    ensures r.Some? ==> r.value.app.apiV1Prefix == ApiV1Prefix
  {
    var port := ParseInt(Getenv(env, "POSTGRES_PORT", "5432"));
    var minPool := ParseInt(Getenv(env, "DB_MIN_POOL_SIZE", "5"));
    var maxPool := ParseInt(Getenv(env, "DB_MAX_POOL_SIZE", "20"));
    var expire := ParseInt(Getenv(env, "ACCESS_TOKEN_EXPIRE_MINUTES", "1440"));
    if port.None? || minPool.None? || maxPool.None? || expire.None? then None
    else
      var origins := Getenv(env, "ALLOWED_ORIGINS", DefaultOrigins);
      JoinSplit(origins, ',');
      Some(Settings(
        DatabaseConfig(
          Getenv(env, "POSTGRES_HOST", "localhost"), port.value,
          Getenv(env, "POSTGRES_USER", "postgres"), Getenv(env, "POSTGRES_PASSWORD", "postgres"),
          Getenv(env, "POSTGRES_DB", "stack_radar"), minPool.value, maxPool.value),
        AuthConfig(Getenv(env, "SECRET_KEY", DefaultSecret), Getenv(env, "JWT_ALGORITHM", "HS256"), expire.value),
        AppConfig(DebugOn(Getenv(env, "DEBUG", "false")), Split(origins, ','), ApiV1Prefix)))
  }

  /** The numerals of the integer defaults parse to their values. */
  lemma DefaultNumerals()
    ensures ParseInt("5432") == Some(5432) && ParseInt("5") == Some(5)
    ensures ParseInt("20") == Some(20) && ParseInt("1440") == Some(1440)
  {
    assert NatToString(5) == "5" && NatToString(54) == "54" && NatToString(543) == "543";
    assert NatToString(5432) == "5432";
    assert NatToString(2) == "2" && NatToString(20) == "20";
    assert NatToString(1) == "1" && NatToString(14) == "14" && NatToString(144) == "144";
    assert NatToString(1440) == "1440";
    ParseIntToString(5432);
    ParseIntToString(5);
    ParseIntToString(20);
    ParseIntToString(1440);
  }

  lemma LocalOriginsLackCommas()
    ensures Lacks("http://localhost:5173", ',') && Lacks("http://localhost:3000", ',')
  {
  }

  lemma DefaultOriginsJoined()
    ensures DefaultOrigins == "http://localhost:5173" + [','] + "http://localhost:3000"
  {
  }

  /** The default origins are the two local front-end addresses. */
  lemma DefaultOriginList()
    ensures Split(DefaultOrigins, ',') == ["http://localhost:5173", "http://localhost:3000"]
  {
    var a := "http://localhost:5173";
    var b := "http://localhost:3000";
    DefaultOriginsJoined();
    LocalOriginsLackCommas();
    SplitAtSeparator(a, ',', b);
    SplitNoSeparator(b, ',');
  }

  /** With no variable set, every setting takes its default. */
  lemma DefaultSettings()
    ensures GetSettings(map[]) == Some(Settings(
      DatabaseConfig("localhost", 5432, "postgres", "postgres", "stack_radar", 5, 20),
      AuthConfig(DefaultSecret, "HS256", 60 * 24),
      AppConfig(false, ["http://localhost:5173", "http://localhost:3000"], "/api/v1")))
  {
    DefaultNumerals();
    DefaultOriginList();
    assert !DebugOn("false") by { assert ToLower("false")[0] == 'f'; }
  }

  /** `DEBUG` is read without regard to case, and anything but `true` means off. */
  lemma DebugFlag()
    ensures DebugOn("true") && DebugOn("TRUE") && DebugOn("True")
    ensures !DebugOn("false") && !DebugOn("1") && !DebugOn("yes") && !DebugOn(" true")
  {
    assert ToLower("TRUE") == "true" by {
      var l := ToLower("TRUE");
      assert l[0] == 't' && l[1] == 'r' && l[2] == 'u' && l[3] == 'e';
    }
    assert ToLower("True") == "true" by {
      var l := ToLower("True");
      assert l[0] == 't' && l[1] == 'r' && l[2] == 'u' && l[3] == 'e';
    }
    assert ToLower("true") == "true" by {
      var l := ToLower("true");
      assert l[0] == 't' && l[1] == 'r' && l[2] == 'u' && l[3] == 'e';
    }
    assert ToLower("false")[0] == 'f';
    assert |ToLower("1")| == 1;
    assert ToLower("yes")[0] == 'y';
    assert ToLower(" true")[0] == ' ';
  }

  /** Origins are not trimmed: a space after a comma stays in the next origin. */
  lemma OriginsKeepSpaces(env: map<string, string>)
    requires GetSettings(env).Some?
    requires "ALLOWED_ORIGINS" in env && env["ALLOWED_ORIGINS"] == "a, b"
    ensures GetSettings(env).value.app.allowedOrigins == ["a", " b"]
  {
    assert "a, b" == "a" + [','] + " b";
    SplitAtSeparator("a", ',', " b");
    SplitNoSeparator(" b", ',');
  }
}
