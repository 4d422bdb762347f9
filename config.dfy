/** Package `config`: the configuration record, the security rule type, the
    choice of environment name, of configuration directory and file name,
    and `LoadConfig`'s rule that a failed load yields a record holding only
    the environment name. The process environment, the working directory,
    path resolution and the YAML reader are parameters. */
module Config {
  import opened Util
  import Constant

  /** One entry of `security.authorizedRequests`: URL patterns of the form
      `<path glob>:<method glob>`, an access kind as configured, and the
      roles and permissions the role and permission checks consult. */
  datatype AuthorizedRequest = AuthorizedRequest(
    urls: seq<string>,
    access: string,
    roles: seq<string>,
    permissions: seq<string>)

  datatype Database = Database(
    host: string, port: string, username: string, password: string, dbname: string,
    maxIdleConns: Int64, maxOpenConns: Int64, connMaxLifetime: string)

  datatype Server = Server(port: string)

  datatype Binding = Binding(queue: string, routingKey: Option<string>)
  datatype Producer = Producer(exchange: string, bindings: map<string, Binding>)
  datatype Consumer = Consumer(queue: string)
  datatype RabbitMQ = RabbitMQ(
    host: string, port: string, username: string, password: string,
    producer: Option<Producer>, consumer: Option<Consumer>)

  datatype Jwt = Jwt(
    realm: string, signingAlg: string, secret: string,
    expiredTime: string, refreshExpTime: string, longRefreshExpTime: string)

  datatype I18n = I18n(langs: seq<string>)

  datatype Cors = Cors(
    allowOrigins: seq<string>, allowMethods: seq<string>, allowHeaders: seq<string>,
    exposeHeaders: seq<string>, allowCredentials: bool, maxAge: string)

  datatype Security = Security(authorizedRequests: seq<AuthorizedRequest>)
  datatype Log = Log(level: string)
  datatype Swagger = Swagger(url: string)

  /** The whole configuration record. Nil slices, maps and pointers are the
      empty sequence, the empty map and `None`. */
  datatype Config = Config(
    env: string,
    database: Database,
    server: Server,
    rabbitMQ: RabbitMQ,
    jwt: Jwt,
    i18n: I18n,
    cors: Cors,
    hostUrl: map<string, string>,
    security: Security,
    log: Log,
    swagger: Swagger)

  /** Go's zero value of `Config`. */
  function ZeroConfig(): Config {
    Config(
      "",
      Database("", "", "", "", "", 0, 0, ""),
      Server(""),
      RabbitMQ("", "", "", "", None, None),
      Jwt("", "", "", "", "", ""),
      I18n([]),
      Cors([], [], [], [], false, ""),
      map[],
      Security([]),
      Log(""),
      Swagger(""))
  }

  /** The record `Config{Env: env}`: every field zero except the name. */
  function EnvOnly(env: string): (c: Config)
    ensures c.env == env
    ensures c.(env := "") == ZeroConfig()
  {
    ZeroConfig().(env := env)
  }

  /** `os.Getenv`: an unset variable reads as the empty string. */
  function Getenv(environ: map<string, string>, key: string): string {
    if key in environ then environ[key] else ""
  }

  /** The environment name: `ENVIRONMENT` if set and non-empty, otherwise
      `ENV` if set and non-empty, otherwise the default `PROD`. */
  function EnvName(environ: map<string, string>): (env: string)
    ensures env != ""
    ensures env in {Getenv(environ, "ENVIRONMENT"), Getenv(environ, "ENV"), Constant.DefaultEnv}
  {
    if Getenv(environ, "ENVIRONMENT") != "" then Getenv(environ, "ENVIRONMENT")
    else if Getenv(environ, "ENV") != "" then Getenv(environ, "ENV")
    else Constant.DefaultEnv
  }

  /** `extractEnv`: reassigns one local through the fallback chain. */
  method ExtractEnv(environ: map<string, string>) returns (env: string)
    ensures Getenv(environ, "ENVIRONMENT") != "" ==> env == Getenv(environ, "ENVIRONMENT")
    ensures Getenv(environ, "ENVIRONMENT") == "" && Getenv(environ, "ENV") != "" ==> env == Getenv(environ, "ENV")
    ensures Getenv(environ, "ENVIRONMENT") == "" && Getenv(environ, "ENV") == "" ==> env == Constant.DefaultEnv
    ensures env != ""
    ensures env == EnvName(environ)
  {
    env := Getenv(environ, "ENVIRONMENT");
    if |env| == 0 {
      env := Getenv(environ, "ENV");
    }
    if |env| == 0 {
      env := Constant.DefaultEnv;
    }
  }

  function LowerChar(c: char): char {
    if 'A' <= c <= 'Z' then (c as int + 32) as char else c
  }

  /** `strings.ToLower`, restricted to ASCII letters. */
  function ToLower(s: string): (r: string)
    ensures |r| == |s|
    ensures forall i :: 0 <= i < |s| ==> r[i] == LowerChar(s[i])
    ensures forall i :: 0 <= i < |r| ==> !('A' <= r[i] <= 'Z')
  {
    seq(|s|, i requires 0 <= i < |s| => LowerChar(s[i]))
  }

  /** Lower-casing twice is lower-casing once. */
  lemma ToLowerIdempotent(s: string)
    ensures ToLower(ToLower(s)) == ToLower(s)
  {
  }

  /** A path as `filepath.Abs` returns it: absolute and clean, so no empty
      segment and no trailing slash except on the root itself. */
  predicate CleanAbsolute(p: string) {
    |p| >= 1 && p[0] == '/' &&
    (forall i :: 0 <= i < |p| - 1 ==> !(p[i] == '/' && p[i + 1] == '/')) &&
    (p == "/" || p[|p| - 1] != '/')
  }

  /** The directory searched for the configuration file. */
  function ConfigDir(path: string): (dir: string)
    ensures path == "/" ==> dir == "/config"
    ensures path != "/" ==> dir == path + "/config"
  {
    if path == "/" then "/config" else path + "/config"
  }

  /** The root is handled apart so that the directory is `/config` and not
      `//config`: for every clean absolute working path the directory is
      again clean and absolute and ends in the segment `config`. */
  lemma ConfigDirClean(path: string)
    requires CleanAbsolute(path)
    ensures CleanAbsolute(ConfigDir(path))
    ensures var d := ConfigDir(path); |d| >= 7 && d[|d| - 7..] == "/config"
  {
  }

  /** The configuration file name (without extension) for an environment. */
  function ConfigName(env: string): (name: string)
    ensures |name| == |env| + 4 && name[..4] == "app-"
    ensures name[4..] == ToLower(env)
  {
    "app-" + ToLower(env)
  }

  /** Environment names that differ only in case select the same file; the
      default environment selects `app-prod`. */
  lemma ConfigNameIgnoresCase(e1: string, e2: string)
    requires ToLower(e1) == ToLower(e2)
    ensures ConfigName(e1) == ConfigName(e2)
    ensures ConfigName(Constant.DefaultEnv) == "app-prod"
  {
  }

  /** What `LoadConfig` reaches outside the process: `os.Getwd`,
      `filepath.Abs`, and reading plus decoding the YAML file found in a
      directory under a name (`viper.ReadInConfig` then `viper.Unmarshal`). */
  datatype Platform = Platform(
    getwd: Result<string>,
    abs: string -> Result<string>,
    read: (string, string) -> Result<Config>)

  /** `LoadConfig`: returns the decoded record and no error, or, on any
      error, a record holding only the environment name together with that
      error; a failing `filepath.Abs` panics instead (`getAbsPath`). */
  method LoadConfig(environ: map<string, string>, os: Platform) returns (r: Outcome<(Config, Option<Error>)>)
    ensures os.getwd.Err? ==> r == Return((EnvOnly(EnvName(environ)), Some(os.getwd.error)))
    ensures os.getwd.Ok? && os.abs(os.getwd.value).Err? ==> r == Panic(os.abs(os.getwd.value).error)
    ensures os.getwd.Ok? && os.abs(os.getwd.value).Ok? ==>
      var read := os.read(ConfigDir(os.abs(os.getwd.value).value), ConfigName(EnvName(environ)));
      r == Return(if read.Ok? then (read.value, None) else (EnvOnly(EnvName(environ)), Some(read.error)))
    ensures r.Return? && r.value.1.Some? ==> r.value.0 == EnvOnly(EnvName(environ))
    ensures r.Panic? <==> os.getwd.Ok? && os.abs(os.getwd.value).Err?
  {
    var env := ExtractEnv(environ);
    var c := ZeroConfig();
    var err: Option<Error> := None;
    match os.getwd {
      case Err(e) =>
        err := Some(e);
      case Ok(pwd) =>
        var abs := os.abs(pwd);
        if abs.Err? {
          return Panic(abs.error);
        }
        var path := abs.value;
        var dir := ConfigDir(path);
        var name := ConfigName(env);
        var read := os.read(dir, name);
        match read {
          case Err(e) =>
            err := Some(e);
          case Ok(decoded) =>
            c := decoded;
        }
    }
    // the deferred closure: on error, replace the result by Config{Env: env}
    if err.Some? {
      c := EnvOnly(env);
    }
    return Return((c, err));
  }
}
