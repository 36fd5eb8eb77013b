/**
 * The `move.yml` configuration (inc/Config.php): a map from environment name
 * to that environment's section, with a mandatory `local` section. Parsing
 * the YAML text is outside the model: the loader receives whether the file
 * exists and what the parser produced.
 */
module Config {
  import opened Wrappers

  const LOCAL := "local"

  /** The `db` block of a section; an absent `host` falls back to localhost. */
  datatype Db = Db(host: Option<string>, user: string, password: string, name: string)

  /** One environment section. `ssh` absent means the environment is local;
      absent `exclude` and `not_push` lists are empty. */
  datatype EnvConf = EnvConf(
    wpPath: string,
    ssh: Option<string>,
    vhost: string,
    exclude: seq<string>,
    notPush: seq<string>,
    db: Db)

  /** What the YAML parser returns: top-level keys, each with a section or
      with null (a key written without a value). */
  type Document = map<string, Option<EnvConf>>

  datatype ConfigError =
    | FileNotFound(path: string)
    | ParseFailed(message: string)
    | LocalSectionMissing
    | EnvNotDefined(env: string)

  /** PHP's `isset($config[$key])`: the key is there and its value is not null. */
  predicate IsSet(doc: Document, key: string) {
    key in doc && doc[key].Some?
  }

  /** A loaded configuration; the constructor only ever builds valid ones. */
  datatype Store = Store(doc: Document) {
    predicate Valid() {
      IsSet(doc, LOCAL)
    }
  }

  /** `new Config($config_file)`: stops when the file is absent, when it does
      not parse, and when it has no `local` section; otherwise keeps the parsed
      document as it is. */
  function Load(path: string, fileExists: bool, parsed: Result<Document, string>): (r: Result<Store, ConfigError>)
    ensures r.Success? <==> fileExists && parsed.Success? && IsSet(parsed.value, LOCAL)
    ensures r.Success? ==> r.value.Valid() && r.value.doc == parsed.value
    ensures !fileExists ==> r == Failure(FileNotFound(path))
    ensures fileExists && parsed.Failure? ==> r == Failure(ParseFailed(parsed.error))
    ensures fileExists && parsed.Success? && !IsSet(parsed.value, LOCAL) ==> r == Failure(LocalSectionMissing)
  {
    if !fileExists then Failure(FileNotFound(path))
    else match parsed
      case Failure(message) => Failure(ParseFailed(message))
      case Success(doc) => if IsSet(doc, LOCAL) then Success(Store(doc)) else Failure(LocalSectionMissing)
  }

  /** `get_env_config($env)`: the section stored under `env`, unchanged, or
      an error when there is none. */
  function GetEnvConfig(store: Store, env: string): (r: Result<EnvConf, ConfigError>)
    ensures r.Success? <==> IsSet(store.doc, env)
    ensures r.Success? ==> store.doc[env] == Some(r.value)
    ensures r.Failure? ==> r.error == EnvNotDefined(env)
  {
    if IsSet(store.doc, env) then Success(store.doc[env].value) else Failure(EnvNotDefined(env))
  }

  /** `get_local_config()`: the `local` section, which a loaded store always has. */
  function GetLocalConfig(store: Store): (r: EnvConf)
    requires store.Valid()
    ensures store.doc[LOCAL] == Some(r)
  {
    store.doc[LOCAL].value
  }

  /** Asking for the environment named `local` gives the local section. */
  lemma LocalLookupAgrees(store: Store)
    requires store.Valid()
    ensures GetEnvConfig(store, LOCAL) == Success(GetLocalConfig(store))
  {
  }
}
