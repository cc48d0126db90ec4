/** Process configuration as key/value pairs: `os.getenv` and
    `dotenv.load_dotenv()`. Reading the `.env` file itself is not modelled;
    its parsed contents are a map. */
module Environment {
  import opened Results

  type Env = map<string, string>

  /** `os.getenv(key)`: None when the variable is not set. */
  function Lookup(env: Env, key: string): (r: Option<string>)
    ensures r.Some? <==> key in env
    ensures r.Some? ==> r.value == env[key]
  {
    if key in env then Some(env[key]) else None
  }

  /** `os.getenv(key, default)`: the default applies only to an unset
      variable, never to one set to the empty string. */
  function GetEnv(env: Env, key: string, default: string): (r: string)
    ensures key !in env ==> r == default
    ensures key in env ==> r == env[key]
  {
    match Lookup(env, key)
    case Some(v) => v
    case None => default
  }

  /** `load_dotenv()` with its default `override=False`: every variable of
      the `.env` file is added to the process environment unless the
      process environment already sets it. */
  function LoadDotenv(process: Env, dotenv: Env): (r: Env)
    ensures r.Keys == process.Keys + dotenv.Keys
    ensures forall k :: k in process ==> r[k] == process[k]
    ensures forall k :: k in dotenv && k !in process ==> r[k] == dotenv[k]
  {
    map k | k in process.Keys + dotenv.Keys :: if k in process then process[k] else dotenv[k]
  }
}
