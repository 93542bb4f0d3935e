/**
 * The configuration file as the deployer sees it once TOML has parsed it:
 * sections (`ai`, `paths`, `container`, or any other) holding scalar values.
 */
module Values {
  import opened PyText

  datatype Option<T> = None | Some(value: T)

  datatype Result<T, E> = Ok(value: T) | Err(error: E)

  /** A scalar value of the configuration file. */
  datatype Value = Str(s: string) | Int(i: int) | Bool(b: bool)

  /** One `[section]` of the configuration file. */
  type Table = map<string, Value>

  /** The parsed configuration file: section name to table. */
  type Config = map<string, Table>

  /** Python truthiness of a value, as `if not value` tests it. */
  predicate Truthy(v: Value)
  {
    match v
    case Str(s) => s != ""
    case Int(i) => i != 0
    case Bool(b) => b
  }

  /**
   * `config[section][key]`: None where that subscript raises KeyError, which
   * is also where `config.get(section, {}).get(key)` yields None.
   */
  function Lookup(c: Config, section: string, key: string): Option<Value>
  {
    if section in c && key in c[section] then Some(c[section][key]) else None
  }

  /** `config.get(section, {}).get(key)` is present and truthy. */
  predicate Filled(c: Config, section: string, key: string)
  {
    Lookup(c, section, key).Some? && Truthy(Lookup(c, section, key).value)
  }

  /** `str(v)`, which is also what an f-string placeholder makes of `v`. */
  function Render(v: Value): string
  {
    match v
    case Str(s) => s
    case Int(i) => Decimal(i)
    case Bool(b) => if b then "True" else "False"
  }

  /** The exceptions the deployer raises and does not catch. */
  datatype Fault =
    | ConfigUnreadable                        // tomllib cannot parse the file
    | MissingKey(section: string, key: string) // KeyError on config[section][key]
    | NotAPath(value: Value)                  // TypeError from Path() on a non-string
}
