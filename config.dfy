/**
 * The configuration object: a nested mapping loaded from YAML, read by
 * dotted keys, and checked for the sections and entries the bot needs.
 * Loading the files and the environment is not part of this model; the
 * loaded mapping is the constructor's argument.
 */
module Configuration {

  /** A YAML value: a mapping, a string, a number, a list or null. */
  datatype Value =
    | Dict(entries: map<string, Value>)
    | Str(text: string)
    | Num(number: int)
    | List(items: seq<Value>)
    | Null

  datatype ConfigError =
    | ValueError(message: string)   // a required section or entry is missing
    | TypeError                     // `in` applied to null or a number

  datatype Option<T> = None | Some(value: T)

  // ---------------------------------------------------------------------
  // Dotted keys

  /** str.split('.'): the pieces between dots, empty ones included. */
  function Split(s: string): (parts: seq<string>)
    ensures |parts| >= 1
  {
    if s == [] then [""]
    else
      var rest := Split(s[1..]);
      if s[0] == '.' then [""] + rest
      else [[s[0]] + rest[0]] + rest[1..]
  }

  /** '.'.join(parts) */
  function Join(parts: seq<string>): string
    requires |parts| >= 1
  {
    if |parts| == 1 then parts[0] else parts[0] + "." + Join(parts[1..])
  }

  /** Splitting a key gives dot-free pieces that join back to the key. */
  lemma {:induction false} SplitJoins(s: string)
    ensures Join(Split(s)) == s
    ensures forall k :: 0 <= k < |Split(s)| ==> '.' !in Split(s)[k]
  {
    if s != [] {
      SplitJoins(s[1..]);
      var rest := Split(s[1..]);
      if s[0] == '.' {
        assert Split(s)[1..] == rest;
        assert s == [s[0]] + s[1..];
      } else {
        var parts := Split(s);
        if |rest| == 1 {
          assert parts == [[s[0]] + rest[0]];
        } else {
          assert parts[1..] == rest[1..];
          assert Join(rest) == rest[0] + "." + Join(rest[1..]);
        }
        assert s == [s[0]] + s[1..];
        forall k | 0 <= k < |parts|
          ensures '.' !in parts[k]
        {
          if k > 0 {
            assert parts[k] == rest[k];
          }
        }
      }
    }
  }

  /**
   * Following `keys` from `v` through nested mappings: a missing key reads
   * as null, and reaching something that is not a mapping before the keys
   * run out gives None.
   */
  function Resolve(v: Value, keys: seq<string>): Option<Value>
    decreases |keys|
  {
    if keys == [] then Some(v)
    else if !v.Dict? then None
    else Resolve(if keys[0] in v.entries then v.entries[keys[0]] else Null, keys[1..])
  }

  /** Resolving a longer path resolves its first part and then the rest from there. */
  lemma {:induction false} ResolveAppend(v: Value, a: seq<string>, b: seq<string>)
    ensures Resolve(v, a + b) == match Resolve(v, a) case None => None case Some(x) => Resolve(x, b)
    decreases |a|
  {
    if a == [] {
      assert a + b == b;
    } else if v.Dict? {
      var next := if a[0] in v.entries then v.entries[a[0]] else Null;
      assert (a + b)[1..] == a[1..] + b;
      ResolveAppend(next, a[1..], b);
    }
  }

  /** What `get` returns for a path: the resolved value, or `default` when the walk stops early. */
  function GetValue(config: map<string, Value>, keys: seq<string>, default: Value): Value
  {
    match Resolve(Dict(config), keys)
    case None => default
    case Some(x) => x
  }

  /** A missing last key gives null, not the default. */
  lemma MissingLastKeyIsNull(config: map<string, Value>, path: seq<string>, entries: map<string, Value>,
                             key: string, default: Value)
    requires Resolve(Dict(config), path) == Some(Dict(entries)) && key !in entries
    ensures GetValue(config, path + [key], default) == Null
  {
    ResolveAppend(Dict(config), path, [key]);
  }

  /** A missing key with more keys after it gives the default. */
  lemma MissingInnerKeyIsDefault(config: map<string, Value>, path: seq<string>, entries: map<string, Value>,
                                 key: string, more: seq<string>, default: Value)
    requires Resolve(Dict(config), path) == Some(Dict(entries)) && key !in entries && more != []
    ensures GetValue(config, path + [key] + more, default) == default
  {
    ResolveAppend(Dict(config), path, [key]);
    ResolveAppend(Dict(config), path + [key], more);
  }

  /** Reaching something other than a mapping with keys left gives the default. */
  lemma NonDictBeforeEndIsDefault(config: map<string, Value>, path: seq<string>, more: seq<string>, default: Value)
    requires Resolve(Dict(config), path).Some? && !Resolve(Dict(config), path).value.Dict? && more != []
    ensures GetValue(config, path + more, default) == default
  {
    ResolveAppend(Dict(config), path, more);
  }

  // ---------------------------------------------------------------------
  // Validation

  const REQUIRED_KEYS: seq<string> := ["helius", "solana", "tokens", "constants"]

  /** Python's `key in container`: keys of a mapping, substrings of a string, items of a list. */
  function Contains(container: Value, key: string): (r: Result<bool>)
    ensures container.Dict? ==> r == Ok(key in container.entries)
    ensures r.Err? <==> container.Null? || container.Num?
  {
    match container
    case Dict(entries) => Ok(key in entries)
    case Str(text) => Ok(Occurs(key, text))
    case List(items) => Ok(Str(key) in items)
    case _ => Err(TypeError)
  }

  datatype Result<T> = Ok(value: T) | Err(error: ConfigError)

  /** Whether `key` occurs in `text` as a substring. */
  function Occurs(key: string, text: string): bool
    decreases |text|
  {
    if key <= text then true
    else if text == [] then false
    else Occurs(key, text[1..])
  }

  /** The first required section the mapping lacks, in the order they are checked. */
  function FirstMissing(config: map<string, Value>, keys: seq<string>): (r: Option<string>)
    ensures r.Some? ==> r.value in keys && r.value !in config
    ensures r.None? <==> forall k :: 0 <= k < |keys| ==> keys[k] in config
  {
    if keys == [] then None
    else if keys[0] !in config then Some(keys[0])
    else FirstMissing(config, keys[1..])
  }

  /**
   * What _validate_config raises, if anything: the first missing section,
   * then a Helius section without `rpc_url`, then a Solana section without
   * `unit_budget` or `unit_price`.
   */
  function Validation(config: map<string, Value>): Option<ConfigError>
  {
    match FirstMissing(config, REQUIRED_KEYS)
    case Some(key) => Some(ValueError("Missing required configuration key: " + key))
    case None =>
      assert REQUIRED_KEYS[0] in config && REQUIRED_KEYS[1] in config;
      match Contains(config["helius"], "rpc_url")
      case Err(e) => Some(e)
      case Ok(false) => Some(ValueError("Missing Helius RPC URL configuration"))
      case Ok(true) =>
        match Contains(config["solana"], "unit_budget")
        case Err(e) => Some(e)
        case Ok(hasBudget) =>
          // The Solana section is a container here, so the second test cannot raise.
          if !hasBudget || !Contains(config["solana"], "unit_price").value
          then Some(ValueError("Missing Solana unit budget or price configuration"))
          else None
  }

  /**
   * A configuration whose sections are all mappings passes validation
   * exactly when the four sections are present, Helius has `rpc_url` and
   * Solana has `unit_budget` and `unit_price`.
   */
  lemma ValidationAcceptsIff(config: map<string, Value>)
    requires "helius" in config ==> config["helius"].Dict?
    requires "solana" in config ==> config["solana"].Dict?
    ensures Validation(config).None? <==>
      && "helius" in config && "solana" in config && "tokens" in config && "constants" in config
      && "rpc_url" in config["helius"].entries
      && "unit_budget" in config["solana"].entries
      && "unit_price" in config["solana"].entries
  {
    var sections := "helius" in config && "solana" in config && "tokens" in config && "constants" in config;
    assert FirstMissing(config, REQUIRED_KEYS).None? <==> sections by {
      assert REQUIRED_KEYS[0] == "helius" && REQUIRED_KEYS[1] == "solana";
      assert REQUIRED_KEYS[2] == "tokens" && REQUIRED_KEYS[3] == "constants";
    }
  }

  class Config {
    var config: map<string, Value>

    /** The object with its mapping loaded, before validation. */
    constructor(loaded: map<string, Value>)
      ensures config == loaded
    {
      config := loaded;
    }

    /**
     * __init__: load the mapping, then validate it; a mapping validation
     * rejects raises, so no configuration object holds one.
     */
    static method Load(loaded: map<string, Value>) returns (r: Result<Config>)
      ensures r.Err? <==> Validation(loaded).Some?
      ensures r.Err? ==> r.error == Validation(loaded).value
      ensures r.Ok? ==> fresh(r.value) && r.value.config == loaded && Validation(r.value.config).None?
    {
      var c := new Config(loaded);
      var failure := c.ValidateConfig();
      if failure.Some? {
        return Err(failure.value);
      }
      return Ok(c);
    }

    /**
     * get: walk the dotted key through nested mappings; a missing key reads
     * as null, and a non-mapping reached before the key ends gives `default`.
     */
    method Get(key: string, default: Value) returns (r: Value)
      ensures r == GetValue(config, Split(key), default)
    {
      var keys := Split(key);
      var value := Dict(config);
      for i := 0 to |keys|
        invariant Resolve(Dict(config), keys) == Resolve(value, keys[i..])
      {
        if value.Dict? {
          assert keys[i..][1..] == keys[i + 1..];
          value := if keys[i] in value.entries then value.entries[keys[i]] else Null;
        } else {
          return default;
        }
      }
      assert keys[|keys|..] == [];
      return value;
    }

    /** _validate_config: the required sections in order, then the Helius and Solana entries. */
    method ValidateConfig() returns (r: Option<ConfigError>)
      ensures r == Validation(config)
    {
      for i := 0 to |REQUIRED_KEYS|
        invariant FirstMissing(config, REQUIRED_KEYS) == FirstMissing(config, REQUIRED_KEYS[i..])
      {
        assert REQUIRED_KEYS[i..][1..] == REQUIRED_KEYS[i + 1..];
        if REQUIRED_KEYS[i] !in config {
          return Some(ValueError("Missing required configuration key: " + REQUIRED_KEYS[i]));
        }
      }
      assert REQUIRED_KEYS[|REQUIRED_KEYS|..] == [];

      var heliusConfig := config["helius"];
      var hasUrl := Contains(heliusConfig, "rpc_url");
      if hasUrl.Err? {
        return Some(hasUrl.error);
      }
      if !hasUrl.value {
        return Some(ValueError("Missing Helius RPC URL configuration"));
      }

      var solanaConfig := config["solana"];
      var hasBudget := Contains(solanaConfig, "unit_budget");
      if hasBudget.Err? {
        return Some(hasBudget.error);
      }
      if !hasBudget.value || !Contains(solanaConfig, "unit_price").value {
        return Some(ValueError("Missing Solana unit budget or price configuration"));
      }
      return None;
    }
  }
}
