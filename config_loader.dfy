/** The configuration loader (`load_config`): once the document is parsed
    into a mapping, it checks that the required keys are present, in a fixed
    order, and hands the mapping back unchanged. */
module ConfigLoader {
  import opened Values

  /** A parsed configuration document. */
  type Config = map<string, Value>

  /** The keys the loader demands, in the order it checks them. */
  const RequiredKeys: seq<string> := ["seed", "window", "version"]

  function MissingKeyMessage(key: string): string {
    "Missing required config key: " + key
  }

  /** True when every required key is present. */
  predicate HasRequiredKeys(config: Config) {
    "seed" in config && "window" in config && "version" in config
  }

  /** Scans `keys` from index `from` and stops at the first one `config` lacks;
      returns `|keys|` when none is missing. */
  function FirstMissingFrom(keys: seq<string>, config: Config, from: nat): (r: nat)
    requires from <= |keys|
    ensures from <= r <= |keys|
    ensures forall j | from <= j < r :: keys[j] in config
    ensures r < |keys| ==> keys[r] !in config
    decreases |keys| - from
  {
    if from == |keys| then from
    else if keys[from] !in config then from
    else FirstMissingFrom(keys, config, from + 1)
  }

  /** `load_config` after parsing. It fails exactly when a required key is
      absent, naming the first absent key in the order seed, window, version;
      on success the mapping is returned as it came. */
  function LoadConfig(config: Config): (r: Result<Config>)
    ensures r.Ok? <==> HasRequiredKeys(config)
    ensures r.Ok? ==> r.value == config
    ensures "seed" !in config ==>
      r == Err(ValueError("Missing required config key: seed"))
    ensures "seed" in config && "window" !in config ==>
      r == Err(ValueError("Missing required config key: window"))
    ensures "seed" in config && "window" in config && "version" !in config ==>
      r == Err(ValueError("Missing required config key: version"))
  {
    var i := FirstMissingFrom(RequiredKeys, config, 0);
    assert RequiredKeys[0] == "seed" && RequiredKeys[1] == "window" && RequiredKeys[2] == "version";
    if i < |RequiredKeys| then Err(ValueError(MissingKeyMessage(RequiredKeys[i])))
    else Ok(config)
  }
}
