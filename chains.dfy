/**
 * Adding chain configs (cmd/chains.go): from a JSON file, or by looking the
 * requested names up in the cosmos chain registry. The registry is an oracle:
 * `ListChains` is a Result given up front, and the combined GetChain and
 * GetChainConfig answer for a name is `lookup(name, j)` at registry entry `j`
 * of the inner loop.
 */
module Chains {
  import opened Wrappers
  import opened Configuration

  /** What GetChain followed by GetChainConfig yields for a name. */
  datatype RegistryReply =
    | NotRetrieved(error: Error)   // GetChain failed: "Error retrieving chain"
    | NotGenerated(error: Error)   // GetChainConfig failed: "Error generating chain config"
    | Generated(config: ChainClientConfig)

  type Lookup = (string, nat) -> RegistryReply

  /** The error to return, if any, and the chain table afterwards. */
  datatype AddOutcome = AddOutcome(err: Option<Error>, chains: seq<ChainClientConfig>)

  /** The outcome of AddChainConfig as seen by the loop. */
  function AddOutcomeOf(chains: seq<ChainClientConfig>, cc: ChainClientConfig): AddOutcome {
    match AddChain(chains, cc)
    case Err(e) => AddOutcome(Some(e), chains)
    case Ok(c) => AddOutcome(None, c)
  }

  /**
   * The inner loop for one requested name, from registry entry `j` on, with the
   * `found` flag as it stands. `found` is never reset, so once the name has been
   * seen every later entry retries the lookup until one succeeds.
   */
  function ScanRegistry(name: string, all: seq<string>, lookup: Lookup, j: nat, found: bool, chains: seq<ChainClientConfig>): AddOutcome
    decreases |all| - j
  {
    if j >= |all| then AddOutcome(None, chains)
    else
      var found' := found || name == all[j];
      if !found' then ScanRegistry(name, all, lookup, j + 1, found', chains)
      else match lookup(name, j)
        case Generated(cc) => AddOutcomeOf(chains, cc)
        case _ => ScanRegistry(name, all, lookup, j + 1, found', chains)
  }

  /** The outer loop from requested name `i` on; an add error stops everything. */
  function AddFromRegistry(names: seq<string>, all: seq<string>, lookup: Lookup, i: nat, chains: seq<ChainClientConfig>): AddOutcome
    decreases |names| - i
  {
    if i >= |names| then AddOutcome(None, chains)
    else
      var o := ScanRegistry(names[i], all, lookup, 0, false, chains);
      if o.err.Some? then o else AddFromRegistry(names, all, lookup, i + 1, o.chains)
  }

  /** addChainConfigsFromRegistry: a failed ListChains is returned before anything is added. */
  function RegistryAdd(listed: Result<seq<string>>, names: seq<string>, lookup: Lookup, chains: seq<ChainClientConfig>): AddOutcome {
    match listed
    case Err(e) => AddOutcome(Some(e), chains)
    case Ok(all) => AddFromRegistry(names, all, lookup, 0, chains)
  }

  /** addChainConfigFromFile: `fromFile` is the outcome of stat, read and JSON decoding. */
  function FileAdd(fromFile: Result<ChainClientConfig>, chains: seq<ChainClientConfig>): AddOutcome {
    match fromFile
    case Err(e) => AddOutcome(Some(e), chains)
    case Ok(cc) => AddOutcomeOf(chains, cc)
  }

  /** The RunE of chainsAddCmd: the file branch when `file` is set, else the registry; then the config is written. */
  function ChainsAdd(file: string, fromFile: Result<ChainClientConfig>, listed: Result<seq<string>>, names: seq<string>,
                     lookup: Lookup, overwrite: Option<Error>, chains: seq<ChainClientConfig>): AddOutcome {
    var o := if file != "" then FileAdd(fromFile, chains) else RegistryAdd(listed, names, lookup, chains);
    if o.err.Some? then o else AddOutcome(overwrite, o.chains)
  }

  /** addChainConfigsFromRegistry (lines 150-209). */
  method AddChainConfigsFromRegistry(cfg: Config, listed: Result<seq<string>>, lookup: Lookup, chains: seq<string>)
    returns (err: Option<Error>)
    modifies cfg`chainConfigs
    ensures var o := RegistryAdd(listed, chains, lookup, old(cfg.chainConfigs));
      err == o.err && cfg.chainConfigs == o.chains
  {
    if listed.Err? {
      return Some(listed.error);
    }
    var allChains := listed.value;
    ghost var goal := AddFromRegistry(chains, allChains, lookup, 0, cfg.chainConfigs);
    for i := 0 to |chains|
      invariant goal == AddFromRegistry(chains, allChains, lookup, i, cfg.chainConfigs)
    {
      var chain := chains[i];
      ghost var scan := ScanRegistry(chain, allChains, lookup, 0, false, cfg.chainConfigs);
      var found := false;
      for j := 0 to |allChains|
        invariant scan == ScanRegistry(chain, allChains, lookup, j, found, cfg.chainConfigs)
      {
        if chain == allChains[j] {
          found := true;
        }
        if !found {
          continue;  // "Unable to find chain"
        }
        var reply := lookup(chain, j);
        if !reply.Generated? {
          continue;  // "Error retrieving chain" or "Error generating chain config"
        }
        var addErr := cfg.AddChainConfig(reply.config);
        if addErr.Some? {
          return addErr;  // "Failed to add chain to config"
        }
        break;
      }
    }
    return None;
  }

  /** addChainConfigFromFile (lines 126-146). */
  method AddChainConfigFromFile(cfg: Config, fromFile: Result<ChainClientConfig>) returns (err: Option<Error>)
    modifies cfg`chainConfigs
    ensures var o := FileAdd(fromFile, old(cfg.chainConfigs));
      err == o.err && cfg.chainConfigs == o.chains
  {
    if fromFile.Err? {
      return Some(fromFile.error);
    }
    err := cfg.AddChainConfig(fromFile.value);
  }

  /** The RunE of chainsAddCmd (lines 46-65); `overwrite` is what OverwriteConfig returns. */
  method RunChainsAdd(cfg: Config, file: string, fromFile: Result<ChainClientConfig>, listed: Result<seq<string>>,
                      args: seq<string>, lookup: Lookup, overwrite: Option<Error>) returns (err: Option<Error>)
    modifies cfg`chainConfigs
    ensures var o := ChainsAdd(file, fromFile, listed, args, lookup, overwrite, old(cfg.chainConfigs));
      err == o.err && cfg.chainConfigs == o.chains
  {
    if file != "" {
      err := AddChainConfigFromFile(cfg, fromFile);
    } else {
      err := AddChainConfigsFromRegistry(cfg, listed, lookup, args);
    }
    if err.Some? {
      return err;
    }
    return overwrite;
  }

  // ---------------------------------------------------------------------------
  // Properties

  /** A name that is not in the registry list adds nothing and is not an error. */
  lemma {:induction false} AbsentNameAddsNothing(name: string, all: seq<string>, lookup: Lookup, j: nat, chains: seq<ChainClientConfig>)
    requires forall k :: j <= k < |all| ==> all[k] != name
    ensures ScanRegistry(name, all, lookup, j, false, chains) == AddOutcome(None, chains)
    decreases |all| - j
  {
    if j < |all| {
      AbsentNameAddsNothing(name, all, lookup, j + 1, chains);
    }
  }

  /**
   * Once the name has been seen, the first registry entry (from `j` on) whose
   * lookup succeeds decides the outcome, whatever name that entry holds.
   */
  lemma {:induction false} FoundRetriesLaterEntries(name: string, all: seq<string>, lookup: Lookup, j: nat, m: nat, chains: seq<ChainClientConfig>)
    requires j <= m < |all|
    requires forall k :: j <= k < m ==> !lookup(name, k).Generated?
    requires lookup(name, m).Generated?
    ensures ScanRegistry(name, all, lookup, j, true, chains) == AddOutcomeOf(chains, lookup(name, m).config)
    decreases m - j
  {
    if j < m {
      FoundRetriesLaterEntries(name, all, lookup, j + 1, m, chains);
    }
  }

  /** A name adds at most one config, and only on an error-free scan; an error changes nothing. */
  lemma {:induction false} ScanAddsAtMostOne(name: string, all: seq<string>, lookup: Lookup, j: nat, found: bool, chains: seq<ChainClientConfig>)
    ensures var o := ScanRegistry(name, all, lookup, j, found, chains);
      && (o.err.Some? ==> o.chains == chains)
      && (o.chains == chains || exists k :: j <= k < |all| && lookup(name, k).Generated?
                                          && o.chains == chains + [lookup(name, k).config])
    decreases |all| - j
  {
    if j < |all| {
      ScanAddsAtMostOne(name, all, lookup, j + 1, found || name == all[j], chains);
    }
  }

  /**
   * Names are processed in order: the table only grows, by at most one entry
   * per requested name, and an add error keeps what earlier names added.
   */
  lemma {:induction false} RegistryKeepsEarlierChains(names: seq<string>, all: seq<string>, lookup: Lookup, i: nat, chains: seq<ChainClientConfig>)
    requires i <= |names|
    ensures var o := AddFromRegistry(names, all, lookup, i, chains);
      |chains| <= |o.chains| <= |chains| + (|names| - i) && o.chains[..|chains|] == chains
    decreases |names| - i
  {
    if i < |names| {
      var o := ScanRegistry(names[i], all, lookup, 0, false, chains);
      ScanAddsAtMostOne(names[i], all, lookup, 0, false, chains);
      if o.err.None? {
        RegistryKeepsEarlierChains(names, all, lookup, i + 1, o.chains);
        var r := AddFromRegistry(names, all, lookup, i + 1, o.chains);
        assert r.chains[..|o.chains|][..|chains|] == r.chains[..|chains|];
      }
    }
  }

  /** Chain IDs stay non-empty and distinct through any registry add. */
  lemma {:induction false} RegistryKeepsChainsValid(names: seq<string>, all: seq<string>, lookup: Lookup, i: nat, chains: seq<ChainClientConfig>)
    requires ValidChains(chains)
    ensures ValidChains(AddFromRegistry(names, all, lookup, i, chains).chains)
    decreases |names| - i
  {
    if i < |names| {
      ScanKeepsChainsValid(names[i], all, lookup, 0, false, chains);
      var o := ScanRegistry(names[i], all, lookup, 0, false, chains);
      if o.err.None? {
        RegistryKeepsChainsValid(names, all, lookup, i + 1, o.chains);
      }
    }
  }

  lemma {:induction false} ScanKeepsChainsValid(name: string, all: seq<string>, lookup: Lookup, j: nat, found: bool, chains: seq<ChainClientConfig>)
    requires ValidChains(chains)
    ensures ValidChains(ScanRegistry(name, all, lookup, j, found, chains).chains)
    decreases |all| - j
  {
    if j < |all| {
      var found' := found || name == all[j];
      if found' && lookup(name, j).Generated? {
        AddKeepsChainsValid(chains, lookup(name, j).config);
      } else {
        ScanKeepsChainsValid(name, all, lookup, j + 1, found', chains);
      }
    }
  }

  /** The file branch never consults the registry, and the registry branch never reads the file. */
  lemma ChainsAddBranches(file: string, fromFile: Result<ChainClientConfig>, listed: Result<seq<string>>, names: seq<string>,
                          lookup: Lookup, overwrite: Option<Error>, chains: seq<ChainClientConfig>,
                          listed2: Result<seq<string>>, fromFile2: Result<ChainClientConfig>)
    ensures file != "" ==> ChainsAdd(file, fromFile, listed, names, lookup, overwrite, chains)
                           == ChainsAdd(file, fromFile, listed2, [], lookup, overwrite, chains)
    ensures file == "" ==> ChainsAdd(file, fromFile, listed, names, lookup, overwrite, chains)
                           == ChainsAdd(file, fromFile2, listed, names, lookup, overwrite, chains)
  {
  }

  /** An add error ends the run with that error: names after it are never looked up. */
  lemma {:induction false} RegistryErrorIgnoresLaterNames(names: seq<string>, rest: seq<string>, all: seq<string>, lookup: Lookup,
                                                          i: nat, chains: seq<ChainClientConfig>)
    requires AddFromRegistry(names, all, lookup, i, chains).err.Some?
    ensures AddFromRegistry(names + rest, all, lookup, i, chains) == AddFromRegistry(names, all, lookup, i, chains)
    decreases |names| - i
  {
    assert (names + rest)[i] == names[i];
    var o := ScanRegistry(names[i], all, lookup, 0, false, chains);
    if o.err.None? {
      RegistryErrorIgnoresLaterNames(names, rest, all, lookup, i + 1, o.chains);
    }
  }
}
