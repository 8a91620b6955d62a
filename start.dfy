/**
 * The `start` command (cmd/start.go): validate the concurrency flag, find the
 * chain, settle the end height, build the list of heights, resolve the
 * configured actions and hand everything to ForEachBlock.
 */
module Start {
  import opened Wrappers
  import opened ChainTypes
  import opened Configuration
  import Format
  import Actions
  import Ibc
  import Indexer

  /** The flag values RunE reads (concurrent-blocks is an unsigned int). */
  datatype StartFlags = StartFlags(concurrentBlocks: nat, beginBlock: Height, endBlock: Height)

  /** What RunE hands to ForEachBlock. */
  datatype RunPlan = RunPlan(chain: ChainClientConfig, blocks: seq<Height>, actions: seq<Ibc.IBCTransferAction>, concurrentBlocks: nat)

  type Execute = (Ibc.IBCTransferAction, Block) -> Option<Error>

  function ConcurrencyError(concurrentBlocks: nat): Error {
    "invalid flag value " + Format.NatToDecimal(concurrentBlocks)
    + ", value of --concurrent-blocks must be greater than or equal to 1"
  }

  const NoActionsError: Error := "no block actions configured, check the actions section of your config"

  /** The heights begin, begin+1, ..., end-1. */
  function HeightsBetween(begin: Height, end: Height): (r: seq<Height>)
    ensures |r| == if begin < end then end - begin else 0
    ensures forall k :: 0 <= k < |r| ==> r[k] == begin + k
    decreases end - begin
  {
    if begin >= end then [] else [begin] + HeightsBetween(begin + 1, end)
  }

  /** The actions the configured names resolve to, in config order; unknown names are skipped. */
  function Resolved(names: seq<string>): seq<Ibc.IBCTransferAction> {
    if |names| == 0 then []
    else
      Resolved(names[..|names| - 1])
      + match Actions.GetBlockActionByName(names[|names| - 1]) case Ok(a) => [a] case Err(_) => []
  }

  /** How many configured names are registered action names. */
  function CountRegistered(names: seq<string>): nat {
    if |names| == 0 then 0
    else CountRegistered(names[..|names| - 1]) + (if names[|names| - 1] == Ibc.BlockActionName then 1 else 0)
  }

  /**
   * The checks of RunE in their order (lines 33-126). `setupErr` is the first
   * error of creating the chain client, connecting to the database or opening
   * the debug listener; `latest` is QueryLatestHeight's answer.
   */
  function Plan(flags: StartFlags, chains: seq<ChainClientConfig>, chainID: string, setupErr: Option<Error>,
                latest: Result<Height>, actionNames: seq<string>): (r: Result<RunPlan>)
    ensures flags.concurrentBlocks < 1 ==> r == Err(ConcurrencyError(flags.concurrentBlocks))
    ensures flags.concurrentBlocks >= 1 && FindChainConfig(chains, chainID).Err? ==> r == Err(NotConfiguredError(chainID))
    ensures flags.concurrentBlocks >= 1 && FindChainConfig(chains, chainID).Ok? && setupErr.Some?
      ==> r == Err(setupErr.value)
    ensures flags.concurrentBlocks >= 1 && FindChainConfig(chains, chainID).Ok? && setupErr.None?
      && flags.endBlock == 0 && latest.Err?
      ==> r == Err(latest.error)
    ensures flags.concurrentBlocks >= 1 && FindChainConfig(chains, chainID).Ok? && setupErr.None?
      && (flags.endBlock != 0 || latest.Ok?) && Resolved(actionNames) == []
      ==> r == Err(NoActionsError)
    ensures r.Ok? ==>
      && r.value.concurrentBlocks == flags.concurrentBlocks >= 1
      && r.value.chain == FindChainConfig(chains, chainID).value
      && r.value.chain.chainID == chainID
      && |r.value.actions| >= 1
      && r.value.actions == Resolved(actionNames)
      && (flags.endBlock == 0 ==> latest.Ok? && r.value.blocks == HeightsBetween(flags.beginBlock, latest.value))
      && (flags.endBlock != 0 ==> r.value.blocks == HeightsBetween(flags.beginBlock, flags.endBlock))
  {
    if flags.concurrentBlocks < 1 then Err(ConcurrencyError(flags.concurrentBlocks))
    else match FindChainConfig(chains, chainID)
      case Err(e) => Err(e)
      case Ok(chain) =>
        if setupErr.Some? then Err(setupErr.value)
        else if flags.endBlock == 0 && latest.Err? then Err(latest.error)
        else
          var end := if flags.endBlock == 0 then latest.value else flags.endBlock;
          var actions := Resolved(actionNames);
          if |actions| == 0 then Err(NoActionsError)
          else Ok(RunPlan(chain, HeightsBetween(flags.beginBlock, end), actions, flags.concurrentBlocks))
  }

  /** The height loop of lines 109-112. */
  method HeightRange(beginBlock: Height, endBlock: Height) returns (blocks: seq<Height>)
    ensures blocks == HeightsBetween(beginBlock, endBlock)
  {
    blocks := [];
    var i := beginBlock;
    while i < endBlock
      invariant beginBlock <= i && (i <= endBlock || i == beginBlock)
      invariant |blocks| == i - beginBlock
      invariant forall k :: 0 <= k < |blocks| ==> blocks[k] == beginBlock + k
      decreases endBlock - i
    {
      blocks := blocks + [i];
      i := i + 1;
    }
    assert |blocks| == |HeightsBetween(beginBlock, endBlock)|;
  }

  /** The action loop of lines 114-122. */
  method ResolveActions(names: seq<string>) returns (actions: seq<Ibc.IBCTransferAction>)
    ensures actions == Resolved(names)
  {
    actions := [];
    for k := 0 to |names|
      invariant actions == Resolved(names[..k])
    {
      var action := Actions.GetBlockActionByName(names[k]);
      assert names[..k + 1][..k] == names[..k];
      if action.Err? {
        continue;  // "Failed to get block action"
      }
      actions := actions + [action.value];
    }
    assert names[..|names|] == names;
  }

  /**
   * RunE (lines 29-134). `idx` is the indexer built at line 67; ForEachBlock's
   * result is returned as it is.
   */
  method RunE(cfg: Config, idx: Indexer.Indexer<Ibc.IBCTransferAction>, execute: Execute, flags: StartFlags,
              chainID: string, setupErr: Option<Error>, latest: Result<Height>) returns (err: Option<Error>)
    modifies idx`trace
    ensures match Plan(flags, cfg.chainConfigs, chainID, setupErr, latest, cfg.actions)
      case Err(e) => err == Some(e) && idx.trace == old(idx.trace)
      case Ok(p) =>
        var pass := Indexer.RunPass(idx.rpc, execute, p.actions, p.blocks);
        err == pass.err && idx.trace == old(idx.trace) + pass.trace
  {
    if flags.concurrentBlocks < 1 {
      return Some(ConcurrencyError(flags.concurrentBlocks));
    }
    var chainConfig := cfg.GetChainConfig(chainID);
    if chainConfig.Err? {
      return Some(chainConfig.error);
    }
    if setupErr.Some? {
      return setupErr;
    }
    var endBlock := flags.endBlock;
    if endBlock == 0 {
      if latest.Err? {
        return Some(latest.error);
      }
      endBlock := latest.value;
    }
    var blocks := HeightRange(flags.beginBlock, endBlock);
    var actions := ResolveActions(cfg.actions);
    if |actions| == 0 {
      return Some(NoActionsError);
    }
    err := idx.ForEachBlock(blocks, actions, execute, flags.concurrentBlocks);
  }

  // ---------------------------------------------------------------------------
  // Properties

  /** Resolution keeps exactly the registered names, each as the IBC transfer action. */
  lemma {:induction false} ResolvedKeepsRegisteredNames(names: seq<string>)
    ensures |Resolved(names)| == CountRegistered(names)
    ensures forall a <- Resolved(names) :: a == Ibc.NewIBCTransfer() && a.Name() in names
  {
    if |names| > 0 {
      var init := names[..|names| - 1];
      ResolvedKeepsRegisteredNames(init);
      forall a <- Resolved(names) ensures a.Name() in names {
        if a in Resolved(init) {
          var k :| 0 <= k < |init| && init[k] == a.Name();
          assert names[k] == init[k];
        } else {
          assert a.Name() == names[|names| - 1];
        }
      }
    }
  }

  /** No action resolves exactly when no configured name is registered. */
  lemma {:induction false} NoActionsIffNoneRegistered(names: seq<string>)
    ensures Resolved(names) == [] <==> forall k :: 0 <= k < |names| ==> names[k] != Ibc.BlockActionName
  {
    if |names| > 0 {
      var init := names[..|names| - 1];
      NoActionsIffNoneRegistered(init);
      assert forall k :: 0 <= k < |init| ==> init[k] == names[k];
    }
  }

  /** Resolution distributes over concatenation of the name list: config order is kept. */
  lemma {:induction false} ResolvedAppend(a: seq<string>, b: seq<string>)
    ensures Resolved(a + b) == Resolved(a) + Resolved(b)
    decreases |b|
  {
    if |b| == 0 {
      assert a + b == a;
    } else {
      var b' := b[..|b| - 1];
      assert (a + b)[..|a + b| - 1] == a + b';
      ResolvedAppend(a, b');
    }
  }

  /** The run goes ahead only with a valid concurrency, a configured chain and at least one action. */
  lemma PlanNeedsEveryCheck(flags: StartFlags, chains: seq<ChainClientConfig>, chainID: string, setupErr: Option<Error>,
                            latest: Result<Height>, actionNames: seq<string>)
    ensures Plan(flags, chains, chainID, setupErr, latest, actionNames).Ok? <==>
      && flags.concurrentBlocks >= 1
      && (exists i :: 0 <= i < |chains| && chains[i].chainID == chainID)
      && setupErr.None?
      && (flags.endBlock == 0 ==> latest.Ok?)
      && exists k :: 0 <= k < |actionNames| && actionNames[k] == Ibc.BlockActionName
  {
    NoActionsIffNoneRegistered(actionNames);
  }
}
