/**
 * The block-action registry (cmd/actions.go): a configured action name is
 * turned into an action value. Only the IBC transfer action is registered.
 */
module Actions {
  import opened Wrappers
  import Ibc

  const UnknownActionPrefix: string := "there is no block action configured with the name "

  /**
   * GetBlockActionByName (lines 16-23). The Config receiver is never read, so
   * it is not a parameter: the result depends on `name` alone.
   */
  function GetBlockActionByName(name: string): (r: Result<Ibc.IBCTransferAction>)
    ensures r.Ok? <==> name == Ibc.BlockActionName
    ensures r.Ok? ==> r.value == Ibc.NewIBCTransfer() && r.value.Name() == name
    ensures r.Err? ==> r.error == UnknownActionPrefix + name
  {
    if name == Ibc.BlockActionName then Ok(Ibc.NewIBCTransfer())
    else Err(UnknownActionPrefix + name)
  }

  /** Looking up the name of a resolved action resolves it again to the same action. */
  lemma ActionNameRoundTrip(name: string)
    requires GetBlockActionByName(name).Ok?
    ensures GetBlockActionByName(GetBlockActionByName(name).value.Name()) == GetBlockActionByName(name)
  {
  }
}
