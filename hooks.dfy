/**
 * `transaction_hook_exists`: whether the blockchain API already holds a hook
 * for the project address, judged from the list of hooks it returns.
 */
module Hooks {
  import opened PyBuiltins
  import Config

  /** A registered hook; only its address is consulted. */
  datatype Hook = Hook(address: string)

  method TransactionHookExists(hooks: seq<Hook>) returns (found: bool)
    ensures found <==> exists i :: 0 <= i < |hooks| && hooks[i].address == Config.HookAddress()
    // With the parenthesised project address, hooks on real addresses never count.
    ensures (forall i :: 0 <= i < |hooks| ==> IsHexString(hooks[i].address)) ==> !found
  {
    for i := 0 to |hooks|
      invariant forall j :: 0 <= j < i ==> hooks[j].address != Config.HookAddress()
    {
      if IsHexString(hooks[i].address) {
        Config.HexNeverMatchesHook(hooks[i].address);
      }
      if hooks[i].address == Config.HookAddress() {
        return true;
      }
    }
    return false;
  }
}
