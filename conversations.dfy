/**
 * The resolution step of `save_data`: before the conversation table is
 * written out, every entry still waiting on an asynchronous handler (a pair
 * whose second element is a promise) is replaced by the state the promise
 * yields, or by the pair's first element when the promise raised.
 */
module Conversations {
  import opened PyBuiltins

  /** A conversation key: the chat and user ids the handler keys on. */
  type ChatKey = seq<int>

  /**
   * A stored value: Python's `None`, a state, a tuple, or a promise with its
   * eventual result (the Option is None when `result()` raises; a promise
   * that returns Python's `None` holds `Some(NoneValue)`).
   */
  datatype Value = NoneValue | State(state: int) | Tuple(items: seq<Value>) | Promise(result: Option<Value>)

  /** A 2-tuple whose second element is a promise. */
  predicate IsPending(v: Value)
  {
    v.Tuple? && |v.items| == 2 && v.items[1].Promise?
  }

  method ResolveConversations(conversations: map<ChatKey, Value>) returns (resolved: map<ChatKey, Value>)
    ensures resolved.Keys == conversations.Keys
    ensures forall k :: k in conversations && !IsPending(conversations[k]) ==>
      resolved[k] == conversations[k]
    ensures forall k :: k in conversations && IsPending(conversations[k]) && conversations[k].items[1].result.Some? ==>
      resolved[k] == conversations[k].items[1].result.value
    ensures forall k :: k in conversations && IsPending(conversations[k]) && conversations[k].items[1].result.None? ==>
      resolved[k] == conversations[k].items[0]
  {
    resolved := map[];
    var remaining := conversations.Keys;
    while remaining != {}
      invariant remaining <= conversations.Keys
      invariant resolved.Keys == conversations.Keys - remaining
      invariant forall k :: k in resolved && !IsPending(conversations[k]) ==>
        resolved[k] == conversations[k]
      invariant forall k :: k in resolved && IsPending(conversations[k]) && conversations[k].items[1].result.Some? ==>
        resolved[k] == conversations[k].items[1].result.value
      invariant forall k :: k in resolved && IsPending(conversations[k]) && conversations[k].items[1].result.None? ==>
        resolved[k] == conversations[k].items[0]
      decreases remaining
    {
      var k :| k in remaining;
      var v := conversations[k];
      if IsPending(v) {
        var newState;
        match v.items[1].result {
          case Some(r) => newState := r;
          case None => newState := v.items[0];
        }
        resolved := resolved[k := newState];
      } else {
        resolved := resolved[k := v];
      }
      remaining := remaining - {k};
    }
  }
}
