/**
 * Command handlers as fixed plans: client calls in order, usually followed by a
 * refresh request. A call that raises ends the handler there, so nothing after it
 * runs and no refresh is requested.
 */
module Commands {
  import opened Wrappers
  import opened Api
  import opened Calls

  datatype Action = Invoke(call: Call) | RequestRefresh

  /** What a handler did: the actions that took place, and the exception that ended it, if any. */
  datatype Outcome = Outcome(performed: seq<Action>, error: Option<Error>)

  /** `calls` in order, then `async_request_refresh()`. */
  function ThenRefresh(calls: seq<Call>): (plan: seq<Action>)
    ensures |plan| == |calls| + 1 && plan[|calls|] == RequestRefresh
    ensures forall k :: 0 <= k < |calls| ==> plan[k] == Invoke(calls[k])
  {
    if calls == [] then [RequestRefresh] else [Invoke(calls[0])] + ThenRefresh(calls[1..])
  }

  /** The action does not raise: a refresh request never does, a call does when the client raises. */
  predicate Completes(b: Backend, a: Action) {
    a.RequestRefresh? || Failed(b, a.call).None?
  }

  /** Carries out `plan` against `b`, stopping at the first call that raises. */
  function Run(b: Backend, plan: seq<Action>): (o: Outcome)
    ensures o.performed <= plan
    ensures o.error.None? <==> forall k :: 0 <= k < |plan| ==> Completes(b, plan[k])
    ensures o.error.None? ==> o.performed == plan
    ensures o.error.Some? ==>
      && |o.performed| > 0
      && (forall k :: 0 <= k < |o.performed| - 1 ==> Completes(b, o.performed[k]))
      && o.performed[|o.performed| - 1].Invoke?
      && Failed(b, o.performed[|o.performed| - 1].call) == o.error
    decreases |plan|
  {
    if plan == [] then Outcome([], None)
    else if !Completes(b, plan[0]) then Outcome([plan[0]], Failed(b, plan[0].call))
    else
      var rest := Run(b, plan[1..]);
      assert forall k :: 1 <= k < |plan| ==> plan[k] == plan[1..][k - 1];
      Outcome([plan[0]] + rest.performed, rest.error)
  }

  /**
   * For a handler shaped as calls then a refresh, the refresh is requested exactly when
   * every call succeeds, and then it is the last thing that happens.
   */
  lemma RefreshIffAllCallsSucceed(b: Backend, calls: seq<Call>)
    ensures var o := Run(b, ThenRefresh(calls));
      && (RequestRefresh in o.performed <==> forall k :: 0 <= k < |calls| ==> Failed(b, calls[k]).None?)
      && (o.error.None? <==> RequestRefresh in o.performed)
  {
    var plan := ThenRefresh(calls);
    var o := Run(b, plan);
    if RequestRefresh in o.performed {
      var j :| 0 <= j < |o.performed| && o.performed[j] == RequestRefresh;
      assert plan[j] == RequestRefresh;
      assert j == |calls|;
      forall k | 0 <= k < |calls| ensures Failed(b, calls[k]).None? {
        assert plan[k] == Invoke(calls[k]);
        assert o.performed[k] == plan[k];
      }
    }
    if forall k :: 0 <= k < |calls| ==> Failed(b, calls[k]).None? {
      assert forall k :: 0 <= k < |plan| ==> Completes(b, plan[k]);
      assert o.performed[|calls|] == RequestRefresh;
    }
  }

  /** The value of the last `set_system_status` in `plan`, if there is one. */
  function LastStatusWrite(plan: seq<Action>): Option<bool> {
    if plan == [] then None
    else match plan[|plan| - 1]
      case Invoke(WriteSystemStatus(on)) => Some(on)
      case _ => LastStatusWrite(plan[..|plan| - 1])
  }

  /** The value of the last `set_hc_mode` for group `gid` in `plan`, if there is one. */
  function LastModeWrite(plan: seq<Action>, gid: int): Option<int> {
    if plan == [] then None
    else match plan[|plan| - 1]
      case Invoke(WriteHcMode(g, mode)) => if g == gid then Some(mode) else LastModeWrite(plan[..|plan| - 1], gid)
      case _ => LastModeWrite(plan[..|plan| - 1], gid)
  }
}
