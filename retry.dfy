/**
 * The connect and service-discovery watchdogs share one retry budget. A
 * watchdog is armed only when retrying is enabled, the budget is positive
 * and its timeout is positive. When it fires and the awaited state has not
 * been reached it re-issues `connect` first, which arms the next watchdog
 * against the budget as it still is, and only then decrements the budget.
 */
module Retry {

  predicate Arms(enabled: bool, budget: int, timeout: int)
  {
    enabled && budget > 0 && timeout > 0
  }

  /**
   * What a watchdog firing does: whether the `connect` it issues gets past
   * its checks and opens a new session, whether that `connect` arms the next
   * connect watchdog, and the budget afterwards.
   */
  datatype Firing = Firing(reconnects: bool, rearms: bool, budget: int)

  /**
   * One firing of either watchdog. Once the awaited state is `reached` it
   * does nothing. Otherwise it calls `connect`, which is rejected for a
   * missing device or a live link and otherwise re-arms the connect
   * watchdog against the budget as it still is, and then it spends one unit.
   */
  function WatchdogStep(reached: bool, connected: bool, devicePresent: bool,
                        enabled: bool, connectTimeout: int, budget: int): (f: Firing)
    ensures reached ==> f == Firing(false, false, budget)
    ensures !reached ==> f.budget == budget - 1
    ensures f.reconnects <==> !reached && devicePresent && !connected
    ensures f.rearms <==> f.reconnects && enabled && budget > 0 && connectTimeout > 0
  {
    if reached then Firing(false, false, budget)
    else
      var accepted := devicePresent && !connected;
      Firing(accepted, accepted && Arms(enabled, budget, connectTimeout), budget - 1)
  }

  /**
   * How many reconnects a chain of connect watchdogs fires against a
   * transport that never reports the connection, for a device that is
   * present; `armed` says whether a watchdog is pending. Each link of the
   * chain is one `WatchdogStep`.
   */
  function Reissues(enabled: bool, timeout: int, budget: int, armed: bool): nat
    decreases (if armed then 1 else 0) + (if budget > 0 then budget else 0)
  {
    if !armed then 0
    else
      var f := WatchdogStep(false, false, true, enabled, timeout, budget);
      (if f.reconnects then 1 else 0) + Reissues(enabled, timeout, f.budget, f.rearms)
  }

  /**
   * A budget of N > 0 buys N + 1 reconnects after the first connect, and a
   * budget of 0 or less buys none.
   */
  lemma {:induction false} ReissuesForBudget(enabled: bool, timeout: int, budget: int)
    requires enabled && timeout > 0
    ensures Reissues(enabled, timeout, budget, Arms(enabled, budget, timeout))
         == if budget > 0 then budget + 1 else 0
  {
    if budget > 1 {
      ReissuesForBudget(enabled, timeout, budget - 1);
    } else if budget == 1 {
      assert Reissues(enabled, timeout, 0, true) == 1;
    }
  }

  /**
   * A service watchdog that fires while the link is up but services are not
   * discovered reconnects nothing and arms nothing, yet spends one unit.
   */
  lemma ServiceWatchdogSpendsWhileConnected(devicePresent: bool, enabled: bool, connectTimeout: int, budget: int)
    ensures WatchdogStep(false, true, devicePresent, enabled, connectTimeout, budget) == Firing(false, false, budget - 1)
  {
  }

  /** Without retrying enabled, or without a timeout, the first connect arms nothing. */
  lemma NoRetryWithoutTimeout(enabled: bool, timeout: int, budget: int)
    requires !enabled || timeout <= 0
    ensures Reissues(enabled, timeout, budget, Arms(enabled, budget, timeout)) == 0
  {
  }
}
