/** The API call budget of one reconcile cycle, shared by the recent and the deep scan. */
module CallBudget {
  import opened Basics

  const CALL_BUDGET := 100
  const DEEP_RESERVE := 40

  datatype Refusal = Granted | ContextEnded | RateLimited | BudgetSpent

  class CycleBudget {
    var spent: nat

    constructor ()
      ensures spent == 0
    {
      spent := 0;
    }

    /** Asks for one list request; nothing is charged yet. */
    method Take(limit: int, contextEnded: bool, rateLimited: bool) returns (r: Refusal)
      ensures r == Granted <==> !contextEnded && !rateLimited && spent < limit
      ensures r == BudgetSpent ==> spent >= limit
    {
      if contextEnded { return ContextEnded; }
      if rateLimited { return RateLimited; }
      if spent >= limit { return BudgetSpent; }
      return Granted;
    }

    /** The client counts every page of a granted request. */
    method Charge(pages: nat)
      modifies this
      ensures spent == old(spent) + pages
    {
      spent := spent + pages;
    }
  }

  function RecentScanLimit(deepOpen: bool): int { if deepOpen then CALL_BUDGET - DEEP_RESERVE else CALL_BUDGET }

  function DeepScanLimit(recentSpent: int): int {
    if recentSpent + DEEP_RESERVE > CALL_BUDGET then recentSpent + DEEP_RESERVE else CALL_BUDGET
  }

  function Total(pages: seq<nat>): nat {
    if pages == [] then 0 else Total(pages[..|pages| - 1]) + pages[|pages| - 1]
  }

  /** Requests of these many pages, granted one after the other under a limit. */
  ghost predicate GrantedAll(start: nat, limit: int, pages: seq<nat>) {
    pages != [] ==>
      && GrantedAll(start, limit, pages[..|pages| - 1])
      && start + Total(pages[..|pages| - 1]) < limit
  }

  /** A scan overshoots its limit by no more than the pages of its last request. */
  lemma ScanOvershoot(start: nat, limit: int, pages: seq<nat>, cap: nat)
    requires GrantedAll(start, limit, pages) && forall p <- pages :: p <= cap
    ensures start + Total(pages) <= Max(start, limit - 1 + cap)
  {
    if pages != [] {
      var n := |pages| - 1;
      assert start + Total(pages[..n]) < limit;
      assert pages[n] in pages;
    }
  }

  /** However much the recent scan overshot, the deep scan starts with a granted request, stops
      for lack of budget only after at least its reserve, and a cycle stays within bounds. */
  lemma DeepScanHasItsShare(start: nat, recent: seq<nat>, deep: seq<nat>, cap: nat)
    requires cap >= 1 && (forall p <- recent :: p <= cap) && forall p <- deep :: p <= cap
    requires GrantedAll(start, RecentScanLimit(true), recent)
    requires GrantedAll(start + Total(recent), DeepScanLimit(start + Total(recent)), deep)
    ensures start + Total(recent) < DeepScanLimit(start + Total(recent))
    ensures start + Total(recent) + Total(deep) >= DeepScanLimit(start + Total(recent)) ==> Total(deep) >= DEEP_RESERVE
    ensures start + Total(recent) + Total(deep)
            <= Max(start, CALL_BUDGET - DEEP_RESERVE - 1 + cap) + DEEP_RESERVE - 1 + cap
  {
    ScanOvershoot(start, RecentScanLimit(true), recent, cap);
    ScanOvershoot(start + Total(recent), DeepScanLimit(start + Total(recent)), deep, cap);
  }
}
