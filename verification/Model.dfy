/** The broker's shared value types: configuration, requests and allocation records. */
module Model {
  import opened Basics

  // Names and identifiers are opaque; integers give them equality and nothing more.
  type PoolName = int
  type BackendName = int
  type AllocationId = int
  type Time = int

  // ------------------------------------------------------- case folding (ASCII)

  predicate IsSpace(c: char) { c == ' ' || c == '\t' || c == '\n' || c == '\r' }

  function LowerChar(c: char): char {
    if 'A' <= c <= 'Z' then (c as int + 32) as char else c
  }

  function Lower(s: string): (r: string)
    ensures |r| == |s|
  {
    if s == "" then "" else [LowerChar(s[0])] + Lower(s[1..])
  }

  function TrimLeft(s: string): string {
    if s != "" && IsSpace(s[0]) then TrimLeft(s[1..]) else s
  }

  function TrimRight(s: string): string {
    if s != "" && IsSpace(s[|s| - 1]) then TrimRight(s[..|s| - 1]) else s
  }

  function Trim(s: string): string { TrimRight(TrimLeft(s)) }

  /** The form under which configuration keys are matched: trimmed and lower-cased. */
  function Fold(s: string): string { Lower(Trim(s)) }

  lemma LowerAt(s: string, i: nat)
    requires i < |s|
    ensures Lower(s)[i] == LowerChar(s[i])
  {
    if i > 0 { LowerAt(s[1..], i - 1); }
  }

  lemma {:induction false} LowerSlice(s: string, lo: nat, hi: nat)
    requires lo <= hi <= |s|
    ensures Lower(s[lo..hi]) == Lower(s)[lo..hi]
  {
    forall i | 0 <= i < hi - lo ensures Lower(s[lo..hi])[i] == Lower(s)[lo..hi][i] {
      LowerAt(s[lo..hi], i);
      LowerAt(s, lo + i);
    }
  }

  lemma LowerTwice(s: string)
    ensures Lower(Lower(s)) == Lower(s)
  {
  }

  lemma {:induction false} TrimLeftOfLower(s: string)
    ensures TrimLeft(Lower(s)) == Lower(TrimLeft(s))
  {
    if s != "" {
      LowerSlice(s, 1, |s|);
      TrimLeftOfLower(s[1..]);
    }
  }

  lemma {:induction false} TrimRightOfLower(s: string)
    ensures TrimRight(Lower(s)) == Lower(TrimRight(s))
  {
    if s != "" {
      LowerAt(s, |s| - 1);
      LowerSlice(s, 0, |s| - 1);
      TrimRightOfLower(s[..|s| - 1]);
    }
  }

  /** Lower-casing a name before it is folded changes nothing. */
  lemma FoldOfLower(s: string)
    ensures Fold(Lower(s)) == Fold(s)
  {
    TrimLeftOfLower(s);
    TrimRightOfLower(TrimLeft(s));
    LowerTwice(Trim(s));
  }

  // -------------------------------------------------------------- configuration

  datatype BackendConfig = BackendConfig(
    enabled: bool, healthy: bool, maxRunners: int, crossPoolMaxRunners: int,
    weight: int, cost: int)

  datatype SoftReserve = SoftReserve(priorityClass: string, slots: int)

  /** priorityClasses and quotas are keyed by folded names. */
  datatype FairShareConfig = FairShareConfig(
    enabled: bool, usageWindow: int, starvationAfter: int,
    priorityClasses: map<string, int>, softReserves: seq<SoftReserve>, quotas: map<string, int>)

  datatype PoolConfig = PoolConfig(
    name: PoolName, fairShare: FairShareConfig, weighted: bool,
    backends: map<BackendName, BackendConfig>)

  datatype Request = Request(backend: Option<BackendName>, tenant: string, priorityClass: string)

  // -------------------------------------------------------------------- records

  datatype State =
    | Reserved | Ready | Warm | Pending
    | Canceled | Expired | Failed | Completed | Quarantined
  {
    /** The record consumes a scheduler slot. */
    predicate Accounted() { this in {Reserved, Ready, Warm} }

    /** The states the reaper and Complete treat as holding a slot. */
    predicate Active() { this in {Reserved, Ready} }

    predicate Terminal() { this in {Canceled, Expired, Failed, Completed, Quarantined} }
  }

  /** The request a queued workflow job was turned into. A job id of zero means none. */
  datatype Origin = Origin(workflowJob: int, repository: string, jobTimeout: int, registrationTimeout: int)

  /** One allocation. execution is the workflow job the runner is known to execute, zero while
      unknown; deferred is a conclusion that arrived before its runner was identified. */
  datatype Allocation = Allocation(
    id: AllocationId, pool: PoolName, backend: BackendName, tenant: string, priorityClass: string,
    state: State, error: string,
    createdAt: Option<Time>, registeredAt: Option<Time>, claimedAt: Option<Time>, expiresAt: Option<Time>,
    runnerLabel: string, runnerId: Option<int>, leaseStart: Option<Time>,
    execution: int, deferred: Option<string>, origin: Option<Origin>)

  /** The scheduler's name for a tenant: trimmed, lower-cased, never empty. */
  function NormalizeTenant(tenant: string): string {
    if Trim(tenant) == "" then "default" else Lower(Trim(tenant))
  }

  /** The store's name for a tenant: trimmed, never empty, but not lower-cased. */
  function StoreTenant(tenant: string): string {
    if Trim(tenant) == "" then "default" else Trim(tenant)
  }

  /** The scheduler merges tenants that the store still tells apart, never the other way round. */
  lemma TenantNamesAgree(tenant: string)
    ensures NormalizeTenant(tenant) == Lower(StoreTenant(tenant))
    ensures Fold(NormalizeTenant(tenant)) == Fold(StoreTenant(tenant))
  {
    assert Lower("default") == "default" by {
      assert Lower("default") == ['d'] + Lower("efault");
      assert Lower("efault") == ['e'] + Lower("fault");
      assert Lower("fault") == ['f'] + Lower("ault");
      assert Lower("ault") == ['a'] + Lower("ult");
      assert Lower("ult") == ['u'] + Lower("lt");
      assert Lower("lt") == ['l'] + Lower("t");
      assert Lower("t") == ['t'] + Lower("");
    }
    FoldOfLower(StoreTenant(tenant));
  }
}
