/** volume/quota/quota.c: COM resources around one quota operation; and the arithmetic of the limit. */
module Quota {
  import opened GoBase

  const NOT_FOUND: int := 0x80045301 - 0x1_0000_0000

  predicate Failed(hr: int) { hr < 0 }

  /**
   The process as COM sees it: how many outside calls were made, the apartment's initialise count, the handles
   (interfaces and strings) that must still be given back, whether a handle was ever given back twice, and the
   quotas on record.
   */
  datatype Com = Com(calls: nat, inits: int, live: set<nat>, nextHandle: nat, misuse: bool, table: map<string, int>)

  /** What an outside call returns. */
  datatype Hresult = Hresult(hr: int, used: int)

  type Answers = nat -> Hresult

  predicate WellFormed(c: Com) { forall h :: h in c.live ==> h < c.nextHandle }

  function Ask(c: Com): Com { c.(calls := c.calls + 1) }

  function Obtain(c: Com): Com { c.(live := c.live + {c.nextHandle}, nextHandle := c.nextHandle + 1) }

  /** Releasing a null handle is nothing. */
  function Release(c: Com, h: Option<nat>): Com {
    if h.None? then c
    else if h.value in c.live then c.(live := c.live - {h.value})
    else c.(misuse := true)
  }

  function Cleanup(c: Com, manager: Option<nat>, quota: Option<nat>): Com {
    var c1 := Release(Release(c, manager), quota);
    c1.(inits := c1.inits - 1)
  }

  /** `initializeQuotaManager`: two identifiers, the apartment, the manager. */
  function Initialize(c: Com, env: Answers): (Com, int, Option<nat>) {
    if Failed(env(c.calls).hr) then (Ask(c), env(c.calls).hr, None)
    else
      var c1 := Ask(c);
      if Failed(env(c1.calls).hr) then (Ask(c1), env(c1.calls).hr, None)
      else
        var c2 := Ask(c1);
        if Failed(env(c2.calls).hr) then (Ask(c2), env(c2.calls).hr, None)
        else
          var c3 := Ask(c2).(inits := c2.inits + 1);
          if Failed(env(c3.calls).hr) then (Ask(c3), env(c3.calls).hr, None)
          else (Obtain(Ask(c3)), 0, Some(c3.nextHandle))
  }

  /** `CoInitializeEx` is reached and succeeds in the call that starts here. */
  predicate Entered(c: Com, env: Answers) {
    !Failed(env(c.calls).hr) && !Failed(env(c.calls + 1).hr) && !Failed(env(c.calls + 2).hr)
  }

  /** Allocate the volume's string, make the call, free the string. The allocation may fail and give null. */
  function WithString(c: Com, env: Answers): (Com, Hresult) {
    var gotString := !Failed(env(c.calls).hr);
    var c1 := if gotString then Obtain(Ask(c)) else Ask(c);
    var reply := env(c1.calls);
    (Release(Ask(c1), if gotString then Some(c.nextHandle) else None), reply)
  }

  function SetQuotaRun(c: Com, env: Answers, volume: string, limit: int): (Com, int) {
    var (c1, hr, manager) := Initialize(c, env);
    if Failed(hr) then (Cleanup(c1, manager, None), hr)
    else
      var (c2, created) := WithString(c1, env);
      if Failed(created.hr) then (Cleanup(c2, manager, None), created.hr)
      else
        var c3 := Obtain(c2);
        var put := env(c3.calls);
        if Failed(put.hr) then (Cleanup(Ask(c3), manager, Some(c2.nextHandle)), put.hr)
        else
          var c4 := Ask(c3);
          var commit := env(c4.calls);
          if Failed(commit.hr) then (Cleanup(Ask(c4), manager, Some(c2.nextHandle)), commit.hr)
          else (Cleanup(Ask(c4).(table := c4.table[volume := limit]), manager, Some(c2.nextHandle)), 0)
  }

  /** What `GetQuota` reports: another error, not found, or a quota. */
  function Found(table: map<string, int>, volume: string, r: Hresult): int {
    if Failed(r.hr) && r.hr != NOT_FOUND then r.hr else if volume in table then 0 else NOT_FOUND
  }

  function GetQuotaUsedRun(c: Com, env: Answers, volume: string): (Com, int, int) {
    var (c1, hr, manager) := Initialize(c, env);
    if Failed(hr) then (Cleanup(c1, manager, None), hr, 0)
    else
      var (c2, reply) := WithString(c1, env);
      var got := Found(c2.table, volume, reply);
      if got == NOT_FOUND then (Cleanup(c2, manager, None), 0, 0)
      else if Failed(got) then (Cleanup(c2, manager, None), got, 0)
      else
        var c3 := Obtain(c2);
        var used := env(c3.calls);
        if Failed(used.hr) then (Cleanup(Ask(c3), manager, Some(c2.nextHandle)), used.hr, 0)
        else (Cleanup(Ask(c3), manager, Some(c2.nextHandle)), 0, ToUint64(used.used))
  }

  /** Every handle obtained was given back once, and the count is back unless the apartment was never entered. */
  predicate Balanced(c: Com, c': Com, entered: bool) {
    && WellFormed(c')
    && c'.live == c.live && c'.misuse == c.misuse
    && c'.inits == c.inits - if entered then 0 else 1
  }

  /** The library could be set up, and none of the quota's calls failed: creating it, its limit, its commit. */
  predicate Accepted(c: Com, env: Answers) {
    && Entered(c, env) && !Failed(env(c.calls + 3).hr)
    && !Failed(env(c.calls + 5).hr) && !Failed(env(c.calls + 6).hr) && !Failed(env(c.calls + 7).hr)
  }

  /**
   On every path of `SetQuota`. It succeeds exactly if no call but the string's allocation failed; then the limit is
   on record, and otherwise nothing is; nothing else changes.
   */
  lemma SetQuotaBalanced(c: Com, env: Answers, volume: string, limit: int)
    requires WellFormed(c)
    ensures var (c', hr) := SetQuotaRun(c, env, volume, limit);
            && Balanced(c, c', Entered(c, env))
            && hr <= 0 && (hr == 0 <==> Accepted(c, env))
            && c'.table == if hr == 0 then c.table[volume := limit] else c.table
  {
    var (c1, hr, manager) := Initialize(c, env);
    assert Failed(hr) ==> c1.live == c.live;
    assert !Failed(hr) ==> c1.live == c.live + {c.nextHandle} && manager == Some(c.nextHandle);
    if !Failed(hr) {
      StringBalanced(c1, env);
      var (c2, created) := WithString(c1, env);
      if !Failed(created.hr) {
        GivenBack(c, c2, c.nextHandle, c2.nextHandle);
      } else {
        assert c1.live - {c.nextHandle} == c.live;
      }
    }
  }

  lemma StringBalanced(c: Com, env: Answers)
    requires WellFormed(c)
    ensures var (c', _) := WithString(c, env);
            WellFormed(c') && c'.live == c.live && c'.misuse == c.misuse && c'.inits == c.inits && c'.table == c.table && c'.nextHandle >= c.nextHandle
  {
    assert c.live + {c.nextHandle} - {c.nextHandle} == c.live;
  }

  lemma GivenBack(c: Com, c2: Com, manager: nat, quota: nat)
    requires WellFormed(c) && WellFormed(c2) && manager == c.nextHandle && quota == c2.nextHandle && c2.nextHandle > manager
    requires c2.live == c.live + {manager}
    ensures c2.live + {quota} - {manager} - {quota} == c.live
  {
  }

  /** The library could be set up and `GetQuota` answered, if only that there is no quota (0x80045301). */
  predicate Answered(c: Com, env: Answers) {
    && Entered(c, env) && !Failed(env(c.calls + 3).hr)
    && (Failed(env(c.calls + 5).hr) ==> env(c.calls + 5).hr == -2147200255)
  }

  /**
   On every path of `GetQuotaUsed`. It succeeds exactly if the quota manager answered and, if there is a quota, its
   usage could be read; that usage is the result. A volume without quota counts as zero, not as an error.
   */
  lemma GetQuotaUsedBalanced(c: Com, env: Answers, volume: string)
    requires WellFormed(c)
    ensures var (c', hr, used) := GetQuotaUsedRun(c, env, volume);
            && Balanced(c, c', Entered(c, env))
            && hr <= 0 && c'.table == c.table && IsUint64(used)
            && (hr == 0 <==> Answered(c, env) && (volume in c.table ==> !Failed(env(c.calls + 6).hr)))
            && used == if hr == 0 && volume in c.table then ToUint64(env(c.calls + 6).used) else 0
  {
    var (c1, hr, manager) := Initialize(c, env);
    assert Failed(hr) ==> c1.live == c.live;
    assert !Failed(hr) ==> c1.live == c.live + {c.nextHandle} && manager == Some(c.nextHandle);
    if !Failed(hr) {
      StringBalanced(c1, env);
      var (c2, reply) := WithString(c1, env);
      GivenBack(c, c2, c.nextHandle, c2.nextHandle);
      assert c1.live - {c.nextHandle} == c.live;
    }
  }

  // ---------------------------------------------------- sequences of calls

  datatype LibraryCall = Set(volume: string, limit: int) | Get(volume: string)

  function Serve(c: Com, env: Answers, r: LibraryCall): Com {
    match r
    case Set(v, limit) => SetQuotaRun(c, env, v, limit).0
    case Get(v) => GetQuotaUsedRun(c, env, v).0
  }

  function ServeAll(c: Com, env: Answers, rs: seq<LibraryCall>): Com
    decreases |rs|
  {
    if rs == [] then c else ServeAll(Serve(c, env, rs[0]), env, rs[1..])
  }

  /** How many of the calls never entered the apartment. */
  function Missed(c: Com, env: Answers, rs: seq<LibraryCall>): nat
    decreases |rs|
  {
    if rs == [] then 0 else (if Entered(c, env) then 0 else 1) + Missed(Serve(c, env, rs[0]), env, rs[1..])
  }

  /**
   Over any sequence of calls no handle leaks and none is released twice. The initialise count comes back exactly
   if every call entered the apartment; each that did not takes one away, because cleanup leaves regardless.
   */
  lemma {:induction false} ResourcesConserved(c: Com, env: Answers, rs: seq<LibraryCall>)
    requires WellFormed(c)
    ensures var c' := ServeAll(c, env, rs);
            && WellFormed(c') && c'.live == c.live && c'.misuse == c.misuse
            && c'.inits == c.inits - Missed(c, env, rs)
    decreases |rs|
  {
    hide SetQuotaRun, GetQuotaUsedRun;
    if rs != [] {
      match rs[0] {
        case Set(v, limit) => SetQuotaBalanced(c, env, v, limit);
        case Get(v) => GetQuotaUsedBalanced(c, env, v);
      }
      ResourcesConserved(Serve(c, env, rs[0]), env, rs[1..]);
    }
  }

  /** A call whose CoInitializeEx fails does take one away. */
  lemma FailedEntryUnbalances(c: Com, env: Answers, volume: string)
    requires WellFormed(c) && env(c.calls).hr == 0 && env(c.calls + 1).hr == 0 && env(c.calls + 2).hr < 0
    ensures SetQuotaRun(c, env, volume, 1).0.inits == c.inits - 1
  {
    hide SetQuotaRun;
    SetQuotaBalanced(c, env, volume, 1);
  }

  // ---------------------------------------------------- the limit

  const DISK_QUOTA_OVERHEAD := 10 * 1024

  /** The limit that goes out for a disk limit: `uint64(diskLimit)` and then a uint64 addition. */
  function LimitSent(diskLimit: int): int { ToUint64(ToUint64(diskLimit) + DISK_QUOTA_OVERHEAD) }

  /**
   Every non-negative limit goes out with exactly the overhead on top. The addition wraps around exactly for the
   negative limits down to minus the overhead.
   */
  lemma LimitExact(diskLimit: int)
    requires IsInt64(diskLimit)
    ensures ToUint64(diskLimit) == 0 <==> diskLimit == 0
    ensures diskLimit >= 0 ==> LimitSent(diskLimit) == diskLimit + 10240
    ensures LimitSent(diskLimit) == ToUint64(diskLimit) + 10240 <==> diskLimit >= 0 || diskLimit < -10240
    ensures diskLimit < 0 ==> (LimitSent(diskLimit) - diskLimit - 10240) % TWO64 == 0
  {
    if diskLimit < 0 {
      assert ToUint64(diskLimit) == diskLimit + TWO64;
    }
  }

  // ---------------------------------------------------- the objects

  /** The quota library inside the process. */
  class Library {
    const env: Answers
    var com: Com

    constructor (env: Answers, com: Com)
      ensures this.env == env && this.com == com
    {
      this.env, this.com := env, com;
    }

    method Call() returns (r: Hresult)
      modifies this
      ensures r == env(old(com.calls)) && com == Ask(old(com))
    {
      r := env(com.calls);
      com := Ask(com);
    }

    method InitializeQuotaManager() returns (hr: int, manager: Option<nat>)
      modifies this
      ensures (com, hr, manager) == Initialize(old(com), env)
    {
      var r := Call();
      if Failed(r.hr) { return r.hr, None; }
      r := Call();
      if Failed(r.hr) { return r.hr, None; }
      r := Call();
      if Failed(r.hr) { return r.hr, None; }
      com := com.(inits := com.inits + 1);
      r := Call();
      if Failed(r.hr) { return r.hr, None; }
      manager := Some(com.nextHandle);
      com := Obtain(com);
      hr := 0;
    }

    method CleanUp(manager: Option<nat>, quota: Option<nat>)
      modifies this
      ensures com == Cleanup(old(com), manager, quota)
    {
      if manager.Some? { com := Release(com, manager); }
      if quota.Some? { com := Release(com, quota); }
      com := com.(inits := com.inits - 1);
    }

    method CallWithString() returns (r: Hresult)
      modifies this
      ensures (com, r) == WithString(old(com), env)
    {
      var a := Call();
      var s := None;
      if !Failed(a.hr) {
        s := Some(com.nextHandle);
        com := Obtain(com);
      }
      r := Call();
      com := Release(com, s);
    }

    method SetQuota(volume: string, limit: int) returns (hr: int)
      requires WellFormed(com)
      modifies this
      ensures (com, hr) == SetQuotaRun(old(com), env, volume, limit)
      ensures Balanced(old(com), com, Entered(old(com), env))
    {
      SetQuotaBalanced(com, env, volume, limit);
      var manager, quota := None, None;
      hr, manager := InitializeQuotaManager();
      if Failed(hr) {
        CleanUp(manager, quota);
        return;
      }
      var r := CallWithString();
      if Failed(r.hr) {
        CleanUp(manager, quota);
        return r.hr;
      }
      quota := Some(com.nextHandle);
      com := Obtain(com);
      r := Call();
      if Failed(r.hr) {
        CleanUp(manager, quota);
        return r.hr;
      }
      r := Call();
      if Failed(r.hr) {
        CleanUp(manager, quota);
        return r.hr;
      }
      com := com.(table := com.table[volume := limit]);
      CleanUp(manager, quota);
      hr := 0;
    }

    method GetQuotaUsed(volume: string) returns (hr: int, used: int)
      requires WellFormed(com)
      modifies this
      ensures (com, hr, used) == GetQuotaUsedRun(old(com), env, volume)
      ensures Balanced(old(com), com, Entered(old(com), env))
    {
      GetQuotaUsedBalanced(com, env, volume);
      var manager, quota := None, None;
      used := 0;
      hr, manager := InitializeQuotaManager();
      if Failed(hr) {
        CleanUp(manager, quota);
        return;
      }
      var r := CallWithString();
      hr := Found(com.table, volume, r);
      if hr == NOT_FOUND {
        CleanUp(manager, quota);
        return 0, 0;
      } else if Failed(hr) {
        CleanUp(manager, quota);
        return;
      }
      quota := Some(com.nextHandle);
      com := Obtain(com);
      r := Call();
      if Failed(r.hr) {
        CleanUp(manager, quota);
        return r.hr, 0;
      }
      used := ToUint64(r.used);
      CleanUp(manager, quota);
      hr := 0;
    }
  }
}
