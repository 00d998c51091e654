/** Any number of processes running `Bundle` at once on one disk, sharing the create lock of hcs/client.go. */
module Interleaving {
  import opened GoBase
  import opened Machine
  import opened Bundle
  import opened Quota

  /** One process: where it is and the calls it has made. */
  datatype Proc = Proc(pc: Pc, trace: seq<Event>)

  /** The shared disk, who holds the lock, and the processes. */
  datatype Config = Config(disk: Disk, holder: Option<nat>, procs: seq<Proc>)

  /** Between taking the lock and giving it back. */
  predicate InCritical(pc: Pc) { pc.AtCreate? || pc.AtActivate? || pc.AtPrepare? || pc.AtUnlock? }

  /** Opening the lock would succeed, but another process holds it. */
  predicate Blocked(c: Config, envs: seq<Env>, i: nat)
    requires i < |c.procs| == |envs|
  {
    c.procs[i].pc == AtLock && c.holder.Some? && envs[i](|c.procs[i].trace|).ok
  }

  predicate Enabled(c: Config, envs: seq<Env>, i: nat)
    requires i < |c.procs| == |envs|
  {
    !c.procs[i].pc.Done? && !Blocked(c, envs, i)
  }

  function Hold(holder: Option<nat>, i: nat, e: Event): Option<nat> {
    if e.call == OpenLock && e.ok then Some(i) else if e.call == CloseLock then None else holder
  }

  /** Process `i` makes its next call, if it can. */
  function Schedule(orders: seq<Order>, envs: seq<Env>, c: Config, i: nat): Config
    requires |c.procs| == |envs| == |orders|
  {
    if i >= |c.procs| || !Enabled(c, envs, i) then c
    else
      var p := c.procs[i];
      var e := Reply(c.disk, Request(orders[i], p.pc), envs[i](|p.trace|));
      Config(Apply(c.disk, e), Hold(c.holder, i, e), c.procs[i := Proc(Resume(orders[i], p.pc, e), p.trace + [e])])
  }

  function Interleave(orders: seq<Order>, envs: seq<Env>, c: Config, schedule: seq<nat>): (r: Config)
    requires |c.procs| == |envs| == |orders|
    ensures |r.procs| == |c.procs|
  {
    if schedule == [] then c
    else Schedule(orders, envs, Interleave(orders, envs, c, schedule[..|schedule| - 1]), schedule[|schedule| - 1])
  }

  function Start(d: Disk, n: nat): Config { Config(d, None, seq(n, _ => Proc(AtMkdir, []))) }

  /** The first `n` calls of the same process on a disk of its own. */
  function Alone(order: Order, env: Env, d: Disk, n: nat): (World, Pc) {
    if n == 0 then (World(d, []), AtMkdir)
    else
      var (w, pc) := Alone(order, env, d, n - 1);
      if pc.Done? then (w, pc)
      else
        var w' := Perform(w, env, Request(order, pc));
        (w', Resume(order, pc, Last(w')))
  }

  /** Bundles of one store with distinct folders. */
  predicate Distinct(orders: seq<Order>) {
    && (forall i, j :: 0 <= i < |orders| && 0 <= j < |orders| ==> orders[i].path != orders[j].home)
    && (forall i, j :: 0 <= i < j < |orders| ==> orders[i].path != orders[j].path)
  }

  // ---------------------------------------------------- mutual exclusion

  /** The holder is in the critical part and nobody else is. */
  predicate Exclusive(c: Config) {
    forall i :: 0 <= i < |c.procs| ==> (InCritical(c.procs[i].pc) <==> c.holder == Some(i))
  }

  lemma CriticalStep(order: Order, pc: Pc, e: Event)
    requires !pc.Done? && e.call == Request(order, pc)
    ensures InCritical(Resume(order, pc, e)) <==> if InCritical(pc) then !pc.AtUnlock? else pc == AtLock && e.ok
  {
  }

  lemma ExclusiveStep(orders: seq<Order>, envs: seq<Env>, c: Config, i: nat)
    requires |c.procs| == |envs| == |orders| && Exclusive(c) && (c.holder.Some? ==> c.holder.value < |c.procs|)
    ensures var c' := Schedule(orders, envs, c, i); Exclusive(c') && (c'.holder.Some? ==> c'.holder.value < |c'.procs|)
  {
    if i < |c.procs| && Enabled(c, envs, i) {
      var p := c.procs[i];
      var e := Reply(c.disk, Request(orders[i], p.pc), envs[i](|p.trace|));
      CriticalStep(orders[i], p.pc, e);
      var c' := Schedule(orders, envs, c, i);
      forall j | 0 <= j < |c'.procs|
        ensures InCritical(c'.procs[j].pc) <==> c'.holder == Some(j)
      {
        assert InCritical(c.procs[j].pc) <==> c.holder == Some(j);
        assert InCritical(c.procs[i].pc) <==> c.holder == Some(i);
        if j != i { assert c'.procs[j] == c.procs[j]; }
      }
    }
  }

  // ---------------------------------------------------- each as if alone

  /** Calls for another bundle leave the folder at `path` alone. */
  lemma OthersKeep(order: Order, d: Disk, pc: Pc, a: Answer, path: string)
    requires !pc.Done? && path != order.path && path != order.home
    ensures At(Apply(d, Reply(d, Request(order, pc), a)), path) == At(d, path)
  {
    hide Extend, Accept, Restrict, HasFile, LimitSent;
  }

  /** A call for a bundle sees and changes its own folder only as that folder stands. */
  lemma OwnFolderOnly(order: Order, d1: Disk, d2: Disk, pc: Pc, a: Answer)
    requires !pc.Done? && order.path != order.home && At(d1, order.path) == At(d2, order.path)
    ensures Reply(d1, Request(order, pc), a) == Reply(d2, Request(order, pc), a)
    ensures var e := Reply(d1, Request(order, pc), a); At(Apply(d1, e), order.path) == At(Apply(d2, e), order.path)
  {
    hide Apply;
    assert order.path in d1.folders <==> order.path in d2.folders;
    OwnFolderApply(order, d1, d2, pc, Reply(d1, Request(order, pc), a));
  }

  lemma OwnFolderApply(order: Order, d1: Disk, d2: Disk, pc: Pc, e: Event)
    requires !pc.Done? && order.path != order.home && At(d1, order.path) == At(d2, order.path) && e.call == Request(order, pc)
    ensures At(Apply(d1, e), order.path) == At(Apply(d2, e), order.path)
  {
    hide Extend, Accept, HasFile, LimitSent, Reply, Restrict;
  }

  /** Every process stands where it would stand alone after as many calls, and so does its folder. */
  ghost predicate AsIfAlone(orders: seq<Order>, envs: seq<Env>, d: Disk, c: Config)
    requires |c.procs| == |envs| == |orders|
  {
    forall i :: 0 <= i < |c.procs| ==> StandsAlone(orders[i], envs[i], d, c.disk, c.procs[i])
  }

  predicate StandsAlone(order: Order, env: Env, d: Disk, now: Disk, p: Proc) {
    var (w, pc) := Alone(order, env, d, |p.trace|);
    pc == p.pc && w.trace == p.trace && At(w.disk, order.path) == At(now, order.path)
  }

  lemma AloneStep(order: Order, env: Env, d: Disk, now: Disk, p: Proc)
    requires StandsAlone(order, env, d, now, p) && !p.pc.Done? && order.path != order.home
    ensures var e := Reply(now, Request(order, p.pc), env(|p.trace|));
            StandsAlone(order, env, d, Apply(now, e), Proc(Resume(order, p.pc, e), p.trace + [e]))
  {
    var (w, pc) := Alone(order, env, d, |p.trace|);
    OwnFolderOnly(order, w.disk, now, pc, env(|p.trace|));
    assert Alone(order, env, d, |p.trace| + 1).0 == Perform(w, env, Request(order, pc));
  }

  lemma AloneKept(orders: seq<Order>, envs: seq<Env>, d: Disk, c: Config, i: nat)
    requires |c.procs| == |envs| == |orders| && Distinct(orders) && AsIfAlone(orders, envs, d, c)
    ensures AsIfAlone(orders, envs, d, Schedule(orders, envs, c, i))
  {
    hide Apply, Reply, Request, Resume, At, StandsAlone, Blocked;
    if i < |c.procs| && Enabled(c, envs, i) {
      var p := c.procs[i];
      var e := Reply(c.disk, Request(orders[i], p.pc), envs[i](|p.trace|));
      var c' := Schedule(orders, envs, c, i);
      forall j | 0 <= j < |c'.procs|
        ensures StandsAlone(orders[j], envs[j], d, c'.disk, c'.procs[j])
      {
        if j == i {
          AloneStep(orders[i], envs[i], d, c.disk, p);
        } else {
          OthersKeep(orders[i], c.disk, p.pc, envs[i](|p.trace|), orders[j].path);
          SameFolder(orders[j], envs[j], d, c.disk, c'.disk, c.procs[j]);
        }
      }
    }
  }

  lemma SameFolder(order: Order, env: Env, d: Disk, now: Disk, now': Disk, p: Proc)
    requires StandsAlone(order, env, d, now, p) && At(now, order.path) == At(now', order.path)
    ensures StandsAlone(order, env, d, now', p)
  {
  }

  /** A process that has finished alone has finished with the outcome and folder of its solo run. */
  lemma {:induction false} AloneFinishes(order: Order, env: Env, d: Disk, n: nat)
    ensures var (w, pc) := Alone(order, env, d, n); RunFrom(order, w, pc, env) == BundleRun(order, World(d, []), env)
  {
    hide Perform, Request, Resume;
    if n > 0 {
      AloneFinishes(order, env, d, n - 1);
      var (w, pc) := Alone(order, env, d, n - 1);
      if !pc.Done? { RunStep(order, w, pc, env); }
    }
  }

  /** After any schedule: the lock is held by exactly the process in the critical part, and all stand as if alone. */
  lemma {:induction false} InterleavedCreation(orders: seq<Order>, envs: seq<Env>, d: Disk, schedule: seq<nat>)
    requires |envs| == |orders| && Distinct(orders)
    ensures var c := Interleave(orders, envs, Start(d, |orders|), schedule);
            && Exclusive(c) && (c.holder.Some? ==> c.holder.value < |c.procs|)
            && AsIfAlone(orders, envs, d, c) && QuotasSet(orders, c)
  {
    hide Schedule, AsIfAlone, Exclusive, QuotasSet;
    if schedule == [] {
      StartHolds(orders, envs, d);
    } else {
      var init, i := schedule[..|schedule| - 1], schedule[|schedule| - 1];
      InterleavedCreation(orders, envs, d, init);
      var c := Interleave(orders, envs, Start(d, |orders|), init);
      ExclusiveStep(orders, envs, c, i);
      AloneKept(orders, envs, d, c, i);
      QuotasStep(orders, envs, c, i);
    }
  }

  lemma StartHolds(orders: seq<Order>, envs: seq<Env>, d: Disk)
    requires |envs| == |orders|
    ensures Exclusive(Start(d, |orders|)) && AsIfAlone(orders, envs, d, Start(d, |orders|)) && QuotasSet(orders, Start(d, |orders|))
  {
  }

  // ---------------------------------------------------- quotas

  /** Process `i` has succeeded on `volume` with a limit. */
  predicate Limited(orders: seq<Order>, c: Config, i: nat, volume: string)
    requires |c.procs| == |orders|
  {
    i < |c.procs| && c.procs[i].pc == Done(Success(volume)) && ToUint64(orders[i].limit) != 0
  }

  /** Its limit is on record, unless another process succeeded on the same mount path. */
  predicate QuotasSet(orders: seq<Order>, c: Config)
    requires |c.procs| == |orders|
  {
    forall i :: 0 <= i < |c.procs| ==> QuotaSet(orders, c, i)
  }

  predicate QuotaSet(orders: seq<Order>, c: Config, i: nat)
    requires |c.procs| == |orders| && i < |c.procs|
  {
    && (c.procs[i].pc.AtQuota? ==> ToUint64(orders[i].limit) != 0)
    && (c.procs[i].pc.Done? && c.procs[i].pc.outcome.Success? && ToUint64(orders[i].limit) != 0 ==>
      var v := c.procs[i].pc.outcome.volume;
      || (v in c.disk.quotas && c.disk.quotas[v] == LimitSent(orders[i].limit))
      || exists j :: 0 <= j < |c.procs| && j != i && Limited(orders, c, j, v))
  }

  lemma QuotasStep(orders: seq<Order>, envs: seq<Env>, c: Config, i: nat)
    requires |c.procs| == |envs| == |orders| && QuotasSet(orders, c)
    ensures QuotasSet(orders, Schedule(orders, envs, c, i))
  {
    if i < |c.procs| && Enabled(c, envs, i) {
      var c', p := Schedule(orders, envs, c, i), c.procs[i];
      var e := Last(World(c'.disk, c'.procs[i].trace));
      assert e == Reply(c.disk, Request(orders[i], p.pc), envs[i](|p.trace|));
      assert forall j :: 0 <= j < |c.procs| && j != i ==> c'.procs[j] == c.procs[j];
      forall k | 0 <= k < |c'.procs|
        ensures QuotaSet(orders, c', k)
      {
        if k != i { QuotaKeeps(orders, c, c', i, k, e); }
      }
    }
  }

  lemma QuotaKeeps(orders: seq<Order>, c: Config, c': Config, i: nat, k: nat, e: Event)
    requires |c.procs| == |c'.procs| == |orders| && i < |c.procs| && k < |c.procs| && k != i
    requires forall j :: 0 <= j < |c.procs| && j != i ==> c'.procs[j] == c.procs[j]
    requires !c.procs[i].pc.Done? && e.call == Request(orders[i], c.procs[i].pc)
    requires c'.disk == Apply(c.disk, e) && c'.procs[i].pc == Resume(orders[i], c.procs[i].pc, e)
    requires QuotaSet(orders, c, i) && QuotaSet(orders, c, k)
    ensures QuotaSet(orders, c', k)
  {
    hide Apply;
    QuotasEffect(c.disk, e);
    if c.procs[k].pc.Done? && c.procs[k].pc.outcome.Success? && ToUint64(orders[k].limit) != 0 {
      var v := c.procs[k].pc.outcome.volume;
      if j: nat :| j < |c.procs| && j != k && Limited(orders, c, j, v) {
        assert Limited(orders, c', j, v);
      } else if c.procs[i].pc == AtQuota(v) && e.ok {
        assert Limited(orders, c', i, v);
      }
    }
  }

  lemma FinishedAsAlone(orders: seq<Order>, envs: seq<Env>, d: Disk, schedule: seq<nat>, i: nat)
    requires |envs| == |orders| && Distinct(orders) && i < |orders|
    requires Interleave(orders, envs, Start(d, |orders|), schedule).procs[i].pc.Done?
    ensures var c := Interleave(orders, envs, Start(d, |orders|), schedule);
            var (w, o) := BundleRun(orders[i], World(d, []), envs[i]);
            c.procs[i].pc.outcome == o && At(c.disk, orders[i].path) == At(w.disk, orders[i].path)
  {
    hide Interleave, BundleRun;
    InterleavedCreation(orders, envs, d, schedule);
    var c := Interleave(orders, envs, Start(d, |orders|), schedule);
    assert StandsAlone(orders[i], envs[i], d, c.disk, c.procs[i]);
    AloneFinishes(orders[i], envs[i], d, |c.procs[i].trace|);
  }

  /** No deadlock: while some process is unfinished, some process can make its next call. */
  lemma SomeoneCanGoOn(c: Config, envs: seq<Env>, i: nat)
    requires |c.procs| == |envs| && Exclusive(c) && (c.holder.Some? ==> c.holder.value < |c.procs|)
    requires i < |c.procs| && !c.procs[i].pc.Done?
    ensures exists j: nat :: j < |c.procs| && Enabled(c, envs, j)
  {
    if Blocked(c, envs, i) {
      var h := c.holder.value;
      assert InCritical(c.procs[h].pc);
      assert Enabled(c, envs, h);
    } else {
      assert Enabled(c, envs, i);
    }
  }

  /** How many calls a process can still make, at most. */
  function Remaining(pc: Pc): nat {
    match pc
    case AtUnprepare(_, left) => 3 * left + 3
    case AtDeactivate(_, left, _) => 3 * left + 2
    case AtRemove(_, left, _, _) => 3 * left + 1
    case Done(_) => 0
    case _ => 12 + Ahead(pc)
  }

  lemma RemainingFalls(order: Order, pc: Pc, e: Event)
    requires !pc.Done?
    ensures Remaining(Resume(order, pc, e)) < Remaining(pc)
  {
  }

  function TotalRemaining(procs: seq<Proc>): nat {
    if procs == [] then 0 else Remaining(procs[0].pc) + TotalRemaining(procs[1..])
  }

  lemma {:induction false} TotalFalls(procs: seq<Proc>, i: nat, p: Proc)
    requires i < |procs| && Remaining(p.pc) < Remaining(procs[i].pc)
    ensures TotalRemaining(procs[i := p]) < TotalRemaining(procs)
  {
    hide Remaining;
    if i == 0 {
      assert procs[0 := p][1..] == procs[1..];
    } else {
      assert procs[i := p][1..] == procs[1..][i - 1 := p];
      TotalFalls(procs[1..], i - 1, p);
    }
  }

  predicate AllDone(c: Config) { forall i :: 0 <= i < |c.procs| ==> c.procs[i].pc.Done? }

  /** From a configuration in which the lock is held as it should be, some schedule brings every process to its end. */
  lemma {:induction false} SomeScheduleFinishes(orders: seq<Order>, envs: seq<Env>, c: Config) returns (more: seq<nat>)
    requires |c.procs| == |envs| == |orders| && Exclusive(c) && (c.holder.Some? ==> c.holder.value < |c.procs|)
    ensures AllDone(Interleave(orders, envs, c, more))
    decreases TotalRemaining(c.procs)
  {
    hide Exclusive, Reply, Apply, Request, Resume, Enabled;
    if AllDone(c) {
      more := [];
    } else {
      var i: nat :| i < |c.procs| && !c.procs[i].pc.Done?;
      SomeoneCanGoOn(c, envs, i);
      var j: nat :| j < |c.procs| && Enabled(c, envs, j);
      var c' := Schedule(orders, envs, c, j);
      ExclusiveStep(orders, envs, c, j);
      ScheduleFalls(orders, envs, c, j);
      var rest := SomeScheduleFinishes(orders, envs, c');
      more := [j] + rest;
      InterleaveFirst(orders, envs, c, j, rest);
    }
  }

  lemma ScheduleFalls(orders: seq<Order>, envs: seq<Env>, c: Config, j: nat)
    requires |c.procs| == |envs| == |orders| && j < |c.procs| && Enabled(c, envs, j)
    ensures TotalRemaining(Schedule(orders, envs, c, j).procs) < TotalRemaining(c.procs)
  {
    hide Reply, Apply, Request, Resume, Remaining;
    var p := c.procs[j];
    var e := Reply(c.disk, Request(orders[j], p.pc), envs[j](|p.trace|));
    RemainingFalls(orders[j], p.pc, e);
    TotalFalls(c.procs, j, Proc(Resume(orders[j], p.pc, e), p.trace + [e]));
  }

  lemma {:induction false} InterleaveFirst(orders: seq<Order>, envs: seq<Env>, c: Config, j: nat, rest: seq<nat>)
    requires |c.procs| == |envs| == |orders|
    ensures Interleave(orders, envs, c, [j] + rest) == Interleave(orders, envs, Schedule(orders, envs, c, j), rest)
  {
    InterleaveConcat(orders, envs, c, [j], rest);
    assert [j][..0] == [];
    assert Interleave(orders, envs, c, []) == c;
  }

  lemma {:induction false} InterleaveConcat(orders: seq<Order>, envs: seq<Env>, c: Config, a: seq<nat>, b: seq<nat>)
    requires |c.procs| == |envs| == |orders|
    ensures Interleave(orders, envs, c, a + b) == Interleave(orders, envs, Interleave(orders, envs, c, a), b)
  {
    hide Schedule;
    if b == [] {
      assert a + b == a;
    } else {
      assert (a + b)[..|a + b| - 1] == a + b[..|b| - 1];
      InterleaveConcat(orders, envs, c, a, b[..|b| - 1]);
    }
  }

  /** What one process has achieved once it is done. */
  ghost predicate EndsAlone(orders: seq<Order>, envs: seq<Env>, d: Disk, c: Config, i: nat)
    requires |c.procs| == |envs| == |orders| && i < |orders|
  {
    c.procs[i].pc.Done? ==>
      var (w, o) := BundleRun(orders[i], World(d, []), envs[i]);
      && c.procs[i].pc.outcome == o
      && At(c.disk, orders[i].path) == At(w.disk, orders[i].path)
      && (o.Success? && ToUint64(orders[i].limit) != 0 && (forall j :: 0 <= j < |orders| && j != i ==> !Limited(orders, c, j, o.volume))
          ==> o.volume in c.disk.quotas && c.disk.quotas[o.volume] == LimitSent(orders[i].limit))
  }

  /**
   For any number of bundles with distinct folders and any interleaving: at no time are two processes between
   creating and preparing; every process that has finished has the outcome of running alone, its folder the
   content of running alone and, unless mount paths clash, its limit on record; as long as one has not finished,
   one can go on; and the schedule can be continued so that all finish.
   */
  lemma InterleavedBundles(orders: seq<Order>, envs: seq<Env>, d: Disk, schedule: seq<nat>)
    requires |envs| == |orders| && Distinct(orders)
    ensures var c := Interleave(orders, envs, Start(d, |orders|), schedule);
            && (forall i, j :: 0 <= i < |orders| && 0 <= j < |orders| && InCritical(c.procs[i].pc) && InCritical(c.procs[j].pc) ==> i == j)
            && (forall i :: 0 <= i < |orders| ==> EndsAlone(orders, envs, d, c, i))
            && ((exists i :: 0 <= i < |orders| && !c.procs[i].pc.Done?) ==> exists j: nat :: j < |orders| && Enabled(c, envs, j))
    ensures exists more :: AllDone(Interleave(orders, envs, Start(d, |orders|), schedule + more))
  {
    hide Interleave, BundleRun, AsIfAlone;
    InterleavedCreation(orders, envs, d, schedule);
    var c := Interleave(orders, envs, Start(d, |orders|), schedule);
    var more := SomeScheduleFinishes(orders, envs, c);
    InterleaveConcat(orders, envs, Start(d, |orders|), schedule, more);
    forall i | 0 <= i < |orders|
      ensures EndsAlone(orders, envs, d, c, i)
    {
      assert QuotaSet(orders, c, i);
      if c.procs[i].pc.Done? { FinishedAsAlone(orders, envs, d, schedule, i); }
    }
    if i: nat :| i < |orders| && !c.procs[i].pc.Done? {
      SomeoneCanGoOn(c, envs, i);
    }
    forall i, j | 0 <= i < |orders| && 0 <= j < |orders| && InCritical(c.procs[i].pc) && InCritical(c.procs[j].pc)
      ensures i == j
    {
      assert c.holder == Some(i) && c.holder == Some(j);
    }
  }
}
