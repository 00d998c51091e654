/** hcs/client.go: removing a layer in at most three attempts, and creating one under the create lock. */
module Hcs {
  import opened Machine

  /** How a Go call ended; `Panic` is the nil dereference of hcs/client.go:68. */
  datatype Status = Nil | Err | Panic

  /** Lifecycle rank of a folder, 0 when it is absent. */
  function StageOf(d: Disk, path: string): nat {
    if path in d.folders then Rank(d.folders[path].stage) else 0
  }

  function Attempt(w: World, env: Env, path: string): (r: World)
    ensures |r.trace| == |w.trace| + 3
    ensures r.trace[..|w.trace|] == w.trace
    ensures r.trace[|w.trace|].call == UnprepareLayer(path) && r.trace[|w.trace| + 1].call == DeactivateLayer(path)
    ensures r.trace[|w.trace| + 2].call == RemoveLayer(path)
  {
    Perform(Perform(Perform(w, env, UnprepareLayer(path)), env, DeactivateLayer(path)), env, RemoveLayer(path))
  }

  lemma AttemptTrace(w: World, env: Env, path: string)
    ensures var w1 := Perform(w, env, UnprepareLayer(path));
            var w2 := Perform(w1, env, DeactivateLayer(path));
            var w3 := Perform(w2, env, RemoveLayer(path));
            && Attempt(w, env, path) == w3
            && w3.trace[|w.trace|] == Last(w1) && w3.trace[|w.trace| + 1] == Last(w2) && w3.trace[|w.trace| + 2] == Last(w3)
  {
  }

  /** `DestroyLayer` with `n` attempts left. */
  function DestroyFrom(w: World, env: Env, path: string, n: nat): (World, Status)
    requires n >= 1
    decreases n
  {
    var w' := Attempt(w, env, path);
    var t, at := w'.trace, |w.trace|;
    if t[at + 2].ok then (w', Nil)
    else if n > 1 then DestroyFrom(w', env, path, n - 1)
    else (w', if t[at].ok || t[at + 1].ok then Panic else Err)
  }

  function DestroyRun(w: World, env: Env, path: string): (World, Status) { DestroyFrom(w, env, path, 3) }

  /** The folder at `path` lost nothing but stage, entries and files, and everything else is as it was. */
  ghost predicate OnlyShrank(d: Disk, d': Disk, path: string) {
    && d'.quotas == d.quotas
    && d'.folders - {path} == d.folders - {path}
    && StageOf(d', path) <= StageOf(d, path)
    && (path in d'.folders ==> path in d.folders && d'.folders[path].files.Keys <= d.folders[path].files.Keys)
  }

  /** The call took effect, whatever it answered. */
  predicate Took(e: Event) { e.ok || e.answer.took }

  lemma AttemptShrinks(w: World, env: Env, path: string)
    ensures var w' := Attempt(w, env, path);
            && OnlyShrank(w.disk, w'.disk, path)
            && (path in w'.disk.folders <==> path in w.disk.folders && !Took(w'.trace[|w.trace| + 2]))
  {
    var w1 := Perform(w, env, UnprepareLayer(path));
    var w2 := Perform(w1, env, DeactivateLayer(path));
    assert OnlyShrank(w.disk, w1.disk, path);
    assert OnlyShrank(w1.disk, w2.disk, path);
    assert OnlyShrank(w2.disk, Perform(w2, env, RemoveLayer(path)).disk, path);
  }

  /** At most `n` attempts, of which only the last can have removed the layer; the status reads off its replies. */
  lemma {:induction false} DestroyTrace(w: World, env: Env, path: string, n: nat)
    requires n >= 1
    ensures var (w', s) := DestroyFrom(w, env, path, n);
            var at, t := |w.trace|, w'.trace;
            && at < |t| <= at + 3 * n && (|t| - at) % 3 == 0
            && t[..at] == w.trace
            && (forall i :: at <= i < |t| - 1 && t[i].call == RemoveLayer(path) ==> !t[i].ok)
            && t[|t| - 1].call == RemoveLayer(path)
            && s == (if t[|t| - 1].ok then Nil else if t[|t| - 3].ok || t[|t| - 2].ok then Panic else Err)
            && (s != Nil ==> |t| == at + 3 * n)
    decreases n
  {
    hide Perform, DestroyFrom;
    var w1 := Attempt(w, env, path);
    DestroyStep(w, env, path, n);
    if !w1.trace[|w.trace| + 2].ok && n > 1 {
      DestroyTrace(w1, env, path, n - 1);
      var t := DestroyFrom(w1, env, path, n - 1).0.trace;
      assert forall i :: 0 <= i < |w1.trace| ==> t[i] == t[..|w1.trace|][i];
    }
  }

  /** The calls of an attempt, by position. */
  function AttemptCall(path: string, i: nat): Call {
    if i % 3 == 0 then UnprepareLayer(path) else if i % 3 == 1 then DeactivateLayer(path) else RemoveLayer(path)
  }

  /**
   What the calls of `DestroyLayer` look like, and what they say about its result: attempts of three calls, at most
   three attempts; it succeeds exactly if a removal did, which is then its last call; otherwise all nine calls were
   made, and it panics if the last unprepare or deactivate succeeded.
   */
  predicate Destroys(t: seq<Event>, path: string, s: Status) {
    && (|t| == 3 || |t| == 6 || |t| == 9)
    && (forall i :: 0 <= i < |t| ==> t[i].call == AttemptCall(path, i))
    && (forall i :: 0 <= i < |t| - 1 && t[i].call == RemoveLayer(path) ==> !t[i].ok)
    && match s
       case Nil => t[|t| - 1].ok
       case Panic => |t| == 9 && !t[8].ok && (t[6].ok || t[7].ok)
       case Err => |t| == 9 && !t[8].ok && !t[6].ok && !t[7].ok
  }

  lemma {:induction false} DestroyCalls(w: World, env: Env, path: string, n: nat)
    requires n >= 1
    ensures var t, at := DestroyFrom(w, env, path, n).0.trace, |w.trace|;
            |t| >= at && forall i :: 0 <= i < |t| - at ==> t[at + i].call == AttemptCall(path, i)
    decreases n
  {
    hide Perform, DestroyFrom;
    var w1 := Attempt(w, env, path);
    DestroyStep(w, env, path, n);
    if !w1.trace[|w.trace| + 2].ok && n > 1 {
      DestroyCalls(w1, env, path, n - 1);
      DestroyTrace(w1, env, path, n - 1);
      var t, at := DestroyFrom(w1, env, path, n - 1).0.trace, |w.trace|;
      forall i | 0 <= i < |t| - at
        ensures t[at + i].call == AttemptCall(path, i)
      {
        if i < 3 {
          assert t[at + i] == t[..|w1.trace|][at + i];
        } else {
          assert t[|w1.trace| + (i - 3)].call == AttemptCall(path, i - 3);
        }
      }
    }
  }

  lemma DestroyReads(w: World, env: Env, path: string)
    ensures var (w', s) := DestroyRun(w, env, path); Extends(w, w') && Destroys(Since(w, w'), path, s)
  {
    hide DestroyFrom, Perform;
    DestroyCalls(w, env, path, 3);
    DestroyTrace(w, env, path, 3);
    var w' := DestroyRun(w, env, path).0;
    var t, at := Since(w, w'), |w.trace|;
    assert forall i :: 0 <= i < |t| ==> t[i] == w'.trace[at + i];
  }

  lemma {:induction false} DestroyStep(w: World, env: Env, path: string, n: nat)
    requires n >= 1
    ensures DestroyFrom(w, env, path, n) ==
            var w' := Attempt(w, env, path);
            var t, at := w'.trace, |w.trace|;
            if t[at + 2].ok then (w', Nil)
            else if n > 1 then DestroyFrom(w', env, path, n - 1)
            else (w', if t[at].ok || t[at + 1].ok then Panic else Err)
  {
    hide Perform;
  }

  /**
   From any stage: the stage never rises and nothing else on the disk changes; after success the layer is gone,
   whatever unprepare and deactivate answered; and in any case it is there if and only if it was and none of the
   removals took effect.
   */
  lemma {:induction false} DestroyOutcome(w: World, env: Env, path: string, n: nat)
    requires n >= 1
    ensures var (w', s) := DestroyFrom(w, env, path, n);
            && OnlyShrank(w.disk, w'.disk, path)
            && (s == Nil ==> path !in w'.disk.folders)
            && (path in w'.disk.folders <==> path in w.disk.folders && !RemovalTook(w, w', path))
    decreases n
  {
    hide Perform, Attempt, DestroyFrom, OnlyShrank, StageOf;
    AttemptShrinks(w, env, path);
    DestroyStep(w, env, path, n);
    var w1 := Attempt(w, env, path);
    RemovalOne(w, env, path);
    if !w1.trace[|w.trace| + 2].ok && n > 1 {
      DestroyOutcome(w1, env, path, n - 1);
      DestroyTrace(w1, env, path, n - 1);
      var w' := DestroyFrom(w1, env, path, n - 1).0;
      ShrankThen(w.disk, w1.disk, w'.disk, path);
      RemovalThen(w, w1, w', path);
    }
  }

  /** A removal of the layer between the two worlds took effect. */
  predicate RemovalTook(w: World, w': World, path: string) {
    exists i :: |w.trace| <= i < |w'.trace| && w'.trace[i].call == RemoveLayer(path) && Took(w'.trace[i])
  }

  lemma RemovalOne(w: World, env: Env, path: string)
    ensures var w' := Attempt(w, env, path); RemovalTook(w, w', path) <==> Took(w'.trace[|w.trace| + 2])
  {
    hide Perform;
  }

  lemma RemovalThen(w: World, w1: World, w2: World, path: string)
    requires Extends(w, w1) && Extends(w1, w2)
    ensures RemovalTook(w, w2, path) <==> RemovalTook(w, w1, path) || RemovalTook(w1, w2, path)
  {
    assert forall i :: 0 <= i < |w1.trace| ==> w1.trace[i] == w2.trace[..|w1.trace|][i] == w2.trace[i];
  }

  lemma ShrankThen(d: Disk, d1: Disk, d2: Disk, path: string)
    requires OnlyShrank(d, d1, path) && OnlyShrank(d1, d2, path)
    ensures OnlyShrank(d, d2, path)
  {
  }

  lemma DestroyBounds(w: World, env: Env, path: string)
    ensures var (w', s) := DestroyRun(w, env, path);
            && Extends(w, w') && Destroys(Since(w, w'), path, s)
            && StageOf(w'.disk, path) <= StageOf(w.disk, path)
            && (s == Nil ==> path !in w'.disk.folders)
  {
    hide DestroyFrom, Destroys;
    DestroyOutcome(w, env, path, 3);
    DestroyReads(w, env, path);
  }

  /** The report does panic: removal keeps failing while unprepare and deactivate succeed. */
  lemma DestroyCanPanic(d: Disk, path: string, env: Env)
    requires forall i: nat :: env(i).ok <==> i % 3 != 2
    ensures DestroyRun(World(d, []), env, path).1 == Panic
  {
    hide Apply, DestroyFrom;
    var w0 := World(d, []);
    var w1 := Attempt(w0, env, path);
    var w2 := Attempt(w1, env, path);
    DestroyStep(w0, env, path, 3);
    DestroyStep(w1, env, path, 2);
    DestroyStep(w2, env, path, 1);
    AttemptReplies(w0, env, path);
    AttemptReplies(w1, env, path);
    AttemptReplies(w2, env, path);
  }

  lemma AttemptReplies(w: World, env: Env, path: string)
    ensures var t, at := Attempt(w, env, path).trace, |w.trace|;
            t[at].ok == env(at).ok && t[at + 1].ok == env(at + 1).ok && t[at + 2].ok == env(at + 2).ok
  {
    hide Apply;
  }

  /** With no failure one attempt is enough. */
  lemma DestroySucceeds(w: World, env: Env, path: string)
    requires FailureFree(env)
    ensures DestroyRun(w, env, path) == (Attempt(w, env, path), Nil)
  {
  }

  /** The client object of hcs/client.go. */
  class Client {
    const host: Host

    constructor (host: Host)
      ensures this.host == host
    {
      this.host := host;
    }

    method DestroyLayer(path: string) returns (status: Status)
      modifies host
      ensures (host.View(), status) == DestroyRun(old(host.View()), host.env, path)
      ensures status == Nil ==> path !in host.disk.folders
      ensures StageOf(host.disk, path) <= StageOf(old(host.disk), path)
      ensures Extends(old(host.View()), host.View()) && Destroys(Since(old(host.View()), host.View()), path, status)
    {
      hide Perform, DestroyFrom, StageOf, Destroys;
      ghost var start := host.View();
      DestroyBounds(start, host.env, path);
      var unprepareOk, deactivateOk := false, false;
      for i := 0 to 3
        invariant i < 3 ==> DestroyRun(start, host.env, path) == DestroyFrom(host.View(), host.env, path, 3 - i)
        invariant i == 3 ==> DestroyRun(start, host.env, path) == (host.View(), if unprepareOk || deactivateOk then Panic else Err)
      {
        ghost var w := host.View();
        var e := host.Do(UnprepareLayer(path));
        unprepareOk := e.ok;
        e := host.Do(DeactivateLayer(path));
        deactivateOk := e.ok;
        e := host.Do(RemoveLayer(path));
        assert host.View() == Attempt(w, host.env, path);
        AttemptTrace(w, host.env, path);
        DestroyStep(w, host.env, path, 3 - i);
        if e.ok {
          return Nil;
        }
      }
      status := if unprepareOk || deactivateOk then Panic else Err;
    }

    /** Create, activate and prepare under the lock, which is released on every exit. */
    method CreateLayer(path: string, parents: seq<string>) returns (ok: bool)
      modifies host
      ensures (host.View(), ok) == CreateRun(old(host.View()), host.env, path, parents)
      ensures Extends(old(host.View()), host.View()) && CreateTells(Since(old(host.View()), host.View()), path, parents, ok)
    {
      hide Perform, CreateTells;
      CreateReads(host.View(), host.env, path, parents);
      var e := host.Do(OpenLock);
      if !e.ok {
        return false;
      }
      e := host.Do(CreateSandbox(path, parents));
      if e.ok {
        e := host.Do(ActivateLayer(path));
        if e.ok {
          e := host.Do(PrepareLayer(path, parents));
        }
      }
      ok := e.ok;
      e := host.Do(CloseLock);
    }
  }

  /** `CreateLayer`: the first failing call ends it. */
  function CreateRun(w: World, env: Env, path: string, parents: seq<string>): (World, bool) {
    var w1 := Perform(w, env, OpenLock);
    if !Last(w1).ok then (w1, false)
    else
      var w2 := Perform(w1, env, CreateSandbox(path, parents));
      if !Last(w2).ok then (Perform(w2, env, CloseLock), false)
      else
        var w3 := Perform(w2, env, ActivateLayer(path));
        if !Last(w3).ok then (Perform(w3, env, CloseLock), false)
        else
          var w4 := Perform(w3, env, PrepareLayer(path, parents));
          (Perform(w4, env, CloseLock), Last(w4).ok)
  }

  /** The calls under the lock, in order. */
  function CreateScript(path: string, parents: seq<string>): seq<Call> {
    [OpenLock, CreateSandbox(path, parents), ActivateLayer(path), PrepareLayer(path, parents)]
  }

  /**
   What the calls of `CreateLayer` say about its result: the script up to the first call that fails, then the lock is
   closed if it was opened; success exactly if all four calls of the script succeeded.
   */
  predicate CreateTells(t: seq<Event>, path: string, parents: seq<string>, ok: bool) {
    if |t| == 1 then !ok && t[0].call == OpenLock && !t[0].ok
    else
      && 3 <= |t| <= 5 && t[|t| - 1].call == CloseLock
      && (forall i :: 0 <= i < |t| - 1 ==> t[i].call == CreateScript(path, parents)[i])
      && (forall i :: 0 <= i < |t| - 2 ==> t[i].ok)
      && (ok <==> |t| == 5 && t[3].ok) && (|t| < 5 ==> !t[|t| - 2].ok)
  }

  /** The script up to its first failure or its end, then the unlocking. */
  lemma CreateTold(t: seq<Event>, e: Event, path: string, parents: seq<string>)
    requires 2 <= |t| <= 4 && (forall i :: 0 <= i < |t| ==> t[i].call == CreateScript(path, parents)[i])
    requires (forall i :: 0 <= i < |t| - 1 ==> t[i].ok) && (|t| < 4 ==> !t[|t| - 1].ok) && e.call == CloseLock
    ensures CreateTells(t + [e], path, parents, t[|t| - 1].ok)
  {
    hide CreateScript;
    assert forall i :: 0 <= i < |t| ==> (t + [e])[i] == t[i];
  }

  lemma CreateReads(w: World, env: Env, path: string, parents: seq<string>)
    ensures var (w', ok) := CreateRun(w, env, path, parents);
            Extends(w, w') && CreateTells(Since(w, w'), path, parents, ok)
  {
    hide Perform, Extends, Since;
    var w1, script := Perform(w, env, OpenLock), CreateScript(path, parents);
    NoneSince(w);
    OneMore(w, w, env, OpenLock);
    if Last(w1).ok {
      hide CreateTells;
      var w2 := Perform(w1, env, CreateSandbox(path, parents));
      OneMore(w, w1, env, CreateSandbox(path, parents));
      OneMore(w, w2, env, CloseLock);
      var t := [Last(w1), Last(w2)];
      assert Since(w, w2) == t;
      if !Last(w2).ok {
        CreateTold(t, Last(Perform(w2, env, CloseLock)), path, parents);
      } else {
        var w3 := Perform(w2, env, ActivateLayer(path));
        OneMore(w, w2, env, ActivateLayer(path));
        OneMore(w, w3, env, CloseLock);
        if !Last(w3).ok {
          CreateTold(t + [Last(w3)], Last(Perform(w3, env, CloseLock)), path, parents);
        } else {
          var w4 := Perform(w3, env, PrepareLayer(path, parents));
          OneMore(w, w3, env, PrepareLayer(path, parents));
          OneMore(w, w4, env, CloseLock);
          CreateTold(t + [Last(w3)] + [Last(w4)], Last(Perform(w4, env, CloseLock)), path, parents);
        }
      }
    }
  }
}
