/** The order in which one run of `Unpack` takes and gives back its resources. */
module Discipline {
  import opened Machine
  import opened Hcs
  import opened Unpack
  import Runs

  /**
   Where a run stands: before the privileges, holding them, with a layer writer, with the tar reader set, with
   the reader reset, with the writer closed, with the privileges released. `Bad` is for good.
   */
  datatype Phase = Outside | Privileged | Opened | Reading | Drained | Shut | Released | Bad

  function Watch(p: Phase, e: Event): Phase {
    match p
    case Outside =>
      if e.call.LayerExists? then Outside
      else if e.call == EnablePrivileges then if e.ok then Privileged else Outside
      else Bad
    case Privileged =>
      if e.call.ReadFile? || e.call.UnprepareLayer? || e.call.DeactivateLayer? || e.call.RemoveLayer? || e.call.MkdirAll? then Privileged
      else if e.call.NewWriter? then if e.ok then Opened else Privileged
      else if e.call == DisablePrivileges then Released
      else Bad
    case Opened => if e.call == SetReader then Reading else Bad
    case Reading =>
      if e.call == ResetReader then Drained
      else if e.call == Next || IsOp(e.call) || e.call.Write? || e.call.CreateBackup? || e.call.WriteBackup? || IsClose(e.call)
              || e.call.WriteFile? then Reading
      else Bad
    case Drained => if e.call.CloseWriter? then Shut else Bad
    case Shut => if e.call == DisablePrivileges then Released else Bad
    case Released => Bad
    case Bad => Bad
  }

  function Scan(t: seq<Event>): Phase {
    if t == [] then Outside else Watch(Scan(t[..|t| - 1]), t[|t| - 1])
  }

  /** The phase of the run that began when `at` calls had been made. */
  function PhaseAt(w: World, at: nat): (p: Phase)
    ensures p != Bad ==> at <= |w.trace|
  {
    if at <= |w.trace| then Scan(w.trace[at..]) else Bad
  }

  lemma ScanOne(w: World, at: nat, env: Env, c: Call)
    requires at <= |w.trace|
    ensures PhaseAt(Perform(w, env, c), at) == Watch(PhaseAt(w, at), Last(Perform(w, env, c)))
    ensures Last(Perform(w, env, c)).call == c
  {
    var t := Perform(w, env, c).trace[at..];
    assert t[..|t| - 1] == w.trace[at..];
  }

  lemma {:induction false} ScanFeed(w: World, at: nat, env: Env, path: string, cs: seq<Call>)
    requires AllInScope(cs, path, Feeds) && PhaseAt(w, at) == Reading
    ensures PhaseAt(RunCalls(w, env, cs), at) == Reading
  {
    if cs != [] {
      var init := cs[..|cs| - 1];
      assert AllInScope(init, path, Feeds) && InScope(cs[|cs| - 1], path, Feeds);
      ScanFeed(w, at, env, path, init);
      ScanOne(RunCalls(w, env, init), at, env, cs[|cs| - 1]);
    }
  }

  lemma {:induction false} ScanDestroy(w: World, at: nat, env: Env, path: string, n: nat)
    requires n >= 1 && PhaseAt(w, at) == Privileged
    ensures PhaseAt(DestroyFrom(w, env, path, n).0, at) == Privileged
    decreases n
  {
    hide Perform, PhaseAt, DestroyFrom;
    var w1 := Perform(w, env, UnprepareLayer(path));
    var w2 := Perform(w1, env, DeactivateLayer(path));
    ScanOne(w, at, env, UnprepareLayer(path));
    ScanOne(w1, at, env, DeactivateLayer(path));
    ScanOne(w2, at, env, RemoveLayer(path));
    DestroyStep(w, env, path, n);
    if n > 1 && PhaseAt(Attempt(w, env, path), at) == Privileged { ScanDestroy(Attempt(w, env, path), at, env, path, n - 1); }
  }

  lemma ScanBuild(w: World, at: nat, env: Env, job: Job)
    requires PhaseAt(w, at) == Privileged
    ensures var p := PhaseAt(Build(w, env, job).0, at); p == Privileged || p == Shut
  {
    hide Perform, PhaseAt, Fill, Watch;
    var w1 := Perform(w, env, MkdirAll(job.path));
    ScanMkdir(w, at, env, job.path);
    if Last(w1).ok {
      var w2 := Perform(w1, env, NewWriter(job.path, job.parents));
      ScanWriter(w1, at, env, job);
      if Last(w2).ok {
        var w3 := Perform(w2, env, SetReader);
        ScanFill(w3, at, env, job);
        ScanClose(Fill(w3, env, job).0, at, env, job.path);
      }
    }
  }

  lemma ScanMkdir(w: World, at: nat, env: Env, path: string)
    requires PhaseAt(w, at) == Privileged
    ensures PhaseAt(Perform(w, env, MkdirAll(path)), at) == Privileged
  {
    hide Perform, PhaseAt;
    ScanOne(w, at, env, MkdirAll(path));
  }

  lemma ScanWriter(w: World, at: nat, env: Env, job: Job)
    requires PhaseAt(w, at) == Privileged
    ensures var w1 := Perform(w, env, NewWriter(job.path, job.parents));
            if Last(w1).ok then PhaseAt(Perform(w1, env, SetReader), at) == Reading else PhaseAt(w1, at) == Privileged
  {
    hide Perform, PhaseAt;
    ScanOne(w, at, env, NewWriter(job.path, job.parents));
    ScanOne(Perform(w, env, NewWriter(job.path, job.parents)), at, env, SetReader);
  }

  lemma ScanClose(w: World, at: nat, env: Env, path: string)
    requires PhaseAt(w, at) == Reading
    ensures PhaseAt(Perform(Perform(w, env, ResetReader), env, CloseWriter(path)), at) == Shut
  {
    hide Perform, PhaseAt;
    ScanOne(w, at, env, ResetReader);
    ScanOne(Perform(w, env, ResetReader), at, env, CloseWriter(path));
  }

  lemma ScanFill(w: World, at: nat, env: Env, job: Job)
    requires PhaseAt(w, at) == Reading
    ensures PhaseAt(Fill(w, env, job).0, at) == Reading
  {
    hide Perform, PhaseAt, Feed;
    var w0, es, broken := Perform(w, env, Next), job.tape.entries, job.tape.broken;
    ScanOne(w, at, env, Next);
    FeedFed(w0, env, job.path, es, broken, 0, Feeds);
    var (w1, end, total) := Feed(w0, env, job.path, es, broken, 0);
    var cs :| AllInScope(cs, job.path, Feeds) && w1 == RunCalls(w0, env, cs);
    ScanFeed(w0, at, env, job.path, cs);
    ScanOne(w1, at, env, WriteFile(job.path, SIZE_FILE, GoBase.FormatInt(total)));
  }

  /**
   On every exit of every run, panics included, whatever the process did before: the privileges are released
   exactly if they were obtained, once and last; destroying, creating the writer, every writer call and Close fall
   inside that window; the reader is reset before Close, Close happens once per writer and no writer call follows it.
   */
  lemma UnpackDisciplined(w: World, env: Env, job: Job)
    ensures var w' := UnpackRun(w, env, job).0;
            && Extends(w, w')
            && var t := Since(w, w');
               && Scan(t) in {Outside, Released}
               && (Scan(t) == Released <==> exists i :: 0 <= i < |t| && t[i].call == EnablePrivileges && t[i].ok)
  {
    hide Perform, Scan, Feed, DestroyFrom, Build;
    var at := |w.trace|;
    ScanEmpty();
    assert w.trace[at..] == [];
    var w1 := Perform(w, env, LayerExists(job.path));
    ScanOne(w, at, env, LayerExists(job.path));
    if Last(w1).ok {
      var w2 := Perform(w1, env, EnablePrivileges);
      ScanOne(w1, at, env, EnablePrivileges);
      if Last(w2).ok {
        var w3 := Elevated(w2, env, job, Last(w1).found).0;
        ScanElevated(w2, at, env, job, Last(w1).found);
        ScanOne(w3, at, env, DisablePrivileges);
      }
    }
    RunExtends(w, env, job);
    ScanEnabled(Since(w, UnpackRun(w, env, job).0));
  }

  lemma RunExtends(w: World, env: Env, job: Job)
    ensures Extends(w, UnpackRun(w, env, job).0)
  {
    hide UnpackRun, Runs.OnTrack;
    Runs.RunSafe(w, env, job);
  }

  lemma ScanEmpty()
    ensures Scan([]) == Outside
  {
  }

  lemma ScanElevated(w: World, at: nat, env: Env, job: Job, found: bool)
    requires PhaseAt(w, at) == Privileged
    ensures var p := PhaseAt(Elevated(w, env, job, found).0, at); p == Privileged || p == Shut
  {
    hide Perform, PhaseAt, Feed, DestroyFrom, Build;
    if !found {
      ScanBuild(w, at, env, job);
    } else {
      var w1 := Perform(w, env, ReadFile(job.path, SIZE_FILE));
      ScanOne(w, at, env, ReadFile(job.path, SIZE_FILE));
      if Last(w1).ok && !Last(w1).found {
        ScanDestroy(w1, at, env, job.path, 3);
        var w2 := DestroyRun(w1, env, job.path).0;
        ScanBuild(w2, at, env, job);
      }
    }
  }

  /** A trace that is not bad has left `Outside` exactly if the privileges were obtained. */
  lemma {:induction false} ScanEnabled(t: seq<Event>)
    requires Scan(t) != Bad
    ensures Scan(t) != Outside <==> exists i :: 0 <= i < |t| && t[i].call == EnablePrivileges && t[i].ok
  {
    if t != [] {
      var init := t[..|t| - 1];
      ScanEnabled(init);
      assert forall i :: 0 <= i < |init| ==> t[i] == init[i];
      if Scan(init) != Outside {
        var i :| 0 <= i < |init| && init[i].call == EnablePrivileges && init[i].ok;
        assert t[i].call == EnablePrivileges && t[i].ok;
      }
    }
  }
}
