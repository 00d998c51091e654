/** Exactly when `Unpack` succeeds, fails and panics, read off its archive and the replies to its calls. */
module Outcomes {
  import opened GoBase
  import opened Tar
  import opened Machine
  import opened Hcs
  import opened Unpack
  import opened Runs

  /**
   The calls whose failure does not by itself end a run: the attempts at destroying, the closing of the writer and of
   backups, the release of the privileges.
   */
  predicate Tolerated(c: Call) {
    c.UnprepareLayer? || c.DeactivateLayer? || c.RemoveLayer? || c.CloseWriter? || IsClose(c) || c.DisablePrivileges?
  }

  predicate Passed(e: Event) { e.ok || Tolerated(e.call) }

  /** No call between the two worlds was refused, and no close was followed by one of the `n` operations expected. */
  predicate Smooth(w: World, w': World, n: nat) {
    (forall i :: |w.trace| <= i < |w'.trace| ==> Passed(w'.trace[i])) && !CutShort(w, w', n)
  }

  predicate Silent(c: Call) { !IsOp(c) && !IsClose(c) }

  /** A call before everything else that is neither an operation nor a close only has to pass. */
  lemma SmoothFirst(w: World, env: Env, c: Call, w': World, n: nat)
    requires Silent(c) && Extends(Perform(w, env, c), w')
    ensures var w1 := Perform(w, env, c); Extends(w, w') && (Smooth(w, w', n) <==> Passed(Last(w1)) && Smooth(w1, w', n))
  {
    hide Issued, Perform, Tolerated, IsOp, IsClose;
    var w1 := Perform(w, env, c);
    TraceOne(w, env, c);
    TraceThen(w, w1, w');
    SilentIssues(w, env, c);
    assert w'.trace[..|w1.trace|][|w.trace|] == Last(w1);
    assert !FailedClose(w'.trace[|w.trace|]);
    if CutShort(w, w', n) {
      var i :| |w.trace| <= i < |w'.trace| && FailedClose(w'.trace[i]) && |Issued(w'.trace[..i])| < |Issued(w.trace)| + n;
      assert i != |w.trace|;
    }
  }

  lemma SilentIssues(w: World, env: Env, c: Call)
    requires Silent(c)
    ensures Issued(Perform(w, env, c).trace) == Issued(w.trace)
  {
    hide Issued, Perform;
    IssuedOne(w, env, c);
  }

  /** The same for a call after everything else. */
  lemma SmoothLast(w: World, w1: World, env: Env, c: Call, n: nat)
    requires Silent(c) && Extends(w, w1)
    ensures var w' := Perform(w1, env, c); Extends(w, w') && (Smooth(w, w', n) <==> Smooth(w, w1, n) && Passed(Last(w')))
  {
    hide Issued, Perform, Tolerated, IsOp, IsClose;
    var w' := Perform(w1, env, c);
    TraceOne(w1, env, c);
    TraceThen(w, w1, w');
    assert forall i :: 0 <= i < |w1.trace| ==> w'.trace[..|w1.trace|][i] == w1.trace[i] == w'.trace[i];
    assert forall i :: 0 <= i <= |w1.trace| ==> w'.trace[..|w1.trace|][..i] == w'.trace[..i];
    assert !FailedClose(w'.trace[|w1.trace|]);
    if CutShort(w, w', n) {
      var i :| |w.trace| <= i < |w'.trace| && FailedClose(w'.trace[i]) && |Issued(w'.trace[..i])| < |Issued(w.trace)| + n;
      assert i != |w1.trace|;
      assert FailedClose(w1.trace[i]) && |Issued(w1.trace[..i])| < |Issued(w.trace)| + n;
    }
    if CutShort(w, w1, n) {
      var i :| |w.trace| <= i < |w1.trace| && FailedClose(w1.trace[i]) && |Issued(w1.trace[..i])| < |Issued(w.trace)| + n;
      assert FailedClose(w'.trace[i]) && |Issued(w'.trace[..i])| < |Issued(w.trace)| + n;
    }
  }

  // ---------------------------------------------------- from the loop outwards

  function Ops(job: Job): nat { |Expected(job.path, job.tape.entries)| }

  predicate Good(job: Job) { Sound(job.tape.entries) && !job.tape.broken }

  predicate Succeeded(r: Result) { r.Returned? && !r.failed }

  lemma LoopExact(w: World, env: Env, job: Job)
    requires job.path in w.disk.folders
    ensures var (w', end, total) := Feed(w, env, job.path, job.tape.entries, job.tape.broken, 0);
            && Extends(w, w') && (end == Eof <==> Good(job) && Smooth(w, w', Ops(job)))
            && (end == Eof ==> total == Wrap64(TotalSize(job.tape.entries)) && job.path in w'.disk.folders)
  {
    hide Feed, Sound, CutShort, Filled, Expected, Bare, Wrap64, TotalSize;
    var es, broken := job.tape.entries, job.tape.broken;
    FeedExact(w, env, job.path, es, broken, 0);
    FeedRefines(w, env, job.path, es, broken, 0);
    FeedFed(w, env, job.path, es, broken, 0, Feeds);
    var w' := Feed(w, env, job.path, es, broken, 0).0;
    FedTrace(w, w', env, job.path, Feeds);
    FeedsPass(w, w', job.path);
  }

  /** In the loop only a backup's close is tolerated. */
  lemma FeedsPass(w: World, w': World, path: string)
    requires Extends(w, w') && forall i :: |w.trace| <= i < |w'.trace| ==> InScope(w'.trace[i].call, path, Feeds)
    ensures (forall i :: |w.trace| <= i < |w'.trace| ==> Passed(w'.trace[i])) <==> !WriteFailed(w, w')
  {
    hide RootFile;
    forall i | |w.trace| <= i < |w'.trace|
      ensures Tolerated(w'.trace[i].call) <==> IsClose(w'.trace[i].call)
    {
      assert InScope(w'.trace[i].call, path, Feeds);
    }
  }

  /** Some call between the two worlds, with its reply, is of this kind. */
  predicate Any(w: World, w': World, kind: Event -> bool) { exists i :: |w.trace| <= i < |w'.trace| && kind(w'.trace[i]) }

  /** The size file could not be written. */
  predicate SizeRefused(e: Event) { e.call.WriteFile? && e.call.file == "size" && !e.ok }

  /** A removal succeeded. */
  predicate Removed(e: Event) { e.call.RemoveLayer? && e.ok }

  lemma AnyFirst(w: World, env: Env, c: Call, w': World, kind: Event -> bool)
    requires Extends(Perform(w, env, c), w')
    ensures var w1 := Perform(w, env, c); Any(w, w', kind) <==> kind(Last(w1)) || Any(w1, w', kind)
  {
    hide Perform;
    var w1 := Perform(w, env, c);
    TraceOne(w, env, c);
    assert w'.trace[..|w1.trace|][|w.trace|] == Last(w1) == w'.trace[|w.trace|];
  }

  lemma AnyLast(w: World, w1: World, env: Env, c: Call, kind: Event -> bool)
    requires Extends(w, w1)
    ensures var w' := Perform(w1, env, c); Any(w, w', kind) <==> Any(w, w1, kind) || kind(Last(w'))
  {
    hide Perform;
    TraceOne(w1, env, c);
    var w' := Perform(w1, env, c);
    assert forall i :: 0 <= i < |w1.trace| ==> w'.trace[..|w1.trace|][i] == w1.trace[i] == w'.trace[i];
    assert w'.trace[|w1.trace|] == Last(w');
  }

  lemma AnyNone(w: World, kind: Event -> bool)
    ensures !Any(w, w, kind)
  {
  }

  /** A result's size: the total, also if only the size file could not be written, or 0. */
  predicate SizeIs(w: World, w': World, r: Result, job: Job) {
    r.Returned? && r.size == if !r.failed || Any(w, w', SizeRefused) then Wrap64(TotalSize(job.tape.entries)) else 0
  }

  lemma FillExact(w: World, env: Env, job: Job)
    requires job.path in w.disk.folders
    ensures var (w', r) := Fill(w, env, job);
            && Extends(w, w') && r.Returned?
            && (!r.failed <==> Good(job) && Smooth(w, w', Ops(job)))
            && SizeIs(w, w', r, job) && !Any(w, w', Removed)
  {
    hide Feed, Perform, Smooth, Good, Ops, FormatInt, Wrap64, TotalSize, Any, Extends;
    var w0 := Perform(w, env, Next);
    ReadEffect(w, env, Next);
    ReplyOf(w, env, Next);
    TraceOne(w, env, Next);
    LoopExact(w0, env, job);
    var (w1, end, total) := Feed(w0, env, job.path, job.tape.entries, job.tape.broken, 0);
    TraceThen(w, w0, w1);
    SmoothFirst(w, env, Next, w1, Ops(job));
    LoopIsQuiet(w, w0, w1, env, job);
    if end == Eof {
      var c := WriteFile(job.path, SIZE_FILE, FormatInt(total));
      SmoothLast(w, w1, env, c, Ops(job));
      TraceOne(w1, env, c);
      AnyLast(w, w1, env, c, SizeRefused);
      AnyLast(w, w1, env, c, Removed);
    }
  }

  lemma LoopIsQuiet(w: World, w0: World, w1: World, env: Env, job: Job)
    requires w0 == Perform(w, env, Next) && w1 == Feed(w0, env, job.path, job.tape.entries, job.tape.broken, 0).0
    ensures Extends(w, w1) && !Any(w, w1, SizeRefused) && !Any(w, w1, Removed)
  {
    hide Feed, Perform, RootFile;
    TraceOne(w, env, Next);
    FeedFed(w0, env, job.path, job.tape.entries, job.tape.broken, 0, Feeds);
    FedTrace(w0, w1, env, job.path, Feeds);
    TraceThen(w, w0, w1);
    assert w1.trace[..|w0.trace|][|w.trace|] == Last(w0);
  }

  lemma BuildExact(w: World, env: Env, job: Job)
    requires job.path !in w.disk.folders
    ensures var (w', r) := Build(w, env, job);
            && Extends(w, w') && r.Returned?
            && (!r.failed <==> Good(job) && Smooth(w, w', Ops(job)))
            && SizeIs(w, w', r, job) && !Any(w, w', Removed)
  {
    hide Fill, Perform, Smooth, Good, Ops, Wrap64, TotalSize, Passed, Extends, Any;
    var n, c1, c2 := Ops(job), MkdirAll(job.path), NewWriter(job.path, job.parents);
    var w1 := Perform(w, env, c1);
    Alone(w, env, c1, n);
    MkdirEffect(w, env, job.path);
    if Last(w1).ok {
      var w2 := Perform(w1, env, c2);
      Alone(w1, env, c2, n);
      SmoothFirst(w, env, c1, w2, n);
      Skip(w, env, c1, w2);
      NewWriterEffect(w1, env, job.path, job.parents);
      if Last(w2).ok {
        var w3 := Perform(w2, env, SetReader);
        ReadEffect(w2, env, SetReader);
        ReplyOf(w2, env, SetReader);
        FillExact(w3, env, job);
        var w4 := Fill(w3, env, job).0;
        Closing(w3, w4, env, job.path, n);
        var w' := Perform(Perform(w4, env, ResetReader), env, CloseWriter(job.path));
        SmoothFirst(w2, env, SetReader, w', n);
        SmoothFirst(w1, env, c2, w', n);
        SmoothFirst(w, env, c1, w', n);
        Skip(w2, env, SetReader, w');
        Skip(w1, env, c2, w');
        Skip(w, env, c1, w');
        PassedIs(Last(w3));
      }
      PassedIs(Last(w2));
    }
    PassedIs(Last(w1));
  }

  lemma PassedIs(e: Event)
    ensures !Tolerated(e.call) ==> (Passed(e) <==> e.ok)
    ensures Tolerated(e.call) ==> Passed(e)
  {
  }

  /** One silent call by itself. */
  lemma Alone(w: World, env: Env, c: Call, n: nat)
    requires Silent(c)
    ensures var w1 := Perform(w, env, c);
            && Extends(w, w1) && Last(w1).call == c && (Smooth(w, w1, n) <==> Passed(Last(w1)))
            && (!c.WriteFile? ==> !Any(w, w1, SizeRefused)) && (!c.RemoveLayer? ==> !Any(w, w1, Removed))
  {
    hide Perform, Tolerated, Issued;
    TraceOne(w, env, c);
    SmoothFirst(w, env, c, Perform(w, env, c), n);
  }

  /** A call that neither writes nor removes makes no difference to what was written and removed. */
  lemma Skip(w: World, env: Env, c: Call, w': World)
    requires !c.WriteFile? && !c.RemoveLayer? && Extends(Perform(w, env, c), w')
    ensures var w1 := Perform(w, env, c);
            (Any(w, w', SizeRefused) <==> Any(w1, w', SizeRefused)) && (Any(w, w', Removed) <==> Any(w1, w', Removed))
  {
    hide Perform, Any, Extends;
    TraceOne(w, env, c);
    AnyFirst(w, env, c, w', SizeRefused);
    AnyFirst(w, env, c, w', Removed);
  }

  lemma SkipLast(w: World, w1: World, env: Env, c: Call)
    requires !c.WriteFile? && !c.RemoveLayer? && Extends(w, w1)
    ensures var w' := Perform(w1, env, c);
            (Any(w, w', SizeRefused) <==> Any(w, w1, SizeRefused)) && (Any(w, w', Removed) <==> Any(w, w1, Removed))
  {
    hide Perform, Any, Extends;
    TraceOne(w1, env, c);
    AnyLast(w, w1, env, c, SizeRefused);
    AnyLast(w, w1, env, c, Removed);
  }

  /** Resetting the reader and closing the writer change nothing about how smoothly it went. */
  lemma Closing(w: World, w1: World, env: Env, path: string, n: nat)
    requires Extends(w, w1)
    ensures var w' := Perform(Perform(w1, env, ResetReader), env, CloseWriter(path));
            && Extends(w, w') && (Smooth(w, w', n) <==> Smooth(w, w1, n))
            && (Any(w, w', SizeRefused) <==> Any(w, w1, SizeRefused)) && (Any(w, w', Removed) <==> Any(w, w1, Removed))
  {
    hide Perform, Smooth, Any;
    var w2 := Perform(w1, env, ResetReader);
    ReplyOf(w1, env, ResetReader);
    SmoothLast(w, w1, env, ResetReader, n);
    SmoothLast(w, w2, env, CloseWriter(path), n);
    SkipLast(w, w1, env, ResetReader);
    SkipLast(w, w2, env, CloseWriter(path));
    TraceOne(w2, env, CloseWriter(path));
  }

  // ---------------------------------------------------- the whole run

  /** Among the calls between the two worlds are those of a `DestroyLayer` that came to this end. */
  ghost predicate Destroyed(w: World, w': World, path: string, s: Status)
    requires Extends(w, w')
  {
    exists a, b :: |w.trace| <= a <= b <= |w'.trace| && Destroys(w'.trace[a..b], path, s)
  }

  /**
   How a run on a layer without a size file ends. It succeeds exactly if the archive is good to its end, no call was
   refused, no close cut it short and, if there was a folder, it could be removed. If only the removal stood in the
   way, the run fails or panics as `DestroyLayer` did. A failure returns 0, or the total if only the size file could
   not be written.
   */
  ghost predicate EndsAs(w: World, w': World, r: Result, job: Job)
    requires Extends(w, w')
  {
    var there := job.path in w.disk.folders;
    && (Succeeded(r) <==> Good(job) && Smooth(w, w', Ops(job)) && (there ==> Any(w, w', Removed)))
    && (r.Panicked? ==> there && Destroyed(w, w', job.path, Panic))
    && (r.Returned? && r.failed && Good(job) && Smooth(w, w', Ops(job)) ==> there && Destroyed(w, w', job.path, Err))
    && (r.Returned? ==> SizeIs(w, w', r, job))
  }

  /** From where the folder is known to be there and its size file not to be. */
  lemma DestroyPart(w: World, env: Env, job: Job)
    requires job.path in w.disk.folders
    ensures var (w2, s) := DestroyRun(w, env, job.path);
            var (w', r) := match s case Nil => Build(w2, env, job) case Err => (w2, FAIL) case Panic => (w2, Panicked);
            Extends(w, w') && EndsAs(w, w', r, job)
  {
    hide Build, DestroyFrom, Smooth, Good, Ops, Wrap64, TotalSize, Destroys, Any;
    var (w2, s) := DestroyRun(w, env, job.path);
    DestroyReads(w, env, job.path);
    DestroyOutcome(w, env, job.path, 3);
    var a, b := |w.trace|, |w2.trace|;
    assert w2.trace[a..b] == Since(w, w2);
    if s == Nil {
      BuildExact(w2, env, job);
      var w' := Build(w2, env, job).0;
      TraceThen(w, w2, w');
      DestroySmooth(w, env, job.path, 3, w', Ops(job));
    } else {
      ExtendsSelf(w2);
      DestroySmooth(w, env, job.path, 3, w2, Ops(job));
      AnyNone(w2, SizeRefused);
      AnyNone(w2, Removed);
    }
  }

  /** Destroying is tolerated whatever its calls reply, and has removed the layer exactly if it succeeded. */
  lemma {:induction false} DestroySmooth(w: World, env: Env, path: string, k: nat, w': World, n: nat)
    requires k >= 1 && Extends(DestroyFrom(w, env, path, k).0, w')
    ensures var (w1, s) := DestroyFrom(w, env, path, k);
            && Extends(w, w') && (Smooth(w, w', n) <==> Smooth(w1, w', n))
            && (Any(w, w', SizeRefused) <==> Any(w1, w', SizeRefused))
            && (Any(w, w', Removed) <==> s == Nil || Any(w1, w', Removed))
    decreases k
  {
    hide Perform, Smooth, Any, DestroyFrom, Extends, Attempt;
    var w1 := Perform(w, env, UnprepareLayer(path));
    var w2 := Perform(w1, env, DeactivateLayer(path));
    var w3 := Perform(w2, env, RemoveLayer(path));
    AttemptTrace(w, env, path);
    DestroyStep(w, env, path, k);
    if !Last(w3).ok && k > 1 {
      DestroySmooth(w3, env, path, k - 1, w', n);
    }
    Alone(w, env, UnprepareLayer(path), n);
    Alone(w1, env, DeactivateLayer(path), n);
    Alone(w2, env, RemoveLayer(path), n);
    SmoothFirst(w2, env, RemoveLayer(path), w', n);
    SmoothFirst(w1, env, DeactivateLayer(path), w', n);
    SmoothFirst(w, env, UnprepareLayer(path), w', n);
    AnyFirst(w2, env, RemoveLayer(path), w', SizeRefused);
    AnyFirst(w2, env, RemoveLayer(path), w', Removed);
    Skip(w1, env, DeactivateLayer(path), w');
    Skip(w, env, UnprepareLayer(path), w');
  }

  /** A call in front that passes and touches nothing leaves the end as it is. */
  lemma EndsFirst(w: World, env: Env, c: Call, w': World, r: Result, job: Job)
    requires Silent(c) && Reads(c) && Extends(Perform(w, env, c), w') && Passed(Last(Perform(w, env, c)))
    requires EndsAs(Perform(w, env, c), w', r, job)
    ensures Extends(w, w') && EndsAs(w, w', r, job)
  {
    hide Perform, Smooth, Good, Ops, Wrap64, TotalSize, Any, Destroys, Tolerated;
    ReadEffect(w, env, c);
    SmoothFirst(w, env, c, w', Ops(job));
    Skip(w, env, c, w');
  }

  /** And so does the release of the privileges at the end. */
  lemma EndsLast(w: World, w1: World, env: Env, r: Result, job: Job)
    requires Extends(w, w1) && EndsAs(w, w1, r, job)
    ensures var w' := Perform(w1, env, DisablePrivileges); Extends(w, w') && EndsAs(w, w', r, job)
  {
    hide Perform, Smooth, Good, Ops, Wrap64, TotalSize, Any, Destroys;
    var w' := Perform(w1, env, DisablePrivileges);
    TraceOne(w1, env, DisablePrivileges);
    SmoothLast(w, w1, env, DisablePrivileges, Ops(job));
    SkipLast(w, w1, env, DisablePrivileges);
    forall s | Destroyed(w, w1, job.path, s)
      ensures Destroyed(w, w', job.path, s)
    {
      var a, b :| |w.trace| <= a <= b <= |w1.trace| && Destroys(w1.trace[a..b], job.path, s);
      SameSlice(w1.trace, w'.trace, a, b);
    }
  }

  lemma SameSlice(t: seq<Event>, t': seq<Event>, a: nat, b: nat)
    requires a <= b <= |t| <= |t'| && t'[..|t|] == t
    ensures t'[a..b] == t[a..b]
  {
    assert forall i :: 0 <= i < |t| ==> t'[..|t|][i] == t'[i];
  }

  /** A refused call ends the run. */
  lemma EndsRefused(w: World, env: Env, c: Call, job: Job)
    requires Silent(c) && !Tolerated(c) && !c.WriteFile? && !Last(Perform(w, env, c)).ok
    ensures var w1 := Perform(w, env, c); Extends(w, w1) && EndsAs(w, w1, FAIL, job)
  {
    hide Perform, Smooth, Good, Ops, Wrap64, TotalSize, Any, Destroys, Tolerated;
    Alone(w, env, c, Ops(job));
  }

  lemma ElevatedExact(w: World, env: Env, job: Job)
    requires !Marked(w.disk, job.path)
    ensures var (w', r) := Elevated(w, env, job, job.path in w.disk.folders); Extends(w, w') && EndsAs(w, w', r, job)
  {
    hide Perform, Build, DestroyFrom, EndsAs, ParseInt;
    if job.path !in w.disk.folders {
      BuildEnds(w, env, job);
    } else {
      var c := ReadFile(job.path, SIZE_FILE);
      ReplyOf(w, env, c);
      ReadEffect(w, env, c);
      var w1 := Perform(w, env, c);
      if !Last(w1).ok {
        EndsRefused(w, env, c, job);
      } else {
        DestroyPart(w1, env, job);
        var (w2, s) := DestroyRun(w1, env, job.path);
        var (w', r) := match s case Nil => Build(w2, env, job) case Err => (w2, FAIL) case Panic => (w2, Panicked);
        EndsFirst(w, env, c, w', r, job);
      }
    }
  }

  lemma BuildEnds(w: World, env: Env, job: Job)
    requires job.path !in w.disk.folders
    ensures var (w', r) := Build(w, env, job); Extends(w, w') && EndsAs(w, w', r, job)
  {
    hide Build, Smooth, Good, Ops, Wrap64, TotalSize, Any, Destroys;
    BuildExact(w, env, job);
  }

  /** Exactly how every run of `Unpack` on a layer without a size file ends. */
  lemma UnpackExact(w: World, env: Env, job: Job)
    requires !Marked(w.disk, job.path)
    ensures var (w', r) := UnpackRun(w, env, job); Extends(w, w') && EndsAs(w, w', r, job)
  {
    hide Perform, Elevated, EndsAs;
    var c1 := LayerExists(job.path);
    var w1 := Perform(w, env, c1);
    ReplyOf(w, env, c1);
    ReadEffect(w, env, c1);
    if !Last(w1).ok {
      EndsRefused(w, env, c1, job);
    } else {
      var w2 := Perform(w1, env, EnablePrivileges);
      ReadEffect(w1, env, EnablePrivileges);
      if !Last(w2).ok {
        EndsRefused(w1, env, EnablePrivileges, job);
        EndsFirst(w, env, c1, w2, FAIL, job);
      } else {
        ElevatedExact(w2, env, job);
        var (w3, r) := Elevated(w2, env, job, Last(w1).found);
        EndsLast(w2, w3, env, r, job);
        var w' := Perform(w3, env, DisablePrivileges);
        EndsFirst(w1, env, EnablePrivileges, w', r, job);
        EndsFirst(w, env, c1, w', r, job);
      }
    }
  }

  /** And on a layer with one: the parsed text if the three calls that look at it pass, and a failure otherwise. */
  lemma CachedExact(w: World, env: Env, job: Job)
    requires Marked(w.disk, job.path)
    ensures var (w', r) := UnpackRun(w, env, job);
            var (size, ok) := ParseInt(w.disk.folders[job.path].files["size"]);
            && Extends(w, w') && w'.disk == w.disk
            && r == if Smooth(w, w', 0) then Returned(size, !ok) else Returned(0, true)
  {
    hide Perform, Build, DestroyFrom, ParseInt, Smooth, Tolerated;
    var c1, c3 := LayerExists(job.path), ReadFile(job.path, SIZE_FILE);
    var w1 := Perform(w, env, c1);
    ReplyOf(w, env, c1);
    ReadEffect(w, env, c1);
    Alone(w, env, c1, 0);
    LookPasses(Last(w1));
    if Last(w1).ok {
      var w2 := Perform(w1, env, EnablePrivileges);
      ReadEffect(w1, env, EnablePrivileges);
      Alone(w1, env, EnablePrivileges, 0);
      LookPasses(Last(w2));
      SmoothFirst(w, env, c1, w2, 0);
      if Last(w2).ok {
        var w3 := Perform(w2, env, c3);
        ReplyOf(w2, env, c3);
        ReadEffect(w2, env, c3);
        Alone(w2, env, c3, 0);
        LookPasses(Last(w3));
        SmoothLast(w2, w3, env, DisablePrivileges, 0);
        var w' := Perform(w3, env, DisablePrivileges);
        ReadEffect(w3, env, DisablePrivileges);
        TraceOne(w3, env, DisablePrivileges);
        LookPasses(Last(w'));
        SmoothFirst(w1, env, EnablePrivileges, w', 0);
        SmoothFirst(w, env, c1, w', 0);
      }
    }
  }

  lemma LookPasses(e: Event)
    ensures e.call.LayerExists? || e.call.EnablePrivileges? || e.call.ReadFile? ==> (Passed(e) <==> e.ok)
    ensures e.call.DisablePrivileges? ==> Passed(e)
  {
  }
}
