/**
 Lexical path processing as driver/driver.go and driver/unpack.go use it: `filepath` on Windows (both
 slashes separate, drive letters are volumes) and `path` (only '/' separates). A path is normalised by
 running its components through a stack.

 Outside the model: UNC and device volumes (`\\host\share`, `\??\x`) and colons other than a drive's.
 */
module WinPath {

  predicate IsSep(c: char, win: bool) { c == '/' || (win && c == '\\') }

  /** The index of the first separator, or the length. */
  function FirstSep(s: string, win: bool): (n: nat)
    ensures n <= |s|
    ensures forall i :: 0 <= i < n ==> !IsSep(s[i], win)
    ensures n < |s| ==> IsSep(s[n], win)
  {
    if s == "" || IsSep(s[0], win) then 0 else 1 + FirstSep(s[1..], win)
  }

  function Split(s: string, win: bool): (r: seq<string>)
    ensures |r| >= 1
    decreases |s|
  {
    var n := FirstSep(s, win);
    if n == |s| then [s] else [s[..n]] + Split(s[n + 1..], win)
  }

  function Separator(win: bool): string { if win then "\\" else "/" }

  function Render(cs: seq<string>, win: bool): string {
    if cs == [] then ""
    else if |cs| == 1 then cs[0]
    else cs[0] + Separator(win) + Render(cs[1..], win)
  }

  /** The component stack: "" and "." vanish, ".." pops, and stays only at the bottom of an unrooted path. */
  function Reduce(rooted: bool, stack: seq<string>, cs: seq<string>): seq<string>
    decreases |cs|
  {
    if cs == [] then stack
    else if cs[0] == "" || cs[0] == "." then Reduce(rooted, stack, cs[1..])
    else if cs[0] == ".." then
      if stack != [] && stack[|stack| - 1] != ".." then Reduce(rooted, stack[..|stack| - 1], cs[1..])
      else if rooted then Reduce(rooted, stack, cs[1..])
      else Reduce(rooted, stack + [".."], cs[1..])
    else Reduce(rooted, stack + [cs[0]], cs[1..])
  }

  predicate Rooted(s: string, win: bool) { s != "" && IsSep(s[0], win) }

  /** Clean applied to a path without its volume. */
  function CleanRest(s: string, win: bool): string {
    var body := Render(Reduce(Rooted(s, win), [], Split(s, win)), win);
    if Rooted(s, win) then Separator(win) + body
    else if body == "" then "."
    else body
  }

  /** `path.Clean`. */
  function UnixClean(s: string): string { CleanRest(s, false) }

  /** `filepath.VolumeName`, for paths whose volume can only be a drive letter. */
  function VolumeName(s: string): string {
    if |s| >= 2 && s[1] == ':' then s[..2] else ""
  }

  /** `filepath.Clean`. */
  function Clean(s: string): string {
    VolumeName(s) + CleanRest(s[|VolumeName(s)|..], true)
  }

  function TrimLeft(s: string): string {
    if s != "" && IsSep(s[0], true) then TrimLeft(s[1..]) else s
  }

  /** How `filepath.Join` puts one more element behind what it has collected. */
  function Glue(acc: string, e: string): string {
    if acc == "" then e
    else if IsSep(acc[|acc| - 1], true) then acc + TrimLeft(e)
    else if acc[|acc| - 1] == ':' then acc + e
    else acc + "\\" + e
  }

  /** `filepath.Join` of two elements. */
  function Join(a: string, b: string): string {
    var s := Glue(a, b);
    if s == "" then "" else Clean(s)
  }

  /** `filepath.Join` of three elements. */
  function Join3(a: string, b: string, c: string): string {
    var s := Glue(Glue(a, b), c);
    if s == "" then "" else Clean(s)
  }

  /** `filepath.FromSlash`. */
  function FromSlash(s: string): (r: string)
    ensures |r| == |s|
    ensures forall i :: 0 <= i < |s| ==> r[i] == if s[i] == '/' then '\\' else s[i]
  {
    if s == "" then "" else [if s[0] == '/' then '\\' else s[0]] + FromSlash(s[1..])
  }

  function TrimRightSlash(s: string): string {
    if s != "" && s[|s| - 1] == '/' then TrimRightSlash(s[..|s| - 1]) else s
  }

  /** The length of the longest prefix that ends in '/'. */
  function LastSlash(s: string): (n: nat)
    ensures n <= |s|
    ensures n > 0 ==> s[n - 1] == '/'
    ensures forall i :: n <= i < |s| ==> s[i] != '/'
  {
    if s == "" then 0
    else if s[|s| - 1] == '/' then |s|
    else LastSlash(s[..|s| - 1])
  }

  /** `path.Base`. */
  function Base(s: string): string {
    if s == "" then "."
    else
      var t := TrimRightSlash(s);
      var b := t[LastSlash(t)..];
      if b == "" then "/" else b
  }

  /** `path.Dir`. */
  function Dir(s: string): string { UnixClean(s[..LastSlash(s)]) }

  // ---------------------------------------------------- driver/driver.go

  function ToWindowsPath(input: string): string {
    Clean(if VolumeName(input) == "" then Join("C:\\", input) else input)
  }

  const LAYER_DIR := "layers"
  const VOLUME_DIR := "volumes"

  function LayerStore(store: string): string { ToWindowsPath(Join(store, LAYER_DIR)) }

  function VolumeStore(store: string): string { ToWindowsPath(Join(store, VOLUME_DIR)) }

  function LayerPath(store: string, id: string): string { Join(LayerStore(store), id) }

  function VolumePath(store: string, id: string): string { Join(VolumeStore(store), id) }

  // ---------------------------------------------------- splitting and rendering

  predicate Atom(c: string, win: bool) { forall i :: 0 <= i < |c| ==> !IsSep(c[i], win) }

  /** A component that survives normalisation as itself. */
  predicate Name(c: string) { c != "" && c != "." && c != ".." && Atom(c, true) }

  /** A layer or bundle ID that names one folder. */
  predicate SingleName(id: string) { Name(id) && ':' !in id }

  lemma {:induction false} SplitAtoms(s: string, win: bool)
    ensures forall i :: 0 <= i < |Split(s, win)| ==> Atom(Split(s, win)[i], win)
    decreases |s|
  {
    var n := FirstSep(s, win);
    if n < |s| { SplitAtoms(s[n + 1..], win); }
  }

  lemma {:induction false} SplitAtom(c: string, win: bool)
    requires Atom(c, win)
    ensures Split(c, win) == [c]
  {
    assert FirstSep(c, win) == |c|;
  }

  lemma {:induction false} SplitConcat(a: string, sep: char, b: string, win: bool)
    requires IsSep(sep, win)
    ensures Split(a + [sep] + b, win) == Split(a, win) + Split(b, win)
    decreases |a|
  {
    hide Split, FirstSep;
    var s, n := a + [sep] + b, FirstSep(a, win);
    FirstSepIs(s, n, win);
    SplitStep(s, win);
    SplitStep(a, win);
    assert s[..n] == a[..n];
    if n == |a| {
      assert s[n + 1..] == b && a[..n] == a;
    } else {
      assert s[n + 1..] == a[n + 1..] + [sep] + b;
      SplitConcat(a[n + 1..], sep, b, win);
    }
  }

  lemma {:induction false} SplitStep(s: string, win: bool)
    ensures var n := FirstSep(s, win); Split(s, win) == if n == |s| then [s] else [s[..n]] + Split(s[n + 1..], win)
  {
  }

  lemma FirstSepIs(s: string, n: nat, win: bool)
    requires n < |s| && IsSep(s[n], win) && forall i :: 0 <= i < n ==> !IsSep(s[i], win)
    ensures FirstSep(s, win) == n
  {
  }

  /** Windows splitting undoes rendering with either separator. */
  lemma {:induction false} SplitRender(cs: seq<string>, win: bool)
    requires cs != []
    requires forall i :: 0 <= i < |cs| ==> Atom(cs[i], true)
    ensures Split(Render(cs, win), true) == cs
  {
    SplitAtom(cs[0], true);
    if |cs| > 1 {
      SplitConcat(cs[0], Separator(win)[0], Render(cs[1..], win), true);
      SplitRender(cs[1..], win);
    }
  }

  /** Without backslashes the two ways of splitting agree. */
  lemma {:induction false} SplitSame(s: string)
    requires '\\' !in s
    ensures Split(s, true) == Split(s, false)
    decreases |s|
  {
    hide Split, FirstSep;
    var n := FirstSep(s, false);
    SplitStep(s, false);
    SplitStep(s, true);
    if n < |s| {
      FirstSepIs(s, n, true);
      SplitSame(s[n + 1..]);
    } else {
      SplitAtom(s, true);
    }
  }

  lemma {:induction false} SplitFromSlash(s: string)
    ensures Split(FromSlash(s), true) == Split(s, true)
    decreases |s|
  {
    hide Split, FirstSep;
    var n, t := FirstSep(s, true), FromSlash(s);
    SplitStep(s, true);
    SplitStep(t, true);
    if n < |s| {
      FirstSepIs(t, n, true);
      assert t[..n] == s[..n];
      assert t[n + 1..] == FromSlash(s[n + 1..]);
      SplitFromSlash(s[n + 1..]);
    } else {
      SplitAtom(t, true);
      assert t == s;
    }
  }

  // ---------------------------------------------------- the stack

  lemma {:induction false} ReduceConcat(rooted: bool, stack: seq<string>, a: seq<string>, b: seq<string>)
    ensures Reduce(rooted, stack, a + b) == Reduce(rooted, Reduce(rooted, stack, a), b)
    decreases |a|
  {
    if a == [] {
      assert a + b == b;
    } else {
      assert (a + b)[1..] == a[1..] + b;
      if a[0] == "" || a[0] == "." {
        ReduceConcat(rooted, stack, a[1..], b);
      } else if a[0] == ".." {
        if stack != [] && stack[|stack| - 1] != ".." {
          ReduceConcat(rooted, stack[..|stack| - 1], a[1..], b);
        } else if rooted {
          ReduceConcat(rooted, stack, a[1..], b);
        } else {
          ReduceConcat(rooted, stack + [".."], a[1..], b);
        }
      } else {
        ReduceConcat(rooted, stack + [a[0]], a[1..], b);
      }
    }
  }

  /** What the stack can hold: names, and below them, if the path is not rooted, a run of "..". */
  predicate Stacked(rooted: bool, st: seq<string>) {
    && (forall i :: 0 <= i < |st| ==> Name(st[i]) || (!rooted && st[i] == ".."))
    && (forall i, j :: 0 <= i < j < |st| && st[j] == ".." ==> st[i] == "..")
  }

  lemma {:induction false} ReduceStacked(rooted: bool, stack: seq<string>, cs: seq<string>)
    requires Stacked(rooted, stack)
    requires forall i :: 0 <= i < |cs| ==> Atom(cs[i], true)
    ensures Stacked(rooted, Reduce(rooted, stack, cs))
    decreases |cs|
  {
    if cs != [] {
      if cs[0] == "" || cs[0] == "." {
        ReduceStacked(rooted, stack, cs[1..]);
      } else if cs[0] == ".." {
        if stack != [] && stack[|stack| - 1] != ".." {
          ReduceStacked(rooted, stack[..|stack| - 1], cs[1..]);
        } else if rooted {
          ReduceStacked(rooted, stack, cs[1..]);
        } else {
          ReduceStacked(rooted, stack + [".."], cs[1..]);
        }
      } else {
        assert Name(cs[0]);
        ReduceStacked(rooted, stack + [cs[0]], cs[1..]);
      }
    }
  }

  /** A normalised path is its own normal form. */
  lemma {:induction false} ReduceFixed(rooted: bool, stack: seq<string>, cs: seq<string>)
    requires Stacked(rooted, stack + cs)
    ensures Reduce(rooted, stack, cs) == stack + cs
    decreases |cs|
  {
    if cs != [] {
      var st := stack + cs;
      assert st[|stack|] == cs[0];
      if cs[0] == ".." && stack != [] {
        assert st[|stack| - 1] == "..";
      }
      assert stack + [cs[0]] + cs[1..] == st;
      ReduceFixed(rooted, stack + [cs[0]], cs[1..]);
    }
  }

  /** The names of an unrooted stack, without its leading "..". */
  function Strip(st: seq<string>): seq<string> {
    if st != [] && st[0] == ".." then Strip(st[1..]) else st
  }

  lemma {:induction false} StripPush(st: seq<string>, c: string)
    requires c != ".."
    ensures Strip(st + [c]) == Strip(st) + [c]
  {
    if st != [] && st[0] == ".." {
      assert (st + [c])[1..] == st[1..] + [c];
      StripPush(st[1..], c);
    }
  }

  lemma {:induction false} StripDots(st: seq<string>)
    requires Stacked(false, st)
    requires st == [] || st[|st| - 1] == ".."
    ensures Strip(st) == [] && Strip(st + [".."]) == []
  {
    if st != [] {
      assert st[0] == "..";
      assert (st + [".."])[1..] == st[1..] + [".."];
      StripDots(st[1..]);
    } else {
      assert (st + [".."])[1..] == [];
    }
  }

  /** Normalising an unrooted path first and rooting it afterwards is the same as rooting it at once. */
  lemma {:induction false} RootLater(st: seq<string>, cs: seq<string>)
    requires Stacked(false, st)
    requires forall i :: 0 <= i < |cs| ==> Atom(cs[i], true)
    ensures Reduce(true, Strip(st), cs) == Strip(Reduce(false, st, cs))
    decreases |cs|
  {
    hide Stacked, Strip;
    if cs != [] {
      if cs[0] == "" || cs[0] == "." {
        RootLater(st, cs[1..]);
      } else if cs[0] == ".." {
        if st != [] && st[|st| - 1] != ".." {
          StripPop(st);
          RootLater(st[..|st| - 1], cs[1..]);
        } else {
          StripDots(st);
          StackedPush(st, "..");
          RootLater(st + [".."], cs[1..]);
        }
      } else {
        StripPush(st, cs[0]);
        assert Name(cs[0]);
        StackedPush(st, cs[0]);
        RootLater(st + [cs[0]], cs[1..]);
      }
    }
  }

  lemma StripPop(st: seq<string>)
    requires Stacked(false, st) && st != [] && st[|st| - 1] != ".."
    ensures Strip(st) != [] && Strip(st)[|Strip(st)| - 1] == st[|st| - 1]
    ensures Strip(st)[..|Strip(st)| - 1] == Strip(st[..|st| - 1]) && Stacked(false, st[..|st| - 1])
  {
    hide Strip;
    var pre := st[..|st| - 1];
    assert st == pre + [st[|st| - 1]];
    StripPush(pre, st[|st| - 1]);
  }

  lemma StackedPush(st: seq<string>, c: string)
    requires Stacked(false, st) && (Name(c) || (c == ".." && (st == [] || st[|st| - 1] == "..")))
    ensures Stacked(false, st + [c])
  {
  }

  lemma StripReduces(st: seq<string>)
    requires Stacked(false, st)
    ensures Strip(st) == Reduce(true, [], st)
  {
    RootLater([], st);
    ReduceFixed(false, [], st);
    assert [] + st == st;
  }

  // ---------------------------------------------------- Clean

  /** The components of `s` seen from a root. */
  function Parts(s: string): seq<string> { Reduce(true, [], Split(s, true)) }

  /** Behind a separator, an empty component and "." add nothing, ".." takes the last name away, a name is added. */
  lemma PartsLaw(s: string, sep: char, c: string)
    requires IsSep(sep, true) && Atom(c, true)
    ensures Parts("") == []
    ensures var p := Parts(s);
            Parts(s + [sep] + c) ==
              if c == "" || c == "." then p else if c == ".." then (if p == [] then [] else p[..|p| - 1]) else p + [c]
  {
    hide Split;
    SplitAtom("", true);
    SplitAtom(c, true);
    assert [""][1..] == [] && [c][1..] == [];
    SplitConcat(s, sep, c, true);
    ReduceConcat(true, [], Split(s, true), [c]);
    PartsStacked(s);
    assert Reduce(true, [], [""]) == [];
  }

  lemma PartsStacked(s: string)
    ensures Stacked(true, Parts(s))
  {
    SplitAtoms(s, true);
    ReduceStacked(true, [], Split(s, true));
  }

  /** A rooted clean path splits back into its names. */
  lemma SplitRooted(cs: seq<string>)
    requires Stacked(true, cs)
    ensures Reduce(true, [], Split("\\" + Render(cs, true), true)) == cs
    ensures Parts(Render(cs, true)) == cs
  {
    var body := Render(cs, true);
    SplitConcat("", '\\', body, true);
    assert "" + ['\\'] + body == "\\" + body;
    if cs != [] {
      SplitRender(cs, true);
    }
    assert Reduce(true, [], Split(body, true)) == cs by {
      ReduceFixed(true, [], cs);
      assert [] + cs == cs;
    }
    ReduceConcat(true, [], [""], Split(body, true));
  }

  /** Cleaning does not move a path, seen from a root. */
  lemma PartsClean(s: string)
    ensures Parts(CleanRest(s, true)) == Parts(s)
  {
    var cs := Split(s, true);
    SplitAtoms(s, true);
    var r := Rooted(s, true);
    var st := Reduce(r, [], cs);
    ReduceStacked(r, [], cs);
    if r {
      SplitRooted(st);
    } else {
      RootLater([], cs);
      StripReduces(st);
      if st == [] {
        SplitAtom(".", true);
      } else {
        SplitRender(st, true);
        RenderNonEmpty(st);
      }
    }
  }

  lemma RenderNonEmpty(cs: seq<string>)
    requires cs != [] && cs[0] != ""
    ensures Render(cs, true) != "" && Render(cs, true)[0] == cs[0][0]
  {
  }

  lemma CleanRestIdempotent(s: string)
    ensures CleanRest(CleanRest(s, true), true) == CleanRest(s, true)
  {
    var cs := Split(s, true);
    SplitAtoms(s, true);
    var r := Rooted(s, true);
    var st := Reduce(r, [], cs);
    ReduceStacked(r, [], cs);
    if r {
      SplitRooted(st);
    } else if st == [] {
      SplitAtom(".", true);
    } else {
      assert st[0] != "";
      RenderNonEmpty(st);
      assert Atom(st[0], true);
      SplitRender(st, true);
      ReduceFixed(false, [], st);
      assert [] + st == st;
    }
  }

  // ---------------------------------------------------- no new colons

  lemma {:induction false} SplitPlain(s: string, win: bool)
    requires ':' !in s
    ensures forall i :: 0 <= i < |Split(s, win)| ==> ':' !in Split(s, win)[i]
    decreases |s|
  {
    var n := FirstSep(s, win);
    if n < |s| { SplitPlain(s[n + 1..], win); }
  }

  lemma {:induction false} ReducePlain(rooted: bool, stack: seq<string>, cs: seq<string>)
    requires forall i :: 0 <= i < |stack| ==> ':' !in stack[i]
    requires forall i :: 0 <= i < |cs| ==> ':' !in cs[i]
    ensures forall c :: c in Reduce(rooted, stack, cs) ==> ':' !in c
    decreases |cs|
  {
    if cs != [] {
      if cs[0] == "" || cs[0] == "." {
        ReducePlain(rooted, stack, cs[1..]);
      } else if cs[0] == ".." {
        if stack != [] && stack[|stack| - 1] != ".." {
          ReducePlain(rooted, stack[..|stack| - 1], cs[1..]);
        } else if rooted {
          ReducePlain(rooted, stack, cs[1..]);
        } else {
          ReducePlain(rooted, stack + [".."], cs[1..]);
        }
      } else {
        ReducePlain(rooted, stack + [cs[0]], cs[1..]);
      }
    }
  }

  lemma {:induction false} RenderPlain(cs: seq<string>, win: bool)
    requires forall i :: 0 <= i < |cs| ==> ':' !in cs[i]
    ensures ':' !in Render(cs, win)
  {
    if |cs| > 1 { RenderPlain(cs[1..], win); }
  }

  lemma CleanPlain(s: string, win: bool)
    requires ':' !in s
    ensures ':' !in CleanRest(s, win)
  {
    SplitPlain(s, win);
    ReducePlain(Rooted(s, win), [], Split(s, win));
    RenderPlain(Reduce(Rooted(s, win), [], Split(s, win)), win);
  }

  // ---------------------------------------------------- the stores

  /** An absolute clean path: volume and component names. */
  function Absolute(vol: string, cs: seq<string>): string { vol + "\\" + Render(cs, true) }

  /** No volume name and nothing that could become one. */
  predicate Volumeless(s: string) {
    && ':' !in s && '?' !in s
    && !(|s| >= 2 && IsSep(s[0], true) && IsSep(s[1], true))
  }

  predicate IsLetter(c: char) { 'a' <= c <= 'z' || 'A' <= c <= 'Z' }

  /** An absolute path on a drive. */
  predicate OnDrive(s: string) {
    |s| >= 3 && s[1] == ':' && IsLetter(s[0]) && Rooted(s[2..], true) && Volumeless(s[2..])
  }

  /** The stores covered: no volume name, or an absolute path on a drive. */
  predicate GoodStore(s: string) { Volumeless(s) || OnDrive(s) }

  function Volume(s: string): string { if OnDrive(s) then s[..2] else "C:" }

  function Home(s: string): seq<string> { Parts(if OnDrive(s) then s[2..] else s) }

  lemma {:induction false} TrimLeftParts(s: string)
    ensures Parts("\\" + TrimLeft(s)) == Parts(s)
  {
    SplitConcat("", '\\', TrimLeft(s), true);
    assert "" + ['\\'] + TrimLeft(s) == "\\" + TrimLeft(s);
    if s != "" && IsSep(s[0], true) {
      TrimLeftParts(s[1..]);
      SplitConcat("", '\\', TrimLeft(s[1..]), true);
      assert Split(s, true) == [""] + Split(s[1..], true);
    }
  }

  /** Without a volume the result is rooted at C:\, whatever "..", "." and doubled slashes the input has. */
  lemma ToWindowsVolumeless(input: string)
    requires ':' !in input
    ensures ToWindowsPath(input) == Absolute("C:", Parts(input))
  {
    hide Split, Reduce, Render, TrimLeft;
    assert Glue("C:\\", input) == "C:\\" + TrimLeft(input);
    var joined := Join("C:\\", input);
    var rest := "\\" + TrimLeft(input);
    assert ("C:\\" + TrimLeft(input))[2..] == rest;
    TrimLeftParts(input);
    assert joined == Absolute("C:", Parts(input));
    PartsStacked(input);
    CleanAt("C:", Parts(input));
  }

  lemma CleanAt(vol: string, cs: seq<string>)
    requires |vol| == 2 && vol[1] == ':' && Stacked(true, cs)
    ensures Clean(Absolute(vol, cs)) == Absolute(vol, cs)
  {
    SplitRooted(cs);
    assert Absolute(vol, cs)[2..] == "\\" + Render(cs, true);
  }

  /** Joining a name puts it on top of the stack. */
  lemma GlueParts(s: string, c: string)
    requires Name(c)
    ensures Parts(Glue(s, c)) == if s != "" && s[|s| - 1] == ':' then Parts(s + c) else Parts(s) + [c]
    ensures Glue(s, c) != ""
    ensures s != "" ==> Rooted(Glue(s, c), true) == Rooted(s, true)
  {
    SplitAtom(c, true);
    assert !IsSep(c[0], true);
    if s == "" {
      assert Reduce(true, [], [c]) == [c] && Reduce(true, [], [""]) == [] by {
        assert [c][1..] == [] && [""][1..] == [];
      }
    } else if IsSep(s[|s| - 1], true) {
      var a, sep := s[..|s| - 1], s[|s| - 1];
      assert s == a + [sep] + "" && s + c == a + [sep] + c;
      SplitConcat(a, sep, "", true);
      SplitConcat(a, sep, c, true);
      ReduceConcat(true, [], Split(a, true), [""]);
      ReduceConcat(true, [], Split(a, true), [c]);
    } else if s[|s| - 1] != ':' {
      SplitConcat(s, '\\', c, true);
      assert s + ['\\'] + c == s + "\\" + c;
      ReduceConcat(true, [], Split(s, true), [c]);
    }
  }

  /** Both store directories in closed form. */
  lemma StoreIs(store: string, dir: string)
    requires GoodStore(store) && SingleName(dir)
    ensures ToWindowsPath(Join(store, dir)) == Absolute(Volume(store), Home(store) + [dir])
    ensures Stacked(true, Home(store) + [dir])
  {
    hide Split, Reduce, Render, Glue;
    var t := if OnDrive(store) then store[2..] else store;
    PartsStacked(t);
    if OnDrive(store) {
      JoinOnDrive(store[..2], t, dir);
      assert store[..2] + t == store;
      CleanAt(store[..2], Parts(t) + [dir]);
      assert VolumeName(Absolute(store[..2], Parts(t) + [dir])) != "";
    } else {
      var g := Glue(store, dir);
      GluePlain(store, dir);
      assert VolumeName(g) == "" && g[0..] == g;
      GlueParts(store, dir);
      PartsClean(g);
      CleanPlain(g, true);
      assert store != "" ==> store[|store| - 1] in store;
      var j := Join(store, dir);
      assert j == CleanRest(g, true);
      ToWindowsVolumeless(j);
    }
  }

  lemma GlueDrive(vol: string, t: string, dir: string)
    requires t != ""
    ensures Glue(vol + t, dir) == vol + Glue(t, dir)
  {
    hide TrimLeft;
    var s := vol + t;
    assert s[|s| - 1] == t[|t| - 1];
    assert s + "\\" + dir == vol + (t + "\\" + dir);
    assert s + dir == vol + (t + dir);
    assert s + TrimLeft(dir) == vol + (t + TrimLeft(dir));
  }

  lemma JoinOnDrive(vol: string, t: string, dir: string)
    requires |vol| == 2 && vol[1] == ':' && ':' !in t && Rooted(t, true) && Name(dir)
    ensures Join(vol + t, dir) == Absolute(vol, Parts(t) + [dir])
  {
    hide Split, Reduce, Render, Glue;
    GlueDrive(vol, t, dir);
    assert (vol + Glue(t, dir))[2..] == Glue(t, dir);
    GlueParts(t, dir);
  }

  lemma GlueAt(vol: string, cs: seq<string>, c: string)
    requires |vol| == 2 && Stacked(true, cs) && cs != [] && SingleName(cs[|cs| - 1]) && Name(c)
    ensures Glue(Absolute(vol, cs), c) == Absolute(vol, cs + [c])
  {
    hide Render;
    RenderLast(cs);
    var a := Absolute(vol, cs);
    assert a[|a| - 1] == Render(cs, true)[|Render(cs, true)| - 1];
    RenderAppend(cs, c);
  }

  /** A folder inside a clean folder, and a file inside that. */
  lemma JoinAt(vol: string, cs: seq<string>, id: string, file: string)
    requires |vol| == 2 && vol[1] == ':' && Stacked(true, cs) && cs != [] && SingleName(cs[|cs| - 1])
    requires SingleName(id) && SingleName(file)
    ensures Join(Absolute(vol, cs), id) == Absolute(vol, cs + [id])
    ensures Join3(Absolute(vol, cs), id, file) == Absolute(vol, cs + [id]) + "\\" + file
  {
    hide Glue, Clean, Render;
    GlueAt(vol, cs, id);
    CleanAt(vol, cs + [id]);
    GlueAt(vol, cs + [id], file);
    RenderAppend(cs + [id], file);
    CleanAt(vol, cs + [id] + [file]);
  }

  lemma {:induction false} RenderLast(cs: seq<string>)
    requires cs != [] && forall i :: 0 <= i < |cs| ==> Name(cs[i])
    ensures Render(cs, true) != ""
    ensures !IsSep(Render(cs, true)[|Render(cs, true)| - 1], true)
    ensures ':' !in cs[|cs| - 1] ==> Render(cs, true)[|Render(cs, true)| - 1] != ':'
  {
    if |cs| > 1 { RenderLast(cs[1..]); }
  }

  lemma {:induction false} RenderAppend(cs: seq<string>, c: string)
    requires cs != []
    ensures Render(cs + [c], true) == Render(cs, true) + "\\" + c
  {
    if |cs| > 1 {
      assert (cs + [c])[1..] == cs[1..] + [c];
      RenderAppend(cs[1..], c);
    }
  }

  lemma AtInjective(vol: string, a: seq<string>, b: seq<string>)
    requires Stacked(true, a) && Stacked(true, b) && Absolute(vol, a) == Absolute(vol, b)
    ensures a == b
  {
    SplitRooted(a);
    SplitRooted(b);
    assert Absolute(vol, a)[|vol| + 1..] == Render(a, true);
    assert Absolute(vol, b)[|vol| + 1..] == Render(b, true);
  }

  // ---------------------------------------------------- theorems about the stores

  /**
   The stores of a volume-less spelling are rooted at C:\ and free of "..", and a rooted spelling gives the
   same stores as the same path behind "C:".
   */
  lemma StoresRooted(store: string, dir: string)
    requires Volumeless(store) && (dir == LAYER_DIR || dir == VOLUME_DIR)
    ensures ToWindowsPath(Join(store, dir)) == Absolute("C:", Parts(store) + [dir])
    ensures forall c :: c in Parts(store) + [dir] ==> Name(c)
    ensures Rooted(store, true) ==> ToWindowsPath(Join("C:" + store, dir)) == ToWindowsPath(Join(store, dir))
  {
    StoreIs(store, dir);
    assert !OnDrive(store);
    if Rooted(store, true) {
      var s := "C:" + store;
      assert s[2..] == store && s[..2] == "C:";
      StoreIs(s, dir);
    }
  }

  lemma ToWindowsIdempotent(p: string)
    requires Volumeless(p) || (|p| >= 2 && p[1] == ':' && IsLetter(p[0]) && ':' !in p[2..])
    ensures ToWindowsPath(ToWindowsPath(p)) == ToWindowsPath(p)
  {
    if Volumeless(p) {
      ToWindowsVolumeless(p);
      PartsStacked(p);
      CleanAt("C:", Parts(p));
    } else {
      var c := CleanRest(p[2..], true);
      assert Clean(p)[2..] == c;
      CleanRestIdempotent(p[2..]);
    }
  }

  /** A folder of a store in closed form, and a file the driver keeps in it. */
  lemma FolderPath(store: string, dir: string, id: string, file: string)
    requires GoodStore(store) && SingleName(dir) && SingleName(id) && SingleName(file)
    ensures var home := ToWindowsPath(Join(store, dir));
            && Join(home, id) == Absolute(Volume(store), Home(store) + [dir, id])
            && Join3(home, id, file) == Join(home, id) + "\\" + file
    ensures Stacked(true, Home(store) + [dir, id])
  {
    hide Render, Reduce, Split, Glue, Join, Join3, ToWindowsPath, Absolute, GoodStore;
    StoreIs(store, dir);
    var cs := Home(store) + [dir];
    JoinAt(Volume(store), cs, id, file);
    assert cs + [id] == Home(store) + [dir, id];
  }

  /** Where the driver keeps everything, by name. */
  lemma StoreLayout(store: string, id: string)
    requires GoodStore(store) && SingleName(id)
    ensures LayerStore(store) == Absolute(Volume(store), Home(store) + ["layers"])
    ensures VolumeStore(store) == Absolute(Volume(store), Home(store) + ["volumes"])
    ensures LayerPath(store, id) == Absolute(Volume(store), Home(store) + ["layers", id])
    ensures VolumePath(store, id) == Absolute(Volume(store), Home(store) + ["volumes", id])
    ensures Join3(LayerStore(store), id, "size") == LayerPath(store, id) + "\\size"
    ensures Join3(VolumeStore(store), id, "metadata.json") == VolumePath(store, id) + "\\metadata.json"
  {
    hide Render, Reduce, Split, Glue, Join, Join3, ToWindowsPath, Absolute, GoodStore, Home, Volume;
    StoreIs(store, LAYER_DIR);
    StoreIs(store, VOLUME_DIR);
    FolderPath(store, LAYER_DIR, id, "size");
    FolderPath(store, VOLUME_DIR, id, "metadata.json");
  }

  /** Equal paths, or one an ancestor of the other. */
  predicate Overlap(p: string, q: string) { p == q || p + "\\" <= q || q + "\\" <= p }

  lemma AncestorPrefix(vol: string, a: seq<string>, b: seq<string>)
    requires Stacked(true, a) && Stacked(true, b) && a != [] && b != []
    requires Absolute(vol, a) + "\\" <= Absolute(vol, b)
    ensures a <= b
  {
    var x, y := Render(a, true), Render(b, true);
    var z := y[|x| + 1..];
    assert Absolute(vol, b)[|vol| + 1..] == y && (Absolute(vol, a) + "\\")[|vol| + 1..] == x + "\\";
    assert y == x + ['\\'] + z;
    SplitConcat(x, '\\', z, true);
    SplitRender(a, true);
    SplitRender(b, true);
  }

  lemma SameDepth(store: string, d1: string, a: string, d2: string, b: string)
    requires GoodStore(store) && SingleName(d1) && SingleName(a) && SingleName(d2) && SingleName(b)
    requires d1 != d2 || a != b
    ensures !Overlap(Join(ToWindowsPath(Join(store, d1)), a), Join(ToWindowsPath(Join(store, d2)), b))
  {
    hide Join, Join3, ToWindowsPath, Absolute, Stacked, GoodStore, Overlap, SingleName, Home;
    var home := Home(store);
    FolderPath(store, d1, a, a);
    FolderPath(store, d2, b, b);
    var x, y := home + [d1, a], home + [d2, b];
    assert x[|home|] == d1 && y[|home|] == d2 && x[|home| + 1] == a && y[|home| + 1] == b;
    Apart(Volume(store), x, y);
  }

  lemma NotTheStore(store: string, d1: string, a: string, d2: string)
    requires GoodStore(store) && SingleName(d1) && SingleName(a) && SingleName(d2)
    ensures Join(ToWindowsPath(Join(store, d1)), a) != ToWindowsPath(Join(store, d2))
  {
    hide Join, Join3, ToWindowsPath, Absolute, Stacked, GoodStore, Overlap, SingleName, Home;
    FolderPath(store, d1, a, a);
    StoreIs(store, d2);
    AtDiffer(Volume(store), Home(store) + [d1, a], Home(store) + [d2]);
  }

  /** A layer folder and a volume folder never overlap, and distinct IDs have distinct folders. */
  lemma FoldersDisjoint(store: string, a: string, b: string)
    requires GoodStore(store) && SingleName(a) && SingleName(b)
    ensures !Overlap(LayerPath(store, a), VolumePath(store, b))
    ensures LayerPath(store, a) != VolumeStore(store) && VolumePath(store, a) != VolumeStore(store)
    ensures a != b ==> !Overlap(LayerPath(store, a), LayerPath(store, b))
    ensures a != b ==> !Overlap(VolumePath(store, a), VolumePath(store, b))
  {
    hide Join, ToWindowsPath, GoodStore, Overlap;
    SameDepth(store, LAYER_DIR, a, VOLUME_DIR, b);
    NotTheStore(store, LAYER_DIR, a, VOLUME_DIR);
    NotTheStore(store, VOLUME_DIR, a, VOLUME_DIR);
    if a != b {
      SameDepth(store, LAYER_DIR, a, LAYER_DIR, b);
      SameDepth(store, VOLUME_DIR, a, VOLUME_DIR, b);
    }
  }

  lemma Apart(vol: string, a: seq<string>, b: seq<string>)
    requires Stacked(true, a) && Stacked(true, b) && a != [] && |a| == |b| && a != b
    ensures !Overlap(Absolute(vol, a), Absolute(vol, b))
  {
    AtDiffer(vol, a, b);
    if Absolute(vol, a) + "\\" <= Absolute(vol, b) { AncestorPrefix(vol, a, b); }
    if Absolute(vol, b) + "\\" <= Absolute(vol, a) { AncestorPrefix(vol, b, a); }
  }

  lemma AtDiffer(vol: string, a: seq<string>, b: seq<string>)
    requires Stacked(true, a) && Stacked(true, b) && a != b
    ensures Absolute(vol, a) != Absolute(vol, b)
  {
    if Absolute(vol, a) == Absolute(vol, b) { AtInjective(vol, a, b); }
  }

  // ---------------------------------------------------- whiteouts (driver/unpack.go)

  const WHITEOUT := ".wh."

  predicate IsWhiteout(name: string) { WHITEOUT <= Base(name) }

  /** What the whiteout branch passes to `Remove`. */
  function WhiteoutTarget(name: string): string
    requires IsWhiteout(name)
  {
    Join(Dir(name), Base(name)[|WHITEOUT|..])
  }

  /** An entry is a whiteout exactly if its last component begins with the prefix. */
  lemma {:induction false} WhiteoutExact(name: string)
    requires name != "" && name[|name| - 1] != '/'
    ensures IsWhiteout(name) <==> ".wh." <= name[LastSlash(name)..]
  {
    hide LastSlash;
    var n := LastSlash(name);
    assert n < |name|;
    assert TrimRightSlash(name) == name;
    assert Base(name) == name[n..];
  }

  lemma UnixCleanSplits(r: bool, st: seq<string>)
    requires Stacked(r, st)
    ensures var d := if r then "/" + Render(st, false) else if st == [] then "." else Render(st, false);
            && d != "" && Rooted(d, true) == r
            && Reduce(r, [], Split(d, true)) == st
            && (IsSep(d[|d| - 1], true) ==> d == "/")
  {
    if st == [] {
      EmptyCleanSplits(r);
    } else {
      hide Reduce, Render, Split;
      ReduceFixed(r, [], st);
      assert [] + st == st;
      SplitRender(st, false);
      RenderEnds(st);
      if r { SlashSplits(Render(st, false)); }
    }
  }

  lemma EmptyCleanSplits(r: bool)
    ensures Reduce(r, [], Split(if r then "/" else ".", true)) == []
  {
    hide Split;
    SplitAtom(".", true);
    SplitAtom("", true);
    SplitConcat("", '/', "", true);
    assert "" + ['/'] + "" == "/";
    assert ["", ""][1..] == [""] && [""][1..] == [] && ["."][1..] == [];
    assert Reduce(r, [], ["", ""]) == Reduce(r, [], [""]) == [];
  }

  lemma SlashSplits(body: string)
    requires body != ""
    ensures Reduce(true, [], Split("/" + body, true)) == Reduce(true, [], Split(body, true))
    ensures ("/" + body)[|body|] == body[|body| - 1]
  {
    SplitConcat("", '/', body, true);
    assert "" + ['/'] + body == "/" + body;
    ReduceConcat(true, [], [""], Split(body, true));
  }

  lemma {:induction false} RenderEnds(cs: seq<string>)
    requires cs != [] && forall i :: 0 <= i < |cs| ==> cs[i] != "" && Atom(cs[i], true)
    ensures var s := Render(cs, false);
            s != "" && s[0] == cs[0][0] && !IsSep(s[0], true) && !IsSep(s[|s| - 1], true)
  {
    if |cs| > 1 { RenderEnds(cs[1..]); }
  }

  /** `Base` and `Dir` of an entry that is a whiteout by construction. */
  lemma WhiteoutParts(prefix: string, base: string)
    requires prefix == "" || prefix[|prefix| - 1] == '/'
    requires '/' !in base
    ensures var name := prefix + WHITEOUT + base;
            Base(name) == WHITEOUT + base && Dir(name) == UnixClean(prefix)
  {
    var name := prefix + WHITEOUT + base;
    var last := name[|name| - 1];
    assert last == '.' || last in base;
    assert TrimRightSlash(name) == name;
    assert forall i :: |prefix| <= i < |name| ==> name[i] in WHITEOUT || name[i] in base;
    assert '/' !in WHITEOUT;
    var n := LastSlash(name);
    assert n <= |prefix|;
    assert prefix != "" ==> name[|prefix| - 1] == '/';
    assert name[|prefix|..] == WHITEOUT + base && name[..|prefix|] == prefix;
  }

  /** Normalising `prefix + base` is normalising the prefix and then one more component. */
  lemma PrefixSplits(r: bool, prefix: string, base: string)
    requires prefix == "" || prefix[|prefix| - 1] == '/'
    requires Atom(base, true)
    ensures Reduce(r, [], Split(prefix + base, true)) == Reduce(r, Reduce(r, [], Split(prefix, true)), [base])
  {
    hide Split;
    SplitAtom(base, true);
    SplitAtom("", true);
    if prefix == "" {
      assert prefix + base == base;
      assert Reduce(r, [], [""]) == [];
    } else {
      hide Reduce;
      var pre := prefix[..|prefix| - 1];
      assert prefix == pre + ['/'] + "" && prefix + base == pre + ['/'] + base;
      SplitConcat(pre, '/', "", true);
      SplitConcat(pre, '/', base, true);
      ReduceConcat(r, [], Split(pre, true), [""]);
      ReduceConcat(r, [], Split(pre, true), [base]);
      ReduceNothing(r, Reduce(r, [], Split(pre, true)));
    }
  }

  lemma ReduceNothing(r: bool, st: seq<string>)
    ensures Reduce(r, st, [""]) == st
  {
    assert [""][1..] == [];
  }

  /** The same for the directory string that `Dir` hands to `Join`. */
  lemma GlueSplits(r: bool, d: string, base: string)
    requires d != "" && Rooted(d, true) == r && ':' !in d && Atom(base, true)
    requires IsSep(d[|d| - 1], true) ==> d == "/"
    ensures var g := Glue(d, base);
            && Reduce(r, [], Split(g, true)) == Reduce(r, Reduce(r, [], Split(d, true)), [base])
            && g != "" && Rooted(g, true) == r
  {
    SplitAtom(base, true);
    if d == "/" {
      SplitConcat("", '/', "", true);
      SplitConcat("", '/', base, true);
      assert "" + ['/'] + base == "/" + base && "" + ['/'] + "" == "/";
      assert TrimLeft(base) == base;
      ReduceConcat(r, [], [""], [base]);
      ReduceConcat(r, [], [""], [""]);
    } else {
      SplitConcat(d, '\\', base, true);
      assert d + ['\\'] + base == d + "\\" + base;
      ReduceConcat(r, [], Split(d, true), [base]);
    }
  }

  lemma DirSplits(prefix: string, base: string)
    requires ':' !in prefix && '\\' !in prefix && Atom(base, true) && ':' !in base
    ensures var r := Rooted(prefix, false);
            var g := Glue(UnixClean(prefix), base);
            && Reduce(r, [], Split(g, true)) == Reduce(r, Reduce(r, [], Split(prefix, true)), [base])
            && g != "" && Rooted(g, true) == r && ':' !in g
  {
    hide Reduce, Render, Split, Glue;
    var r := Rooted(prefix, false);
    SplitSame(prefix);
    SplitAtoms(prefix, true);
    var st := Reduce(r, [], Split(prefix, true));
    ReduceStacked(r, [], Split(prefix, true));
    RenderEmpty(st);
    UnixCleanSplits(r, st);
    CleanPlain(prefix, false);
    GlueSplits(r, UnixClean(prefix), base);
    GluePlain(UnixClean(prefix), base);
  }

  lemma GluePlain(a: string, b: string)
    requires ':' !in a && ':' !in b
    ensures ':' !in Glue(a, b)
  {
    TrimLeftPlain(b);
  }

  lemma TrimLeftPlain(s: string)
    requires ':' !in s
    ensures ':' !in TrimLeft(s)
  {
  }

  lemma RenderEmpty(cs: seq<string>)
    requires forall i :: 0 <= i < |cs| ==> cs[i] != ""
    ensures Render(cs, false) == "" <==> cs == []
  {
  }

  /**
   Decoding a whiteout undoes encoding one: hiding the entry `prefix + base` removes exactly that cleaned path,
   with Windows separators. `prefix` is empty or the directory part up to and including its last slash.
   */
  lemma WhiteoutDecodes(prefix: string, base: string)
    requires prefix == "" || prefix[|prefix| - 1] == '/'
    requires '/' !in base
    requires Volumeless(prefix + base) && '\\' !in prefix + base
    ensures IsWhiteout(prefix + ".wh." + base)
    ensures WhiteoutTarget(prefix + ".wh." + base) == Clean(prefix + base) == FromSlash(UnixClean(prefix + base))
  {
    CleanUnix(prefix + base);
    NotIn(':', prefix, base);
    NotIn('\\', prefix, base);
    assert Atom(base, true);
    WhiteoutParts(prefix, base);
    assert (WHITEOUT + base)[|WHITEOUT|..] == base;
    DecodedJoin(prefix, base);
  }

  /** Whiteouts of different cleaned paths remove different paths, and of the same one the same. */
  lemma WhiteoutsDistinct(prefix: string, base: string, prefix': string, base': string)
    requires (prefix == "" || prefix[|prefix| - 1] == '/') && (prefix' == "" || prefix'[|prefix'| - 1] == '/')
    requires '/' !in base && '/' !in base'
    requires Volumeless(prefix + base) && '\\' !in prefix + base && Volumeless(prefix' + base') && '\\' !in prefix' + base'
    ensures var name, name' := prefix + ".wh." + base, prefix' + ".wh." + base';
            && IsWhiteout(name) && IsWhiteout(name')
            && (WhiteoutTarget(name) == WhiteoutTarget(name') <==> UnixClean(prefix + base) == UnixClean(prefix' + base'))
  {
    hide WhiteoutTarget, IsWhiteout, UnixClean, Clean, FromSlash;
    WhiteoutDecodes(prefix, base);
    WhiteoutDecodes(prefix', base');
    CleanUnix(prefix + base);
    CleanUnix(prefix' + base');
    if FromSlash(UnixClean(prefix + base)) == FromSlash(UnixClean(prefix' + base')) {
      FromSlashInjective(UnixClean(prefix + base), UnixClean(prefix' + base'));
    }
  }

  /** On a path without volume and backslashes, `filepath.Clean` is `path.Clean` with Windows separators. */
  lemma CleanUnix(p: string)
    requires ':' !in p && '\\' !in p
    ensures Clean(p) == FromSlash(UnixClean(p)) && '\\' !in UnixClean(p)
  {
    hide Reduce, Render, Split;
    assert VolumeName(p) == "" && p[0..] == p;
    var r := Rooted(p, false);
    SplitSame(p);
    SplitAtoms(p, true);
    var st := Reduce(r, [], Split(p, true));
    ReduceStacked(r, [], Split(p, true));
    RenderSlash(st);
    FromSlashRoot(Render(st, false));
  }

  lemma {:induction false} RenderSlash(cs: seq<string>)
    requires forall i :: 0 <= i < |cs| ==> Atom(cs[i], true)
    ensures Render(cs, true) == FromSlash(Render(cs, false)) && '\\' !in Render(cs, false)
  {
    hide FromSlash, IsSep;
    if cs != [] {
      FromSlashAtom(cs[0]);
      if |cs| > 1 {
        var rest := Render(cs[1..], false);
        RenderSlash(cs[1..]);
        FromSlashConcat(cs[0] + "/", rest);
        FromSlashConcat(cs[0], "/");
        FromSlashRoot("");
        assert '\\' !in cs[0] + "/" + rest;
      }
    }
  }

  lemma FromSlashAtom(c: string)
    requires Atom(c, true)
    ensures FromSlash(c) == c && '\\' !in c
  {
  }

  lemma FromSlashRoot(s: string)
    ensures FromSlash("/" + s) == "\\" + FromSlash(s)
  {
  }

  lemma FromSlashConcat(a: string, b: string)
    ensures FromSlash(a + b) == FromSlash(a) + FromSlash(b)
  {
    var s, t := FromSlash(a + b), FromSlash(a) + FromSlash(b);
    assert forall i :: 0 <= i < |s| ==> s[i] == t[i];
  }

  lemma FromSlashInjective(a: string, b: string)
    requires '\\' !in a && '\\' !in b && FromSlash(a) == FromSlash(b)
    ensures a == b
  {
    assert |a| == |FromSlash(a)| == |b|;
    assert forall i :: 0 <= i < |a| ==> FromSlash(a)[i] == FromSlash(b)[i];
  }

  lemma NotIn(c: char, a: string, b: string)
    requires c !in a + b
    ensures c !in a && c !in b
  {
  }

  lemma DecodedJoin(prefix: string, base: string)
    requires prefix == "" || prefix[|prefix| - 1] == '/'
    requires ':' !in prefix && '\\' !in prefix && Atom(base, true) && ':' !in base
    ensures Join(UnixClean(prefix), base) == Clean(prefix + base)
  {
    var p, r, g := prefix + base, Rooted(prefix, false), Glue(UnixClean(prefix), base);
    DirSplits(prefix, base);
    PrefixSplits(r, prefix, base);
    assert VolumeName(g) == "" && VolumeName(p) == "" && g[0..] == g && p[0..] == p;
    assert Rooted(p, true) == r by { if prefix == "" { assert p == base; } else { assert p[0] == prefix[0]; } }
    assert CleanRest(g, true) == CleanRest(p, true);
  }
}
