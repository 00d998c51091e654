/**
 The tar stream as driver/unpack.go reads it: a tape of entries that ends in EOF or in a read error, and the
 grouping of alternate-stream entries with the file they follow.

 Byte strings are Dafny strings. What the archive libraries derive from a header (file information, the
 security and attribute streams) is data of the entry, so every malformed header is some tape.
 */
module Tar {
  import opened GoBase
  import opened WinPath

  datatype Typeflag = Reg | Link | Symlink | Directory | Other

  datatype FileInfo = FileInfo(directory: bool, attributes: nat)

  /** `info` is None when `FileInfoFromHeader` rejects the header. */
  datatype Header = Header(name: string, typeflag: Typeflag, linkname: string, size: nat, info: Option<FileInfo>)

  /**
   One entry. `lead` are the writes `backuptar` makes for the header of a file, in order, and `leadOk` whether
   the header is sound to the end; `alt` is the write it makes for the header of an alternate stream; `body` are
   the chunks in which the data arrives and `bodyOk` whether it arrives completely.
   */
  datatype Entry = Entry(hdr: Header, lead: seq<string>, leadOk: bool, alt: string, body: seq<string>, bodyOk: bool)

  /** The entries, and whether reading past the last one is an error instead of EOF. */
  datatype Tape = Tape(entries: seq<Entry>, broken: bool)

  /** The three branches of the loop in driver/unpack.go:88-113. */
  datatype Kind = Whiteout | HardLink | File

  function Classify(h: Header): Kind {
    if IsWhiteout(h.name) then Whiteout else if h.typeflag == Link then HardLink else File
  }

  /** The size `FileInfoFromHeader` reports. */
  function FileSize(h: Header): nat { if h.typeflag == Reg then h.size else 0 }

  /** The entry is an alternate data stream of the file `name`. */
  predicate IsAlternate(e: Entry, name: string) { e.hdr.typeflag == Reg && name + ":" <= e.hdr.name }

  /** Only regular entries are, and only under the file's whole name with a colon behind it. */
  lemma AlternateExact(e: Entry, name: string)
    ensures IsAlternate(e, name) <==>
              e.hdr.typeflag == Reg && |e.hdr.name| > |name| && e.hdr.name[..|name|] == name && e.hdr.name[|name|] == ':'
  {
    if IsAlternate(e, name) {
      assert e.hdr.name[..|name|] == (name + ":")[..|name|] && e.hdr.name[|name|] == (name + ":")[|name|];
    }
  }

  // ---------------------------------------------------- backuptar.WriteBackupStreamFromTarFile

  datatype StreamEnd = More | Eof | Failed

  /** What it writes if no write fails, how it ends, and the entries left, the next header first. */
  datatype Plan = Plan(chunks: seq<string>, end: StreamEnd, rest: seq<Entry>)

  function Alternates(es: seq<Entry>, broken: bool, name: string): Plan {
    if es == [] then Plan([], if broken then Failed else Eof, [])
    else if !IsAlternate(es[0], name) then Plan([], More, es)
    else
      var written := [es[0].alt] + es[0].body;
      if !es[0].bodyOk then Plan(written, Failed, es[1..])
      else
        var p := Alternates(es[1..], broken, name);
        p.(chunks := written + p.chunks)
  }

  function StreamPlan(es: seq<Entry>, broken: bool): Plan
    requires es != []
  {
    var e := es[0];
    var written := if e.leadOk && e.hdr.typeflag == Reg then e.lead + e.body else e.lead;
    if !e.leadOk || (e.hdr.typeflag == Reg && !e.bodyOk) then Plan(written, Failed, es[1..])
    else
      var p := Alternates(es[1..], broken, e.hdr.name);
      p.(chunks := written + p.chunks)
  }

  lemma {:induction false} AlternatesShrink(es: seq<Entry>, broken: bool, name: string)
    ensures |Alternates(es, broken, name).rest| <= |es|
    ensures Alternates(es, broken, name).end == More ==> Alternates(es, broken, name).rest != []
    ensures Alternates(es, broken, name).end == Eof ==> Alternates(es, broken, name).rest == []
  {
    if es != [] && IsAlternate(es[0], name) && es[0].bodyOk { AlternatesShrink(es[1..], broken, name); }
  }

  function Flatten(chunks: seq<string>): string {
    if chunks == [] then "" else chunks[0] + Flatten(chunks[1..])
  }

  lemma {:induction false} FlattenConcat(a: seq<string>, b: seq<string>)
    ensures Flatten(a + b) == Flatten(a) + Flatten(b)
  {
    if a == [] {
      assert a + b == b;
    } else {
      assert (a + b)[1..] == a[1..] + b;
      FlattenConcat(a[1..], b);
    }
  }

  // ---------------------------------------------------- what an archive means

  /** One operation on the layer being written. */
  datatype Op =
    | OpAdd(name: string, info: FileInfo, data: string)
    | OpLink(name: string, target: string)
    | OpRemove(name: string)

  /** The number of alternate streams at the head of `es`. */
  function AltCount(es: seq<Entry>, name: string): (n: nat)
    ensures n <= |es|
  {
    if es == [] || !IsAlternate(es[0], name) then 0 else 1 + AltCount(es[1..], name)
  }

  /** The backup stream of a file with its `n` alternate streams. */
  function FileStream(es: seq<Entry>): string
    requires es != []
  {
    Flatten(es[0].lead) + (if es[0].hdr.typeflag == Reg then Flatten(es[0].body) else "") + AltStream(es[1..])
  }

  function AltStream(es: seq<Entry>): string {
    if es == [] then "" else es[0].alt + Flatten(es[0].body) + AltStream(es[1..])
  }

  /** The number of entries the logical entry at the head takes: a file takes its alternate streams with it. */
  function Width(es: seq<Entry>): (n: nat)
    requires es != []
    ensures 1 <= n <= |es|
  {
    if Classify(es[0].hdr) == File then 1 + AltCount(es[1..], es[0].hdr.name) else 1
  }

  function InfoOf(h: Header): FileInfo { if h.info.Some? then h.info.value else FileInfo(false, 0) }

  /** What the logical entry at the head asks of the layer. */
  function HeadOp(es: seq<Entry>): Op
    requires es != []
  {
    var h := es[0].hdr;
    match Classify(h)
    case Whiteout => OpRemove(WhiteoutTarget(h.name))
    case HardLink => OpLink(FromSlash(h.name), FromSlash(h.linkname))
    case File => OpAdd(FromSlash(h.name), InfoOf(h), FileStream(es[..Width(es)]))
  }

  /** One operation per logical entry, in order. */
  function Logical(es: seq<Entry>): seq<Op> {
    if es == [] then [] else [HeadOp(es)] + Logical(es[Width(es)..])
  }

  /** A regular file counts the size in its header; whiteouts, links, directories and everything else nothing. */
  function HeadSize(es: seq<Entry>): nat
    requires es != []
  {
    if es[0].hdr.typeflag == Reg && !IsWhiteout(es[0].hdr.name) then es[0].hdr.size else 0
  }

  /** The sizes of the regular files among the logical entries; alternate streams count nothing. */
  function TotalSize(es: seq<Entry>): nat {
    if es == [] then 0 else HeadSize(es) + TotalSize(es[Width(es)..])
  }

  predicate BodiesOk(es: seq<Entry>) { forall i :: 0 <= i < |es| ==> es[i].bodyOk }

  /** The file at the head and its alternate streams are readable to their last byte. */
  predicate Intact(es: seq<Entry>)
    requires es != []
  {
    && es[0].leadOk && (es[0].hdr.typeflag == Reg ==> es[0].bodyOk)
    && BodiesOk(es[1..][..AltCount(es[1..], es[0].hdr.name)])
  }

  predicate HeadSound(es: seq<Entry>)
    requires es != []
  {
    Classify(es[0].hdr) == File ==> es[0].hdr.info.Some? && Intact(es)
  }

  /** Every header is sound and every byte of every file arrives. */
  predicate Sound(es: seq<Entry>) {
    es == [] || (HeadSound(es) && Sound(es[Width(es)..]))
  }

  lemma {:induction false} AlternatesMean(es: seq<Entry>, broken: bool, name: string)
    ensures var p, n := Alternates(es, broken, name), AltCount(es, name);
            if BodiesOk(es[..n]) then
              && Flatten(p.chunks) == AltStream(es[..n])
              && p.rest == es[n..]
              && p.end == if n < |es| then More else if broken then Failed else Eof
            else p.end == Failed
  {
    if es != [] && IsAlternate(es[0], name) {
      var n := AltCount(es, name);
      assert es[..n][1..] == es[1..][..n - 1];
      assert BodiesOk(es[..n]) <==> es[0].bodyOk && BodiesOk(es[1..][..n - 1]) by {
        assert es[..n] == [es[0]] + es[1..][..n - 1];
      }
      AlternatesMean(es[1..], broken, name);
      var p := Alternates(es[1..], broken, name);
      FlattenConcat([es[0].alt] + es[0].body, p.chunks);
      FlattenConcat([es[0].alt], es[0].body);
      if es[0].bodyOk {
        assert es[1..][n - 1..] == es[n..];
      }
    } else {
      assert es[..0] == [];
    }
  }

  /** The plan of one backup-stream call: exactly the file and its alternate streams, and the header after them. */
  lemma StreamPlanMeans(es: seq<Entry>, broken: bool)
    requires es != []
    ensures var p, n := StreamPlan(es, broken), 1 + AltCount(es[1..], es[0].hdr.name);
            if Intact(es) then
              && Flatten(p.chunks) == FileStream(es[..n])
              && p.rest == es[n..]
              && p.end == if n < |es| then More else if broken then Failed else Eof
            else p.end == Failed
  {
    hide Alternates, AltCount, BodiesOk;
    var e, tail := es[0], es[1..];
    var n := AltCount(tail, e.hdr.name);
    AlternatesMean(tail, broken, e.hdr.name);
    if Intact(es) {
      assert es[..1 + n][1..] == tail[..n] && tail[n..] == es[1 + n..];
      FlattenConcat(e.lead + e.body, Alternates(tail, broken, e.hdr.name).chunks);
      FlattenConcat(e.lead, Alternates(tail, broken, e.hdr.name).chunks);
      FlattenConcat(e.lead, e.body);
    }
  }
}
