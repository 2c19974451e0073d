/**
  The two Tier-2/Tier-3 resolvers whose direction and tie-break rules matter: filename stems
  and the spatial-temporal heuristic. Confidence is in hundredths.
 */
module Resolvers {
  import opened Wrappers
  import opened Store
  import opened Naming

  /** A capture instant, with the calendar day its location makes of it. */
  datatype Capture = Capture(seconds: int, day: int)

  datatype File = File(
    id: int, fileName: string, fileExt: string, filePath: string, stem: string,
    capturedAt: Option<Capture>, cameraModel: string, cameraSerial: string, lensModel: string, phash: Option<bv64>)

  /** A candidate edge, evidence aside. */
  datatype Proposal = Proposal(parent: int, child: int, rel: Relationship, confidence: int)

  /** filepath.Dir, whether a file sniffs as drone telemetry, and the Hamming distance. */
  datatype Tools = Tools(dir: string -> string, telemetry: string -> bool, distance: (bv64, bv64) -> nat)

  // ---- Extensions ----

  const RAW_EXTS := {"arw", "cr2", "cr3", "nef", "raf", "dng", "orf", "rw2"}
  const EXPORT_EXTS := {"jpg", "jpeg", "mp4", "mov"}
  const PROXY_EXTS := {"lrf"}

  function TrimDot(ext: string): string {
    if ext != "" && ext[0] == '.' then ext[1..] else ext
  }

  predicate IsProxyExt(ext: string) {
    Lower(TrimDot(ext)) in PROXY_EXTS
  }

  predicate IsSrt(f: File) {
    Lower(TrimDot(f.fileExt)) == "srt"
  }

  predicate IsVideo(f: File) {
    Lower(TrimDot(f.fileExt)) in {"mp4", "mov"}
  }

  predicate IsRaw(f: File) {
    Lower(TrimDot(f.fileExt)) in RAW_EXTS
  }

  predicate IsExport(f: File) {
    Lower(TrimDot(f.fileExt)) in EXPORT_EXTS
  }

  predicate Contains(s: string, part: string) {
    part <= s || (s != "" && Contains(s[1..], part))
  }

  predicate IsProxy(f: File) {
    IsProxyExt(f.fileExt) || Contains(Lower(f.fileName), "_proxy")
  }

  /** The raw and export lookups do not trim a leading dot; the proxy lookup does. */
  function InferRelationship(childFileName: string, childExt: string, parentExt: string): Relationship {
    if Contains(Lower(childFileName), "_proxy") then ProxyOf
    else if IsProxyExt(childExt) && !IsProxyExt(parentExt) then ProxyOf
    else if Lower(parentExt) in RAW_EXTS && Lower(childExt) in EXPORT_EXTS then FinalExport
    else DerivedFrom
  }

  predicate SameCaptureDay(a: Option<Capture>, b: Option<Capture>) {
    a.Some? && b.Some? && a.value.day == b.value.day
  }

  predicate SameDirectory(w: Tools, a: string, b: string) {
    a != "" && b != "" && w.dir(a) == w.dir(b)
  }

  predicate SameCamera(a: File, b: File) {
    a.cameraModel != "" && a.cameraModel == b.cameraModel
  }

  // ---- filename_stem ----

  const INDEX_MATCH_CAP := 89

  function Capped(confidence: int, gated: bool): int {
    var c := if confidence > 90 then 90 else confidence;
    if gated && c > INDEX_MATCH_CAP then INDEX_MATCH_CAP else c
  }

  predicate IndexGated(child: File, parent: File) {
    Kind(child.fileName) == SuffixIndex || Kind(parent.fileName) == SuffixIndex
  }

  /** The anchor and direction rules for index suffixes. */
  predicate GateRefuses(child: File, parent: File) {
    IndexGated(child, parent) && (Kind(child.fileName) != SuffixIndex || Kind(parent.fileName) != SuffixNone)
  }

  function ProposeSrt(w: Tools, child: File, parent: File): Option<Proposal>
    requires IsSrt(child) || IsSrt(parent)
  {
    if IsSrt(child) && IsSrt(parent) then None
    else
      var srt, video := if IsSrt(child) then child else parent, if IsSrt(child) then parent else child;
      if !IsVideo(video) || w.dir(srt.filePath) != w.dir(video.filePath) then None
      else if !w.telemetry(srt.filePath) then None
      else if child.id != srt.id && IndexGated(child, parent) then None
      else
        var confidence := 70 + (if SameCaptureDay(srt.capturedAt, video.capturedAt) then 15 else 0)
                          + (if SameCamera(srt, video) then 10 else 0);
        Some(Proposal(video.id, srt.id, ProxyOf, Capped(confidence, IndexGated(child, parent))))
  }

  datatype Turn = AsGiven | ProxyDown | RoleDown | ExportDown

  /** Which side the pair is turned to. */
  function TurnOf(child: File, parent: File): Turn {
    if IsProxy(parent) && !IsProxy(child) then ProxyDown
    else if !IsProxy(parent) && !IsProxy(child)
            && Kind(parent.fileName) == SuffixRole && Kind(child.fileName) == SuffixNone then RoleDown
    else if !IsProxy(parent) && !IsProxy(child) && IsRaw(child) && IsExport(parent) then ExportDown
    else AsGiven
  }

  function Score(w: Tools, child: File, parent: File, gated: bool): int {
    Capped(60 + (if SameCaptureDay(child.capturedAt, parent.capturedAt) then 15 else 0)
              + (if SameCamera(child, parent) then 10 else 0)
              + (if SameDirectory(w, child.filePath, parent.filePath) then 10 else 0), gated)
  }

  /** What one Resolve call makes of one looked-up row. */
  function Propose(w: Tools, child: File, parent: File): Option<Proposal> {
    if parent.id == child.id || GateRefuses(child, parent) then None
    else if IsSrt(child) || IsSrt(parent) then ProposeSrt(w, child, parent)
    else
      var turn, gated := TurnOf(child, parent), IndexGated(child, parent);
      if (turn.ProxyDown? || turn.ExportDown?) && gated then None
      else
        var c, p := if turn.AsGiven? then child else parent, if turn.AsGiven? then parent else child;
        Some(Proposal(p.id, c.id, InferRelationship(c.fileName, c.fileExt, p.fileExt), Score(w, c, p, gated)))
  }

  function ProposeAll(w: Tools, child: File, rows: seq<File>): seq<Proposal> {
    if rows == [] then []
    else
      var last := Propose(w, child, rows[|rows| - 1]);
      ProposeAll(w, child, rows[..|rows| - 1]) + if last.Some? then [last.value] else []
  }

  /** The .srt branch of the loop body. */
  method ConsiderSrt(w: Tools, child: File, parent: File, gated: bool) returns (r: Option<Proposal>)
    requires (IsSrt(child) || IsSrt(parent)) && gated == IndexGated(child, parent)
    ensures r == ProposeSrt(w, child, parent)
  {
    hide Kind, Lower, IsVideo;
    if IsSrt(child) && IsSrt(parent) {
      return None;
    }
    var srt, video := parent, child;
    if IsSrt(child) {
      srt, video := child, parent;
    }
    if !IsVideo(video) || w.dir(srt.filePath) != w.dir(video.filePath) {
      return None;
    }
    if !w.telemetry(srt.filePath) {
      return None;
    }
    if child.id != srt.id && gated {
      return None;
    }
    var confidence := 70;
    if SameCaptureDay(srt.capturedAt, video.capturedAt) {
      confidence := confidence + 15;
    }
    if SameCamera(srt, video) {
      confidence := confidence + 10;
    }
    return Some(Proposal(video.id, srt.id, ProxyOf, Capped(confidence, gated)));
  }

  /** An edge between the two files, one way or the other. An index-suffixed file is never its
      parent; with an index suffix in the pair it runs from the duplicate to a bare anchor,
      below the auto-accept line. */
  predicate Allowed(child: File, parent: File, p: Proposal) {
    && 60 <= p.confidence <= 90
    && ((p.parent == child.id && p.child == parent.id) || (p.parent == parent.id && p.child == child.id))
    && (IndexGated(child, parent) ==>
          && p.child == child.id && p.parent == parent.id
          && Kind(child.fileName) == SuffixIndex && Kind(parent.fileName) == SuffixNone
          && p.confidence <= INDEX_MATCH_CAP)
    && Kind((if p.parent == child.id then child else parent).fileName) != SuffixIndex
  }

  /** The loop body. */
  method Consider(w: Tools, child: File, parent: File) returns (r: Option<Proposal>)
    ensures r == Propose(w, child, parent)
    ensures r.Some? ==> child.id != parent.id && Allowed(child, parent, r.value)
  {
    hide Kind, IsSrt, IsProxy, IsRaw, IsExport, InferRelationship, ProposeSrt, Allowed;
    if Propose(w, child, parent).Some? {
      IndexRules(w, child, parent);
    }
    if parent.id == child.id {
      return None;
    }
    var gated := IndexGated(child, parent);
    if gated && (Kind(child.fileName) != SuffixIndex || Kind(parent.fileName) != SuffixNone) {
      return None;
    }
    if IsSrt(child) || IsSrt(parent) {
      r := ConsiderSrt(w, child, parent, gated);
      return;
    }
    var c, p, proxySwapped, rawSwapped := child, parent, false, false;
    if IsProxy(parent) && !IsProxy(child) {
      c, p, proxySwapped := parent, child, true;
    } else if !IsProxy(parent) && !IsProxy(child) && Kind(parent.fileName) == SuffixRole
      && Kind(child.fileName) == SuffixNone {
      c, p := parent, child;
    } else if !IsProxy(parent) && !IsProxy(child) && IsRaw(child) && IsExport(parent) {
      c, p, rawSwapped := parent, child, true;
    }
    if (proxySwapped || rawSwapped) && gated {
      return None;
    }
    var confidence := 60;
    if SameCaptureDay(c.capturedAt, p.capturedAt) {
      confidence := confidence + 15;
    }
    if SameCamera(c, p) {
      confidence := confidence + 10;
    }
    if SameDirectory(w, c.filePath, p.filePath) {
      confidence := confidence + 10;
    }
    return Some(Proposal(p.id, c.id, InferRelationship(c.fileName, c.fileExt, p.fileExt), Capped(confidence, gated)));
  }

  method ResolveStem(w: Tools, child: File, lookup: string -> seq<File>) returns (candidates: seq<Proposal>)
    ensures candidates == if child.stem == "" then [] else ProposeAll(w, child, lookup(child.stem))
  {
    hide Propose;
    if child.stem == "" {
      return [];
    }
    var parents := lookup(child.stem);
    candidates := [];
    for i := 0 to |parents|
      invariant candidates == ProposeAll(w, child, parents[..i])
    {
      assert parents[..i + 1][..i] == parents[..i];
      var proposal := Consider(w, child, parents[i]);
      if proposal.Some? {
        candidates := candidates + [proposal.value];
      }
    }
    assert parents[..|parents|] == parents;
  }

  // ---- What it never does ----

  lemma IndexRules(w: Tools, child: File, parent: File)
    requires Propose(w, child, parent).Some?
    ensures Allowed(child, parent, Propose(w, child, parent).value)
  {
    hide Kind, IsSrt, IsVideo, IsProxy, IsRaw, IsExport, InferRelationship, SameCaptureDay, SameCamera, SameDirectory;
  }

  /** Every emitted candidate is some looked-up row's. */
  lemma {:induction false} ProposalsComeFromRows(w: Tools, child: File, rows: seq<File>, p: Proposal)
    ensures p in ProposeAll(w, child, rows) <==> exists r :: r in rows && Propose(w, child, r) == Some(p)
    decreases |rows|
  {
    hide Propose;
    if rows != [] {
      var n := |rows| - 1;
      ProposalsComeFromRows(w, child, rows[..n], p);
      assert rows == rows[..n] + [rows[n]];
    }
  }

  /** A batch of index-suffixed files and nothing else yields no candidate at all. */
  lemma IndexOnlyBatchYieldsNothing(w: Tools, child: File, rows: seq<File>)
    requires Kind(child.fileName) == SuffixIndex && forall r :: r in rows ==> Kind(r.fileName) == SuffixIndex
    ensures ProposeAll(w, child, rows) == []
  {
    hide Propose, Kind;
    if ProposeAll(w, child, rows) != [] {
      var p := ProposeAll(w, child, rows)[0];
      ProposalsComeFromRows(w, child, rows, p);
      var r :| r in rows && Propose(w, child, r) == Some(p);
      IndexRules(w, child, r);
    }
  }

  // ---- Label and score ----

  lemma {:induction false} ContainsIff(s: string, part: string)
    ensures Contains(s, part) <==> exists i :: 0 <= i <= |s| && part <= s[i..]
    decreases |s|
  {
    if s != "" {
      ContainsIff(s[1..], part);
      assert forall i :: 1 <= i <= |s| ==> s[1..][i - 1..] == s[i..];
      assert forall i :: 0 <= i <= |s[1..]| ==> s[1..][i..] == s[i + 1..];
      assert s[0..] == s;
    } else {
      assert s[0..] == s;
    }
  }

  /** The relationship of a child to its parent: a proxy, dotted or not, is a PROXY_OF; an undotted
      jpg, jpeg, mp4 or mov next to an undotted camera raw is its FINAL_EXPORT; anything else is
      derived. */
  lemma LabelExact(childFileName: string, childExt: string, parentExt: string)
    ensures var proxy := (exists i :: 0 <= i <= |Lower(childFileName)| && "_proxy" <= Lower(childFileName)[i..])
                         || (Lower(TrimDot(childExt)) == "lrf" && Lower(TrimDot(parentExt)) != "lrf");
            var export_ := Lower(parentExt) in {"arw", "cr2", "cr3", "nef", "raf", "dng", "orf", "rw2"}
                           && Lower(childExt) in {"jpg", "jpeg", "mp4", "mov"};
            InferRelationship(childFileName, childExt, parentExt)
            == if proxy then ProxyOf else if export_ then FinalExport else DerivedFrom
  {
    hide Contains, Lower, TrimDot;
    ContainsIff(Lower(childFileName), "_proxy");
  }

  function AtMost(x: int, bound: int): int {
    if x > bound then bound else x
  }

  /** Confidence by three facts, 0.60 and then 0.15 for the day, 0.10 for the camera and 0.10 for the
      directory, at most 0.90 -- or 0.89 with an index suffix in the pair. */
  lemma ScoreExact(w: Tools, child: File, parent: File)
    requires !IsSrt(child) && !IsSrt(parent) && Propose(w, child, parent).Some?
    ensures var day := child.capturedAt.Some? && parent.capturedAt.Some?
                       && child.capturedAt.value.day == parent.capturedAt.value.day;
            var camera := child.cameraModel != "" && child.cameraModel == parent.cameraModel;
            var directory := child.filePath != "" && parent.filePath != ""
                             && w.dir(child.filePath) == w.dir(parent.filePath);
            Propose(w, child, parent).value.confidence ==
            AtMost(60 + (if day then 15 else 0) + (if camera then 10 else 0) + (if directory then 10 else 0),
                   if Kind(child.fileName) == SuffixIndex || Kind(parent.fileName) == SuffixIndex then 89 else 90)
  {
    hide Kind, IsSrt, IsProxy, IsRaw, IsExport, InferRelationship;
  }

  /** The pair is turned -- the looked-up file becomes the child -- when only that file is a proxy,
      or when neither is and it is role-suffixed next to a bare name, or an export next to the
      raw. */
  predicate Turned(child: File, parent: File) {
    || (IsProxy(parent) && !IsProxy(child))
    || (!IsProxy(parent) && !IsProxy(child)
        && ((Kind(parent.fileName) == SuffixRole && Kind(child.fileName) == SuffixNone)
            || (IsRaw(child) && IsExport(parent))))
  }

  /** An index suffix in the pair leaves one way only: from a suffixed child to a bare parent, and
      not turned. Every other pair of two files yields a candidate. */
  lemma DirectionExact(w: Tools, child: File, parent: File)
    requires !IsSrt(child) && !IsSrt(parent)
    ensures Propose(w, child, parent).Some? <==>
              && child.id != parent.id
              && (Kind(child.fileName) == SuffixIndex || Kind(parent.fileName) == SuffixIndex ==>
                    && Kind(child.fileName) == SuffixIndex && Kind(parent.fileName) == SuffixNone
                    && !Turned(child, parent))
    ensures Propose(w, child, parent).Some? ==>
              var p, turned := Propose(w, child, parent).value, Turned(child, parent);
              var c, up := if turned then parent else child, if turned then child else parent;
              p.child == c.id && p.parent == up.id && p.rel == InferRelationship(c.fileName, c.fileExt, up.fileExt)
  {
    hide Kind, IsSrt, IsProxy, IsRaw, IsExport, InferRelationship, Score;
  }

  /** A drone's telemetry: an .srt that sniffs as such, next to an mp4 or mov of the same directory,
      is its PROXY_OF, from 0.70, with 0.15 for the day and 0.10 for the camera. With an index
      suffix in the pair only a suffixed .srt's own call yields it, and only for a bare video. */
  lemma TelemetryExact(w: Tools, child: File, parent: File)
    requires IsSrt(child) != IsSrt(parent)
    ensures var srt, video := if IsSrt(child) then child else parent, if IsSrt(child) then parent else child;
            var indexed := Kind(child.fileName) == SuffixIndex || Kind(parent.fileName) == SuffixIndex;
            && (Propose(w, child, parent).Some? <==>
                  && child.id != parent.id && Lower(TrimDot(video.fileExt)) in {"mp4", "mov"}
                  && w.dir(srt.filePath) == w.dir(video.filePath) && w.telemetry(srt.filePath)
                  && (indexed ==>
                        child == srt && Kind(srt.fileName) == SuffixIndex && Kind(video.fileName) == SuffixNone))
            && (Propose(w, child, parent).Some? ==>
                  var p := Propose(w, child, parent).value;
                  var day := srt.capturedAt.Some? && video.capturedAt.Some?
                             && srt.capturedAt.value.day == video.capturedAt.value.day;
                  var camera := srt.cameraModel != "" && srt.cameraModel == video.cameraModel;
                  p == Proposal(video.id, srt.id, ProxyOf,
                                AtMost(70 + (if day then 15 else 0) + (if camera then 10 else 0),
                                       if indexed then 89 else 90)))
  {
    hide Kind, Lower, TrimDot;
  }

  // ---- Both calls on one pair ----

  lemma ScoreIsSymmetric(w: Tools, a: File, b: File, gated: bool)
    ensures Score(w, a, b, gated) == Score(w, b, a, gated)
  {
  }

  lemma ProxyChildIsProxyOf(proxy: File, other: File)
    requires IsProxy(proxy) && !IsProxy(other)
    ensures InferRelationship(proxy.fileName, proxy.fileExt, other.fileExt) == ProxyOf
  {
  }

  /** A real file and its proxy, neither an .srt: every call that proposes anything proposes
      the proxy as the child, PROXY_OF, with one and the same confidence. Without index
      suffixes both calls do; with one, only the proxy's own call does, and only when the
      proxy carries the suffix and the real file is bare. */
  lemma ProxyPair(w: Tools, real_: File, proxy: File)
    requires real_.id != proxy.id && IsProxy(proxy) && !IsProxy(real_) && !IsSrt(real_) && !IsSrt(proxy)
    ensures var gated := IndexGated(real_, proxy);
            var p := Proposal(real_.id, proxy.id, ProxyOf, Score(w, real_, proxy, gated));
            && (Propose(w, real_, proxy) == if gated then None else Some(p))
            && (Propose(w, proxy, real_) ==
                  if !gated || (Kind(proxy.fileName) == SuffixIndex && Kind(real_.fileName) == SuffixNone)
                    then Some(p) else None)
  {
    hide Kind, IsSrt, IsProxy, IsRaw, IsExport, InferRelationship, Score;
    ProxyChildIsProxyOf(proxy, real_);
    ScoreIsSymmetric(w, real_, proxy, IndexGated(real_, proxy));
  }

  /** a is marked as derived from the bare b. */
  predicate RoleOf(a: File, b: File) {
    Kind(a.fileName) == SuffixRole && Kind(b.fileName) == SuffixNone
  }

  /** a is a camera raw and b an export format. */
  predicate RawAndExport(a: File, b: File) {
    IsRaw(a) && IsExport(b)
  }

  /** Two ordinary files without index suffixes: both calls propose, with one confidence, and
      they agree on who is the parent exactly when one call turns the pair and the other does
      not. */
  lemma DirectionsAgreeIff(w: Tools, a: File, b: File)
    requires a.id != b.id && !IsProxy(a) && !IsProxy(b) && !IsSrt(a) && !IsSrt(b) && !IndexGated(a, b)
    ensures Propose(w, a, b).Some? && Propose(w, b, a).Some?
    ensures Propose(w, a, b).value.confidence == Propose(w, b, a).value.confidence
    ensures (Propose(w, a, b).value.parent == Propose(w, b, a).value.parent) <==>
            ((RoleOf(b, a) || RawAndExport(a, b)) != (RoleOf(a, b) || RawAndExport(b, a)))
    ensures Propose(w, a, b).value.parent == Propose(w, b, a).value.parent ==> Propose(w, a, b) == Propose(w, b, a)
  {
    hide Kind, IsSrt, IsProxy, IsRaw, IsExport, InferRelationship, Score;
    ScoreIsSymmetric(w, a, b, false);
  }

  /** A role-suffixed raw next to a bare export: both calls turn the pair, in opposite
      directions, so each proposes the other's parent as the child. */
  lemma RoleRawAgainstBareExport(w: Tools, raw: File, export_: File)
    requires raw.id != export_.id && !IsProxy(raw) && !IsProxy(export_) && !IsSrt(raw) && !IsSrt(export_)
    requires RoleOf(raw, export_) && RawAndExport(raw, export_)
    ensures Propose(w, raw, export_).Some? && Propose(w, export_, raw).Some?
    ensures Propose(w, raw, export_).value.parent == raw.id && Propose(w, export_, raw).value.parent == export_.id
  {
    hide Kind, IsSrt, IsProxy, IsRaw, IsExport, InferRelationship, Score;
  }

  function Shot(id: int, fileName: string, ext: string): File {
    File(id, fileName, ext, "/m/" + fileName, "dsc1", None, "", "", "", None)
  }

  /** For one: the edited raw DSC1_edit.arw next to DSC1.jpg. */
  lemma EditedRawNextToJpeg(w: Tools)
    ensures var raw, export_ := Shot(1, "DSC1_edit.arw", "arw"), Shot(2, "DSC1.jpg", "jpg");
            && Propose(w, raw, export_).Some? && Propose(w, export_, raw).Some?
            && Propose(w, raw, export_).value.parent == 1 && Propose(w, export_, raw).value.parent == 2
  {
    hide Propose;
    var raw, export_ := Shot(1, "DSC1_edit.arw", "arw"), Shot(2, "DSC1.jpg", "jpg");
    ShotKinds();
    ShotRoles(raw, export_);
    RoleRawAgainstBareExport(w, raw, export_);
  }

  lemma ShotKinds()
    ensures Kind("DSC1_edit.arw") == SuffixRole && Kind("DSC1.jpg") == SuffixNone
  {
    hide Kind, Stem;
    assert [] + ["_edit"] == ["_edit"] && ["_edit"][..0] == [];
    assert Concat(["_edit"]) == Concat([]) + "_edit" == "_edit";
    assert "DSC1_edit" + "." + "arw" == "DSC1_edit.arw" && "DSC1" + "." + "jpg" == "DSC1.jpg";
    assert Lower("DSC1_edit") == "dsc1" + "_edit" && Lower("DSC1") == "dsc1" == "dsc1" + Concat([]);
    BareDsc1();
    AnalyzeUndoesNaming("dsc1", ["_edit"], "DSC1_edit", "arw");
    AnalyzeUndoesNaming("dsc1", [], "DSC1", "jpg");
  }

  lemma BareDsc1()
    ensures Bare("dsc1") && Trimmed("dsc1")
  {
    assert "dsc1"[..3] == "dsc" && !Digit("dsc"[2]);
    assert TrailingDigits("dsc") == 0;
    assert TrailingDigits("dsc1") == 1;
  }

  lemma ShotRoles(raw: File, export_: File)
    requires raw == Shot(1, "DSC1_edit.arw", "arw") && export_ == Shot(2, "DSC1.jpg", "jpg")
    ensures !IsProxy(raw) && !IsProxy(export_) && !IsSrt(raw) && !IsSrt(export_) && RawAndExport(raw, export_)
  {
    hide Contains;
    assert Lower("arw") == "arw" && Lower("jpg") == "jpg";
    NoProxyInNames();
  }

  lemma NoProxyInNames()
    ensures !Contains(Lower("DSC1_edit.arw"), "_proxy") && !Contains(Lower("DSC1.jpg"), "_proxy")
  {
    hide Contains;
    assert Lower("DSC1_edit.arw") == "dsc1_edit.arw";
    assert Lower("DSC1.jpg") == "dsc1.jpg";
    NotContained("dsc1_edit.arw", "_proxy");
    NotContained("dsc1.jpg", "_proxy");
  }

  lemma {:induction false} NotContained(s: string, part: string)
    requires |part| >= 2 && forall i :: 0 <= i < |s| - 1 ==> s[i] != part[0] || s[i + 1] != part[1]
    ensures !Contains(s, part)
    decreases |s|
  {
    assert |s| >= 2 ==> s[0] != part[0] || s[0 + 1] != part[1];
    if s != "" {
      NotContained(s[1..], part);
    }
  }

  // ---- heuristic_spatial_temporal ----

  const MAX_INT := 0x7fff_ffff_ffff_ffff

  /** A scored row: what the tie-break compares. */
  datatype Scored = Scored(parent: File, confidence: int, hamming: int, delta: int)

  predicate RoleOk(child: File, parent: File) {
    Lower(parent.fileExt) in RAW_EXTS && Lower(child.fileExt) in EXPORT_EXTS
  }

  function Abs(x: int): nat {
    if x < 0 then -x else x
  }

  /** None: the row is not eligible. */
  function ScoreRow(w: Tools, child: File, parent: File): Option<Scored>
    requires child.capturedAt.Some?
  {
    if parent.id == child.id || parent.capturedAt.None? || !RoleOk(child, parent) then None
    else
      var delta := Abs(child.capturedAt.value.seconds - parent.capturedAt.value.seconds);
      var lens := if child.lensModel != "" && child.lensModel == parent.lensModel then 10 else 0;
      if child.phash.Some? && parent.phash.Some? then
        var dist := w.distance(child.phash.value, parent.phash.value);
        if dist > 10 then None else Some(Scored(parent, 70 + lens + 9, dist, delta))
      else Some(Scored(parent, if 70 + lens > 79 then 79 else 70 + lens, MAX_INT, delta))
  }

  /** Confidence, then Hamming distance, then time delta, then lowest id. */
  predicate Better(a: Scored, b: Scored) {
    || a.confidence > b.confidence
    || (a.confidence == b.confidence && a.hamming < b.hamming)
    || (a.confidence == b.confidence && a.hamming == b.hamming && a.delta < b.delta)
    || (a.confidence == b.confidence && a.hamming == b.hamming && a.delta == b.delta && a.parent.id < b.parent.id)
  }

  ghost predicate Eligible(w: Tools, child: File, rows: seq<File>, x: Scored)
    requires child.capturedAt.Some?
  {
    x.parent in rows && ScoreRow(w, child, x.parent) == Some(x)
  }

  /** No eligible row beats it. */
  ghost predicate Unbeaten(w: Tools, child: File, rows: seq<File>, x: Scored)
    requires child.capturedAt.Some?
  {
    Eligible(w, child, rows, x) && forall y :: Eligible(w, child, rows, y) ==> !Better(y, x)
  }

  /** The best of the rows seen so far, if any is eligible. */
  ghost predicate Chosen(w: Tools, child: File, rows: seq<File>, best: Option<Scored>)
    requires child.capturedAt.Some?
  {
    match best
    case None => forall x :: !Eligible(w, child, rows, x)
    case Some(x) => Unbeaten(w, child, rows, x)
  }

  lemma ChosenExtends(w: Tools, child: File, rows: seq<File>, row: File, best: Option<Scored>)
    requires child.capturedAt.Some? && Chosen(w, child, rows, best)
    ensures var scored := ScoreRow(w, child, row);
            Chosen(w, child, rows + [row],
                   if scored.Some? && (best.None? || Better(scored.value, best.value)) then scored else best)
  {
    var more, scored := rows + [row], ScoreRow(w, child, row);
    forall y | Eligible(w, child, more, y) ensures Eligible(w, child, rows, y) || scored == Some(y) {
      assert y.parent in rows || y.parent == row;
    }
    assert more[|rows|] == row;
    if best.Some? {
      assert Eligible(w, child, more, best.value);
    }
  }

  method Best(w: Tools, child: File, rows: seq<File>) returns (best: Option<Scored>)
    requires child.capturedAt.Some?
    ensures Chosen(w, child, rows, best)
  {
    hide Chosen, ScoreRow;
    best := None;
    NothingChosen(w, child);
    for i := 0 to |rows|
      invariant Chosen(w, child, rows[..i], best)
    {
      assert rows[..i + 1] == rows[..i] + [rows[i]];
      ChosenExtends(w, child, rows[..i], rows[i], best);
      var scored := ScoreRow(w, child, rows[i]);
      if scored.Some? && (best.None? || Better(scored.value, best.value)) {
        best := scored;
      }
    }
    assert rows[..|rows|] == rows;
  }

  lemma NothingChosen(w: Tools, child: File)
    requires child.capturedAt.Some?
    ensures Chosen(w, child, [], None)
  {
  }

  /** The score stays in its band, and only a candidate with matching pHashes and lens can
      reach the auto-accept line of heuristic evidence. */
  lemma HeuristicBand(w: Tools, child: File, parent: File)
    requires child.capturedAt.Some? && ScoreRow(w, child, parent).Some?
    ensures var x := ScoreRow(w, child, parent).value;
            && 70 <= x.confidence <= 89
            && (x.confidence >= 85 <==>
                  child.phash.Some? && parent.phash.Some?
                  && child.lensModel != "" && child.lensModel == parent.lensModel)
            && (child.phash.None? || parent.phash.None? ==> x.confidence < 80)
  {
  }

  // ---- The winner in terms of the files ----

  /** A row the heuristic considers: another captured file, a camera raw for an export child, within
      10 bits of the child's hash when both have one. */
  predicate Comparable(w: Tools, child: File, parent: File) {
    && parent.id != child.id && child.capturedAt.Some? && parent.capturedAt.Some?
    && Lower(parent.fileExt) in {"arw", "cr2", "cr3", "nef", "raf", "dng", "orf", "rw2"}
    && Lower(child.fileExt) in {"jpg", "jpeg", "mp4", "mov"}
    && (BothHashed(child, parent) ==> HashesApart(w, child, parent) <= 10)
  }

  predicate BothHashed(child: File, parent: File) {
    child.phash.Some? && parent.phash.Some?
  }

  function HashesApart(w: Tools, child: File, parent: File): nat
    requires BothHashed(child, parent)
  {
    w.distance(child.phash.value, parent.phash.value)
  }

  function SecondsApart(child: File, parent: File): nat
    requires child.capturedAt.Some? && parent.capturedAt.Some?
  {
    var d := child.capturedAt.value.seconds - parent.capturedAt.value.seconds;
    if d < 0 then -d else d
  }

  /** 0.70, 0.10 for the same lens and 0.09 for close hashes; without hashes at most 0.79. */
  function Confidence(child: File, parent: File): int {
    var lens := child.lensModel != "" && child.lensModel == parent.lensModel;
    if BothHashed(child, parent) then (if lens then 89 else 79) else if lens then 79 else 70
  }

  /** p goes before q: more confident; else hashes before none, and closer hashes; else nearer in
      time; else the lower id. */
  predicate Precedes(w: Tools, child: File, p: File, q: File)
    requires Comparable(w, child, p) && Comparable(w, child, q)
  {
    if Confidence(child, p) != Confidence(child, q) then Confidence(child, p) > Confidence(child, q)
    else if BothHashed(child, p) != BothHashed(child, q) then BothHashed(child, p)
    else if BothHashed(child, p) && HashesApart(w, child, p) != HashesApart(w, child, q)
    then HashesApart(w, child, p) < HashesApart(w, child, q)
    else if SecondsApart(child, p) != SecondsApart(child, q) then SecondsApart(child, p) < SecondsApart(child, q)
    else p.id < q.id
  }

  lemma ScoreRowExact(w: Tools, child: File, parent: File)
    requires child.capturedAt.Some?
    ensures ScoreRow(w, child, parent).Some? <==> Comparable(w, child, parent)
    ensures ScoreRow(w, child, parent).Some? ==>
              ScoreRow(w, child, parent).value == Scored(parent, Confidence(child, parent),
                if BothHashed(child, parent) then HashesApart(w, child, parent) else MAX_INT,
                SecondsApart(child, parent))
  {
    hide Lower;
  }

  lemma BetterIff(w: Tools, child: File, p: File, q: File)
    requires Comparable(w, child, p) && Comparable(w, child, q)
    ensures ScoreRow(w, child, p).Some? && ScoreRow(w, child, q).Some?
    ensures Better(ScoreRow(w, child, p).value, ScoreRow(w, child, q).value) <==> Precedes(w, child, p, q)
  {
    hide ScoreRow;
    ScoreRowExact(w, child, p);
    ScoreRowExact(w, child, q);
  }

  /** p is a row to consider and no other goes before it. */
  ghost predicate Nearest(w: Tools, child: File, rows: seq<File>, p: File) {
    p in rows && Comparable(w, child, p)
    && forall q :: q in rows && Comparable(w, child, q) ==> !Precedes(w, child, q, p)
  }

  lemma UnbeatenIsNearest(w: Tools, child: File, rows: seq<File>, x: Scored)
    requires child.capturedAt.Some? && Unbeaten(w, child, rows, x)
    ensures Nearest(w, child, rows, x.parent) && x.confidence == Confidence(child, x.parent)
  {
    hide ScoreRow, Better, Precedes;
    ScoreRowExact(w, child, x.parent);
    forall q | q in rows && Comparable(w, child, q) ensures !Precedes(w, child, q, x.parent) {
      ScoreRowExact(w, child, q);
      BetterIff(w, child, q, x.parent);
      assert Eligible(w, child, rows, ScoreRow(w, child, q).value);
    }
  }

  lemma ComparableIsEligible(w: Tools, child: File, rows: seq<File>, q: File)
    requires q in rows && Comparable(w, child, q)
    ensures ScoreRow(w, child, q).Some? && Eligible(w, child, rows, ScoreRow(w, child, q).value)
  {
    hide ScoreRow;
    ScoreRowExact(w, child, q);
  }

  /** An undotted raw and its export: FINAL_EXPORT, unless the export's name calls it a proxy. */
  lemma ComparableLabel(w: Tools, child: File, parent: File)
    requires Comparable(w, child, parent)
    ensures InferRelationship(child.fileName, child.fileExt, parent.fileExt)
         == if exists i :: 0 <= i <= |Lower(child.fileName)| && "_proxy" <= Lower(child.fileName)[i..]
            then ProxyOf else FinalExport
  {
    hide Contains;
    ContainsIff(Lower(child.fileName), "_proxy");
    LowerKeepsDot(child.fileExt);
    LowerKeepsDot(parent.fileExt);
  }

  lemma LowerKeepsDot(ext: string)
    ensures ext != "" && ext[0] == '.' ==> Lower(ext) != "" && Lower(ext)[0] == '.'
  {
  }

  /** Without a camera serial or a capture instant there is nothing to compare; otherwise the one
      candidate comes from the row no other goes before. */
  method ResolveHeuristic(w: Tools, child: File, rows: seq<File>) returns (candidates: seq<Proposal>)
    ensures candidates == [] <==>
              child.cameraSerial == "" || forall q :: q in rows ==> !Comparable(w, child, q)
    ensures candidates != [] ==>
              exists p :: Nearest(w, child, rows, p) && candidates == [
                Proposal(p.id, child.id, InferRelationship(child.fileName, child.fileExt, p.fileExt),
                         Confidence(child, p))]
  {
    hide Better, ScoreRow;
    if child.cameraSerial == "" || child.capturedAt.None? {
      return [];
    }
    forall q | q in rows && Comparable(w, child, q)
      ensures ScoreRow(w, child, q).Some? && Eligible(w, child, rows, ScoreRow(w, child, q).value)
    {
      ComparableIsEligible(w, child, rows, q);
    }
    var best := Best(w, child, rows);
    if best.None? {
      return [];
    }
    var x := best.value;
    UnbeatenIsNearest(w, child, rows, x);
    return [Proposal(x.parent.id, child.id, InferRelationship(child.fileName, child.fileExt, x.parent.fileExt),
                     x.confidence)];
  }

  /** Row ids are primary keys. */
  ghost predicate DistinctIds(rows: seq<File>) {
    forall r, r' :: r in rows && r' in rows && r.id == r'.id ==> r == r'
  }

  /** The winner does not depend on the order the rows come in, and it goes before every other
      comparable row. */
  lemma WinnerIsOrderFree(w: Tools, child: File, rows: seq<File>, rows': seq<File>, p: File, p': File)
    requires multiset(rows) == multiset(rows') && DistinctIds(rows)
    requires Nearest(w, child, rows, p) && Nearest(w, child, rows', p')
    ensures p == p'
    ensures forall q :: q in rows && Comparable(w, child, q) && q != p ==> Precedes(w, child, p, q)
  {
    hide Comparable;
    forall r ensures r in rows <==> r in rows' {
      assert r in rows <==> r in multiset(rows);
      assert r in rows' <==> r in multiset(rows');
    }
    forall q | q in rows && Comparable(w, child, q) && q != p ensures Precedes(w, child, p, q) {
      PrecedesIsTotal(w, child, p, q);
    }
    if p != p' {
      PrecedesIsTotal(w, child, p, p');
    }
  }

  lemma PrecedesIsTotal(w: Tools, child: File, p: File, q: File)
    requires Comparable(w, child, p) && Comparable(w, child, q) && p.id != q.id
    ensures Precedes(w, child, p, q) || Precedes(w, child, q, p)
  {
  }

  // ---- The dot ----

  /** A raw with a dotted extension: the stem resolver still turns the pair to the raw as
      parent, but neither labels it a final export nor lets the heuristic see it. */
  lemma DottedExtensionIsNotExport(w: Tools, raw: File, export_: File, ext: string)
    requires raw.fileExt == "." + ext && IsRaw(raw) && IsExport(export_)
    requires !IsProxy(raw) && !IsProxy(export_) && raw.id != export_.id
    requires Kind(raw.fileName) == SuffixNone == Kind(export_.fileName)
    ensures Propose(w, raw, export_).Some? && Propose(w, raw, export_) == Propose(w, export_, raw)
    ensures Propose(w, raw, export_).value.parent == raw.id && Propose(w, raw, export_).value.rel == DerivedFrom
    ensures export_.capturedAt.Some? ==> ScoreRow(w, export_, raw).None?
  {
    hide Kind, Score, Contains, TrimDot;
    assert Lower(raw.fileExt)[0] == '.';
    assert Lower(raw.fileExt) !in RAW_EXTS;
    assert !IsSrt(raw) && !IsSrt(export_);
    ScoreIsSymmetric(w, raw, export_, false);
  }
}
