/**
  Filename-stem normalisation: cut the extension, trim, lowercase, then strip trailing
  duplicate-index and derivation-role markers one at a time until none is left.
 */
module Naming {

  datatype SuffixKind = SuffixNone | SuffixIndex | SuffixRole

  // ---- Characters ----

  predicate Digit(c: char) {
    '0' <= c <= '9'
  }

  /** unicode.IsSpace. */
  predicate Space(c: char) {
    || c in {'\t', '\n', '\U{000B}', '\U{000C}', '\r', ' ', '\U{0085}', '\U{00A0}', '\U{1680}'}
    || '\U{2000}' <= c <= '\U{200A}'
    || c in {'\U{2028}', '\U{2029}', '\U{202F}', '\U{205F}', '\U{3000}'}
  }

  /** ASCII lowercasing. */
  function LowerChar(c: char): char {
    if 'A' <= c <= 'Z' then (c as int + 32) as char else c
  }

  function Lower(s: string): (r: string)
    ensures |r| == |s| && forall i :: 0 <= i < |s| ==> r[i] == LowerChar(s[i])
  {
    seq(|s|, i requires 0 <= i < |s| => LowerChar(s[i]))
  }

  function TrimLeft(s: string): string {
    if s != "" && Space(s[0]) then TrimLeft(s[1..]) else s
  }

  function TrimRight(s: string): string {
    if s != "" && Space(s[|s| - 1]) then TrimRight(s[..|s| - 1]) else s
  }

  function TrimSpace(s: string): string {
    TrimRight(TrimLeft(s))
  }

  predicate Trimmed(s: string) {
    s != "" ==> !Space(s[0]) && !Space(s[|s| - 1])
  }

  /** The position of the last dot, or -1. */
  function LastDot(s: string): (i: int)
    ensures -1 <= i < |s| && (i >= 0 ==> s[i] == '.') && forall j :: i < j < |s| ==> s[j] != '.'
  {
    if s == "" then -1 else if s[|s| - 1] == '.' then |s| - 1 else LastDot(s[..|s| - 1])
  }

  function CutExtension(s: string): string {
    if LastDot(s) > 0 then s[..LastDot(s)] else s
  }

  function Normalized(fileName: string): string {
    Lower(TrimSpace(CutExtension(fileName)))
  }

  // ---- Markers, as the two regular expressions describe them ----

  predicate Digits(s: string) {
    s != "" && forall i :: 0 <= i < |s| ==> Digit(s[i])
  }

  /** -\d{1,2} or \(\d+\) */
  predicate IndexMarker(m: string) {
    || (|m| in {2, 3} && m[0] == '-' && Digits(m[1..]))
    || (|m| >= 3 && m[0] == '(' && m[|m| - 1] == ')' && Digits(m[1..|m| - 1]))
  }

  /** _edit, _proxy, _v\d+ or " copy" */
  predicate RoleMarker(m: string) {
    m == "_edit" || m == "_proxy" || m == " copy" || (|m| >= 3 && m[..2] == "_v" && Digits(m[2..]))
  }

  predicate Marker(m: string) {
    IndexMarker(m) || RoleMarker(m)
  }

  // ---- Finding the marker a name ends in ----

  function TrailingDigits(s: string): (n: nat)
    ensures n <= |s| && (forall i :: |s| - n <= i < |s| ==> Digit(s[i]))
    ensures n < |s| ==> !Digit(s[|s| - n - 1])
  {
    if s != "" && Digit(s[|s| - 1]) then 1 + TrailingDigits(s[..|s| - 1]) else 0
  }

  predicate EndsWith(s: string, suffix: string) {
    |suffix| <= |s| && s[|s| - |suffix|..] == suffix
  }

  /** The length of the trailing index marker, 0 if there is none. */
  function IndexMarkerLength(s: string): (n: nat)
    ensures n <= |s|
  {
    var d := TrailingDigits(s);
    if 1 <= d <= 2 && d < |s| && s[|s| - d - 1] == '-' then d + 1
    else if s != "" && s[|s| - 1] == ')' then
      var inner := s[..|s| - 1];
      var d := TrailingDigits(inner);
      if 1 <= d < |inner| && inner[|inner| - d - 1] == '(' then d + 2 else 0
    else 0
  }

  function RoleMarkerLength(s: string): (n: nat)
    ensures n <= |s|
  {
    var d := TrailingDigits(s);
    if EndsWith(s, "_edit") then 5
    else if EndsWith(s, "_proxy") then 6
    else if EndsWith(s, " copy") then 5
    else if d >= 1 && EndsWith(s[..|s| - d], "_v") then d + 2
    else 0
  }

  lemma TrailingDigitsAre(s: string, n: nat)
    requires n <= |s| && (forall i :: |s| - n <= i < |s| ==> Digit(s[i]))
    requires n < |s| ==> !Digit(s[|s| - n - 1])
    ensures TrailingDigits(s) == n
  {
    hide TrailingDigits;
    var d := TrailingDigits(s);
    assert d < |s| ==> !Digit(s[|s| - d - 1]);
  }

  lemma IndexMarkerFound(s: string, n: nat)
    requires 0 < n <= |s| && IndexMarker(s[|s| - n..])
    ensures IndexMarkerLength(s) == n
  {
    hide TrailingDigits;
    var m := s[|s| - n..];
    if m[0] == '-' {
      assert forall i :: |s| - (n - 1) <= i < |s| ==> s[i] == m[1..][i - (|s| - (n - 1))];
      TrailingDigitsAre(s, n - 1);
    } else {
      var inner := s[..|s| - 1];
      assert forall i :: |inner| - (n - 2) <= i < |inner| ==> inner[i] == m[1..n - 1][i - (|inner| - (n - 2))];
      TrailingDigitsAre(inner, n - 2);
      assert s[|s| - 1] == m[n - 1] == ')';
      TrailingDigitsAre(s, 0);
    }
  }

  lemma DashMarkerSound(s: string, d: nat)
    requires 1 <= d == TrailingDigits(s) <= 2 && d < |s| && s[|s| - d - 1] == '-'
    ensures IndexMarker(s[|s| - d - 1..])
  {
    hide TrailingDigits;
    var m := s[|s| - d - 1..];
    assert m[1..] == s[|s| - d..];
  }

  lemma ParenMarkerSound(s: string, d: nat)
    requires |s| >= 2 && s[|s| - 1] == ')' && 1 <= d == TrailingDigits(s[..|s| - 1]) < |s| - 1 && s[|s| - d - 2] == '('
    ensures IndexMarker(s[|s| - d - 2..])
  {
    hide TrailingDigits;
    var m, inner := s[|s| - d - 2..], s[..|s| - 1];
    assert m[1..|m| - 1] == inner[|inner| - d..];
  }

  lemma IndexMarkerSound(s: string)
    requires IndexMarkerLength(s) > 0
    ensures IndexMarker(s[|s| - IndexMarkerLength(s)..])
  {
    hide TrailingDigits, IndexMarker;
    var d := TrailingDigits(s);
    if 1 <= d <= 2 && d < |s| && s[|s| - d - 1] == '-' {
      DashMarkerSound(s, d);
    } else {
      ParenMarkerSound(s, TrailingDigits(s[..|s| - 1]));
    }
  }

  /** The computed length is right: a suffix is an index marker exactly when it is the one
      found. */
  lemma IndexMarkerExact(s: string, n: nat)
    requires 0 < n <= |s|
    ensures IndexMarker(s[|s| - n..]) <==> IndexMarkerLength(s) == n
  {
    hide IndexMarker, IndexMarkerLength;
    if IndexMarker(s[|s| - n..]) {
      IndexMarkerFound(s, n);
    } else if IndexMarkerLength(s) == n {
      IndexMarkerSound(s);
    }
  }

  lemma VersionMarkerFound(s: string, n: nat)
    requires 3 <= n <= |s| && s[|s| - n..][..2] == "_v" && Digits(s[|s| - n..][2..])
    ensures TrailingDigits(s) == n - 2 && EndsWith(s[..|s| - (n - 2)], "_v") && Digit(s[|s| - 1])
  {
    hide TrailingDigits;
    var m, head := s[|s| - n..], s[..|s| - (n - 2)];
    assert forall i :: |s| - (n - 2) <= i < |s| ==> s[i] == m[2..][i - (|s| - (n - 2))];
    assert s[|s| - (n - 2) - 1] == m[..2][1];
    TrailingDigitsAre(s, n - 2);
    assert head[|head| - 2..] == m[..2];
  }

  lemma VersionShape(s: string, d: nat)
    requires d == TrailingDigits(s) >= 1 && EndsWith(s[..|s| - d], "_v")
    ensures |s| >= d + 2 && s[|s| - d - 2..][..2] == "_v" && Digits(s[|s| - d - 2..][2..])
  {
    hide TrailingDigits;
    var head := s[..|s| - d];
    assert |head| >= 2 && head[|head| - 2..] == "_v";
    assert s[|s| - d - 2..][..2] == head[|head| - 2..];
    assert s[|s| - d - 2..][2..] == s[|s| - d..];
  }

  lemma VersionMarkerSound(s: string, d: nat)
    requires d == TrailingDigits(s) >= 1 && EndsWith(s[..|s| - d], "_v")
    ensures |s| >= d + 2 && RoleMarker(s[|s| - d - 2..])
  {
    hide TrailingDigits, EndsWith, Digits;
    VersionShape(s, d);
  }

  lemma EndsWithLast(s: string, suffix: string)
    requires EndsWith(s, suffix) && suffix != ""
    ensures s[|s| - 1] == suffix[|suffix| - 1]
  {
    assert s[|s| - 1] == s[|s| - |suffix|..][|suffix| - 1];
  }

  lemma EndsWithOne(s: string, a: string, b: string)
    requires a != "" && b != "" && a[|a| - 1] != b[|b| - 1]
    ensures !EndsWith(s, a) || !EndsWith(s, b)
  {
    if EndsWith(s, a) {
      EndsWithLast(s, a);
    }
    if EndsWith(s, b) {
      EndsWithLast(s, b);
    }
  }

  lemma WordMarkers(s: string)
    ensures !EndsWith(s, "_edit") || !EndsWith(s, "_proxy")
    ensures !EndsWith(s, "_edit") || !EndsWith(s, " copy")
    ensures !EndsWith(s, "_proxy") || !EndsWith(s, " copy")
    ensures EndsWith(s, "_edit") || EndsWith(s, "_proxy") || EndsWith(s, " copy") ==>
      !Digit(s[|s| - 1]) && s[|s| - 1] != ')'
  {
    EndsWithOne(s, "_edit", "_proxy");
    EndsWithOne(s, "_edit", " copy");
    if EndsWith(s, "_edit") {
      EndsWithLast(s, "_edit");
    }
    if EndsWith(s, "_proxy") {
      EndsWithLast(s, "_proxy");
      assert s[|s| - 2] == s[|s| - 6..][4] == 'x';
    }
    if EndsWith(s, " copy") {
      EndsWithLast(s, " copy");
      assert s[|s| - 2] == s[|s| - 5..][3] == 'p';
    }
  }

  lemma RoleMarkerFound(s: string, n: nat)
    requires 0 < n <= |s| && RoleMarker(s[|s| - n..])
    ensures RoleMarkerLength(s) == n
  {
    hide TrailingDigits, EndsWith;
    var m := s[|s| - n..];
    WordMarkers(s);
    if m in {"_edit", "_proxy", " copy"} {
      WordMarkerEnds(s, m);
    } else {
      VersionMarkerFound(s, n);
    }
  }

  lemma WordMarkerEnds(s: string, m: string)
    requires |m| <= |s| && s[|s| - |m|..] == m
    ensures EndsWith(s, m)
  {
  }

  lemma RoleMarkerSound(s: string)
    requires RoleMarkerLength(s) > 0
    ensures RoleMarker(s[|s| - RoleMarkerLength(s)..])
  {
    hide TrailingDigits;
    var d := TrailingDigits(s);
    if !EndsWith(s, "_edit") && !EndsWith(s, "_proxy") && !EndsWith(s, " copy") {
      VersionMarkerSound(s, d);
    }
  }

  lemma RoleMarkerExact(s: string, n: nat)
    requires 0 < n <= |s|
    ensures RoleMarker(s[|s| - n..]) <==> RoleMarkerLength(s) == n
  {
    hide RoleMarker, RoleMarkerLength;
    if RoleMarker(s[|s| - n..]) {
      RoleMarkerFound(s, n);
    } else if RoleMarkerLength(s) == n {
      RoleMarkerSound(s);
    }
  }

  /** A name ends in at most one marker, of one kind. */
  lemma NotBothKinds(s: string)
    ensures IndexMarkerLength(s) == 0 || RoleMarkerLength(s) == 0
  {
    hide TrailingDigits, EndsWith;
    var d := TrailingDigits(s);
    WordMarkers(s);
    if d >= 1 {
      assert Digit(s[|s| - 1]);
      if EndsWith(s[..|s| - d], "_v") {
        EndsWithLast(s[..|s| - d], "_v");
        assert d < |s| && s[|s| - d - 1] == 'v' by {
          EndsWithFits(s[..|s| - d], "_v");
        }
      }
    }
  }

  lemma EndsWithFits(s: string, suffix: string)
    requires EndsWith(s, suffix)
    ensures |suffix| <= |s|
  {
  }

  // ---- Analyze ----

  datatype Analysis = Analysis(stem: string, kind: SuffixKind)

  /** An index marker anywhere decides the kind. */
  function Combine(a: SuffixKind, b: SuffixKind): SuffixKind {
    if a == SuffixIndex || b == SuffixIndex then SuffixIndex
    else if a == SuffixRole || b == SuffixRole then SuffixRole
    else SuffixNone
  }

  function Strip(s: string): Analysis {
    if IndexMarkerLength(s) > 0 then
      var r := Strip(s[..|s| - IndexMarkerLength(s)]);
      r.(kind := Combine(SuffixIndex, r.kind))
    else if RoleMarkerLength(s) > 0 then
      var r := Strip(s[..|s| - RoleMarkerLength(s)]);
      r.(kind := Combine(SuffixRole, r.kind))
    else Analysis(s, SuffixNone)
  }

  method Analyze(fileName: string) returns (stem: string, kind: SuffixKind)
    ensures Analysis(stem, kind) == Strip(Normalized(fileName))
  {
    stem := fileName;
    var i := LastDot(stem);
    if i > 0 {
      stem := stem[..i];
    }
    stem := Lower(TrimSpace(stem));
    ghost var normalized := stem;
    kind := SuffixNone;
    while true
      invariant Strip(normalized) == Analysis(Strip(stem).stem, Combine(kind, Strip(stem).kind))
      decreases |stem|
    {
      if IndexMarkerLength(stem) > 0 {
        stem := stem[..|stem| - IndexMarkerLength(stem)];
        kind := SuffixIndex;
        continue;
      }
      if RoleMarkerLength(stem) > 0 {
        stem := stem[..|stem| - RoleMarkerLength(stem)];
        if kind == SuffixNone {
          kind := SuffixRole;
        }
        continue;
      }
      break;
    }
  }

  function Kind(fileName: string): SuffixKind {
    Strip(Normalized(fileName)).kind
  }

  function Stem(fileName: string): string {
    Strip(Normalized(fileName)).stem
  }

  // ---- What the stem and the kind mean ----

  function Concat(ms: seq<string>): string {
    if ms == [] then "" else Concat(ms[..|ms| - 1]) + ms[|ms| - 1]
  }

  predicate Markers(ms: seq<string>) {
    forall i :: 0 <= i < |ms| ==> Marker(ms[i])
  }

  /** Index if some marker is an index, Role if there are only role markers, None if none. */
  function KindOf(ms: seq<string>): SuffixKind {
    if exists i :: 0 <= i < |ms| && IndexMarker(ms[i]) then SuffixIndex
    else if ms != [] then SuffixRole
    else SuffixNone
  }

  predicate Bare(s: string) {
    IndexMarkerLength(s) == 0 && RoleMarkerLength(s) == 0
  }

  predicate EndsInMarker(s: string, n: nat) {
    0 < n <= |s| && Marker(s[|s| - n..])
  }

  lemma EndsInMarkerExact(s: string, n: nat)
    requires n > 0
    ensures EndsInMarker(s, n) <==> IndexMarkerLength(s) == n || RoleMarkerLength(s) == n
  {
    hide IndexMarker, RoleMarker, IndexMarkerLength, RoleMarkerLength;
    if n <= |s| {
      IndexMarkerExact(s, n);
      RoleMarkerExact(s, n);
    }
  }

  /** Bare means what it says: no suffix is a marker. */
  lemma BareExact(s: string)
    ensures Bare(s) <==> forall n :: !EndsInMarker(s, n)
  {
    hide EndsInMarker, IndexMarkerLength, RoleMarkerLength;
    forall n: nat | n > 0 ensures EndsInMarker(s, n) <==> IndexMarkerLength(s) == n || RoleMarkerLength(s) == n {
      EndsInMarkerExact(s, n);
    }
    assert !EndsInMarker(s, 0) by {
      NoEmptyMarker(s);
    }
    var i, r := IndexMarkerLength(s), RoleMarkerLength(s);
    assert i > 0 ==> EndsInMarker(s, i);
    assert r > 0 ==> EndsInMarker(s, r);
  }

  lemma NoEmptyMarker(s: string)
    ensures !EndsInMarker(s, 0)
  {
  }

  lemma KindOfSnoc(ms: seq<string>, m: string)
    requires Marker(m)
    ensures KindOf(ms + [m]) == Combine(if IndexMarker(m) then SuffixIndex else SuffixRole, KindOf(ms))
  {
    var all := ms + [m];
    assert all[|ms|] == m;
    if i :| 0 <= i < |ms| && IndexMarker(ms[i]) {
      assert IndexMarker(all[i]);
    }
    if i :| 0 <= i < |all| && IndexMarker(all[i]) {
      assert i < |ms| ==> IndexMarker(ms[i]);
    }
  }

  /** One turn of the loop takes off one marker. */
  lemma StripOne(s: string, n: nat)
    requires EndsInMarker(s, n)
    ensures Strip(s).stem == Strip(s[..|s| - n]).stem
    ensures Strip(s).kind == Combine(if IndexMarker(s[|s| - n..]) then SuffixIndex else SuffixRole,
                                     Strip(s[..|s| - n]).kind)
  {
    hide IndexMarker, RoleMarker, IndexMarkerLength, RoleMarkerLength;
    IndexMarkerExact(s, n);
    RoleMarkerExact(s, n);
    NotBothKinds(s);
  }

  lemma ConcatLast(ms: seq<string>)
    requires ms != []
    ensures Concat(ms) == Concat(ms[..|ms| - 1]) + ms[|ms| - 1]
  {
  }

  lemma StripBare(s: string)
    requires Bare(s)
    ensures Strip(s) == Analysis(s, SuffixNone)
  {
  }

  lemma NoMarkers()
    ensures Concat([]) == ""
  {
  }

  /** Stripping ends in a name no marker can shorten, and loses only markers. */
  lemma {:induction false} StripSplits(s: string) returns (ms: seq<string>)
    ensures Bare(Strip(s).stem) && Markers(ms)
    ensures s == Strip(s).stem + Concat(ms) && Strip(s).kind == KindOf(ms)
    decreases |s|
  {
    hide Marker, IndexMarker, IndexMarkerLength, RoleMarkerLength, KindOf, Strip, Concat;
    var n := if IndexMarkerLength(s) > 0 then IndexMarkerLength(s) else RoleMarkerLength(s);
    if n == 0 {
      ms := [];
      NoKind();
      NoMarkers();
      StripBare(s);
    } else {
      EndsInMarkerExact(s, n);
      StripOne(s, n);
      var m := s[|s| - n..];
      var rest := StripSplits(s[..|s| - n]);
      KindOfSnoc(rest, m);
      ms := rest + [m];
      ConcatLast(ms);
      assert ms[..|ms| - 1] == rest;
      assert s == s[..|s| - n] + m;
    }
  }

  lemma NoKind()
    ensures KindOf([]) == SuffixNone
  {
  }

  /** Stripping undoes appending: any bare base, any markers in any order. */
  lemma {:induction false} StripUndoesAppend(base: string, ms: seq<string>)
    requires Bare(base) && Markers(ms)
    ensures Strip(base + Concat(ms)) == Analysis(base, KindOf(ms))
    decreases |ms|
  {
    hide Marker, IndexMarker, Bare, KindOf, Concat, Strip;
    if ms == [] {
      assert base + Concat(ms) == base by {
        NoMarkers();
      }
      NoKind();
      StripBare(base);
    } else {
      var rest, m := ms[..|ms| - 1], ms[|ms| - 1];
      var s, shorter := base + Concat(ms), base + Concat(rest);
      ConcatLast(ms);
      assert s == shorter + m;
      assert s[|s| - |m|..] == m && s[..|s| - |m|] == shorter;
      MarkerNotEmpty(m);
      StripOne(s, |m|);
      StripUndoesAppend(base, rest);
      assert rest + [m] == ms;
      KindOfSnoc(rest, m);
    }
  }

  lemma MarkerNotEmpty(m: string)
    requires Marker(m)
    ensures m != ""
  {
  }

  // ---- From file names ----

  lemma {:induction false} LastDotOf(raw: string, ext: string)
    requires '.' !in ext
    ensures LastDot(raw + "." + ext) == |raw|
    decreases |ext|
  {
    var s := raw + "." + ext;
    if ext == "" {
      assert s[|s| - 1] == '.';
    } else {
      assert s[|s| - 1] == ext[|ext| - 1];
      assert s[..|s| - 1] == raw + "." + ext[..|ext| - 1];
      LastDotOf(raw, ext[..|ext| - 1]);
    }
  }

  lemma TrimIdle(s: string)
    requires Trimmed(s)
    ensures TrimSpace(s) == s
  {
  }

  lemma {:induction false} ConcatEnds(base: string, ms: seq<string>)
    requires base != "" && Trimmed(base) && Markers(ms)
    ensures Trimmed(base + Concat(ms))
    decreases |ms|
  {
    var s := base + Concat(ms);
    assert s[0] == base[0];
    if ms == [] {
      assert s == base;
    } else {
      var m := ms[|ms| - 1];
      assert Marker(m) && s[|s| - 1] == m[|m| - 1];
      if RoleMarker(m) && m !in {"_edit", "_proxy", " copy"} {
        assert m[|m| - 1] == m[2..][|m| - 3];
      } else if IndexMarker(m) && m[0] == '-' {
        assert m[|m| - 1] == m[1..][|m| - 2];
      }
    }
  }

  /** The file-name round trip: take a non-empty, trimmed, lowercase base that ends in no
      marker; append any markers, in any letter case, and any extension; the analysis gives
      the base back, with the kind of what was appended. */
  lemma AnalyzeUndoesNaming(base: string, ms: seq<string>, raw: string, ext: string)
    requires base != "" && Trimmed(base) && Bare(base) && Markers(ms)
    requires Lower(raw) == base + Concat(ms) && '.' !in ext
    ensures Stem(raw + "." + ext) == base && Kind(raw + "." + ext) == KindOf(ms)
  {
    var fileName := raw + "." + ext;
    LastDotOf(raw, ext);
    assert fileName[..|raw|] == raw;
    ConcatEnds(base, ms);
    assert |raw| == |Lower(raw)| > 0;
    assert LowerChar(raw[0]) == Lower(raw)[0] && LowerChar(raw[|raw| - 1]) == Lower(raw)[|raw| - 1];
    TrimIdle(raw);
    StripUndoesAppend(base, ms);
  }

  /** The stem of any file name: no suffix of it is a marker, and the name was it plus markers. */
  lemma StemIsBare(fileName: string) returns (ms: seq<string>)
    ensures Markers(ms) && forall n :: !EndsInMarker(Stem(fileName), n)
    ensures Normalized(fileName) == Stem(fileName) + Concat(ms) && Kind(fileName) == KindOf(ms)
  {
    hide EndsInMarker;
    ms := StripSplits(Normalized(fileName));
    BareExact(Stem(fileName));
  }
}
