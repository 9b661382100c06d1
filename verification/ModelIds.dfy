/** Normalising model ids: vendor prefixes, case, spacing and separators go, and
    what is left normalises to itself. */
module ModelIds {
  import opened Text

  function SlashChar(c: char): char { if c == '\\' then '/' else c }

  function Slashed(s: string): (r: string)
    ensures |r| == |s|
  {
    seq(|s|, i requires 0 <= i < |s| => SlashChar(s[i]))
  }

  datatype Run = Blanks | Dashes

  predicate InRun(k: Run, c: char) {
    match k
    case Blanks => IsSpace(c) || c == '_'
    case Dashes => c == '-'
  }

  // Every run of such characters becomes one dash.
  function Squeeze(k: Run, s: string): string {
    if s == "" then ""
    else if !InRun(k, s[0]) then [s[0]] + Squeeze(k, s[1..])
    else if |s| > 1 && InRun(k, s[1]) then Squeeze(k, s[1..])
    else "-" + Squeeze(k, s[1..])
  }

  // str.split("/").
  function Split(s: string): (r: seq<string>)
    ensures r != []
  {
    if s == "" then [""]
    else if s[0] == '/' then [""] + Split(s[1..])
    else
      var rest := Split(s[1..]);
      [[s[0]] + rest[0]] + rest[1..]
  }

  function DashLeft(s: string): string {
    if s != "" && s[0] == '-' then DashLeft(s[1..]) else s
  }

  function DashRight(s: string): string {
    if s != "" && s[|s| - 1] == '-' then DashRight(s[..|s| - 1]) else s
  }

  // str.strip("-").
  function DashTrim(s: string): string {
    DashRight(DashLeft(s))
  }

  // The parts that survive trimming.
  function Trimmings(parts: seq<string>): seq<string> {
    if parts == [] then []
    else (if DashTrim(parts[0]) != "" then [DashTrim(parts[0])] else []) + Trimmings(parts[1..])
  }

  function JoinSlash(parts: seq<string>): string {
    if parts == [] then ""
    else if |parts| == 1 then parts[0]
    else parts[0] + "/" + JoinSlash(parts[1..])
  }

  // An id in lower case, with its separators unified.
  function Cleaned(lower: string): string {
    Squeeze(Dashes, Squeeze(Blanks, Slashed(lower)))
  }

  function Segments(lower: string): seq<string> {
    Trimmings(Split(Cleaned(lower)))
  }

  /** `_safe_model_id`. */
  function SafeModelId(value: string): string {
    JoinSlash(Segments(Lower(Strip(value))))
  }

  function NonBlank(parts: seq<string>): seq<string> {
    if parts == [] then [] else (if parts[0] != "" then [parts[0]] else []) + NonBlank(parts[1..])
  }

  // The last segment of a safe id that has several.
  function LastSegment(safe: string): string {
    var parts := NonBlank(Split(safe));
    if '/' in safe && |parts| >= 2 then parts[|parts| - 1] else ""
  }

  /** `normalize_model_id`: the canonical id. */
  function Canonical(mid: string): string {
    var s := Strip(mid);
    if s == "" then "" else
    var safe := SafeModelId(s);
    if LastSegment(safe) != "" then LastSegment(safe) else safe
  }

  /** `normalize_model_id`: the ids under which a model may be known already. */
  function Candidates(mid: string): seq<string> {
    var s := Strip(mid);
    if s == "" then [] else
    var safe := SafeModelId(s);
    [safe] + (if Lower(s) != safe then [Lower(s)] else [])
           + (if LastSegment(safe) != "" then [LastSegment(safe)] else [])
  }

  // --------------------------------------------------------------- normal form

  predicate PlainChar(c: char) {
    !IsSpace(c) && c != '_' && c != '\\' && c != '/' && !('A' <= c <= 'Z')
  }

  predicate NoDoubleDash(s: string) {
    forall i :: 0 <= i < |s| - 1 ==> !(s[i] == '-' && s[i + 1] == '-')
  }

  /** A canonical id: lower case, one segment, single inner dashes. */
  predicate NormalForm(s: string) {
    && s != "" && s[0] != '-' && s[|s| - 1] != '-'
    && NoDoubleDash(s) && forall c :: c in s ==> PlainChar(c)
  }

  // ------------------------------------------------- normal forms stay put

  lemma SqueezeNone(k: Run, s: string)
    requires forall i :: 0 <= i < |s| ==> InRun(k, s[i]) ==> k.Dashes?
    requires k.Dashes? ==> NoDoubleDash(s)
    ensures Squeeze(k, s) == s
  {
    if s != "" {
      assert forall i :: 0 <= i < |s[1..]| ==> s[1..][i] == s[i + 1];
      SqueezeNone(k, s[1..]);
    }
  }

  lemma SplitNone(s: string)
    requires '/' !in s
    ensures Split(s) == [s]
  {
    if s != "" {
      assert forall c :: c in s[1..] ==> c in s;
      assert s[0] in s && s == [s[0]] + s[1..];
      SplitNone(s[1..]);
      assert [s[1..]][1..] == [];
    }
  }

  lemma TextFixed(s: string)
    requires NormalForm(s)
    ensures Strip(s) == s && Lower(s) == s && Slashed(s) == s
  {
    assert s[0] in s && s[|s| - 1] in s;
    StripTrimmed(s);
    assert forall i :: 0 <= i < |s| ==> s[i] in s;
  }

  lemma CleanedFixed(s: string)
    requires NormalForm(s)
    ensures Cleaned(s) == s
  {
    TextFixed(s);
    assert forall i :: 0 <= i < |s| ==> s[i] in s;
    SqueezeNone(Blanks, s);
    SqueezeNone(Dashes, s);
  }

  lemma SegmentsFixed(s: string)
    requires NormalForm(s)
    ensures Segments(s) == [s]
  {
    CleanedFixed(s);
    SplitNone(s);
    assert DashTrim(s) == s;
    assert [s][1..] == [] && Trimmings([]) == [];
    assert Trimmings([s]) == [s];
  }

  lemma NormalFormFixed(s: string)
    requires NormalForm(s)
    ensures Strip(s) == s && Lower(s) == s && Segments(s) == [s]
    ensures SafeModelId(s) == s && Canonical(s) == s
  {
    TextFixed(s);
    SegmentsFixed(s);
    assert '/' !in s;
    assert LastSegment(s) == "";
  }

  // ------------------------------------------- every segment is a normal form

  // What cleaning leaves: no upper case, blanks, backslashes or double dashes.
  predicate CleanChar(c: char) {
    c == '/' || PlainChar(c)
  }

  predicate Clean(s: string) {
    NoDoubleDash(s) && forall c :: c in s ==> CleanChar(c)
  }

  lemma SqueezeChars(k: Run, s: string)
    ensures forall c :: c in Squeeze(k, s) ==> c == '-' || (c in s && !InRun(k, c))
  {
  }

  lemma SqueezeHead(s: string)
    requires s != "" && s[0] != '-'
    ensures Squeeze(Dashes, s) != "" && Squeeze(Dashes, s)[0] == s[0]
  {
  }

  lemma SqueezeDashes(s: string)
    ensures NoDoubleDash(Squeeze(Dashes, s))
  {
    if s != "" {
      SqueezeDashes(s[1..]);
      if s[0] == '-' && |s| > 1 && s[1] != '-' { SqueezeHead(s[1..]); }
    }
  }

  lemma CleanedIsClean(s: string)
    ensures Clean(Cleaned(Lower(s)))
  {
    var a := Slashed(Lower(s));
    var b := Squeeze(Blanks, a);
    SqueezeChars(Blanks, a);
    SqueezeChars(Dashes, b);
    SqueezeDashes(b);
    forall c | c in a ensures c != '\\' && !('A' <= c <= 'Z') {
      var i :| 0 <= i < |a| && a[i] == c;
      assert a[i] == SlashChar(LowerChar(s[i]));
    }
  }

  // A part of a clean id has no slash and is clean.
  predicate PartOk(p: string) {
    NoDoubleDash(p) && forall c :: c in p ==> PlainChar(c)
  }

  lemma SplitParts(s: string)
    requires Clean(s)
    ensures forall p :: p in Split(s) ==> PartOk(p)
    ensures s != "" && s[0] != '/' ==> Split(s)[0] != "" && Split(s)[0][0] == s[0]
    ensures s != "" && s[0] == '/' ==> Split(s)[0] == ""
  {
    if s != "" {
      var t := s[1..];
      assert forall i :: 0 <= i < |t| ==> t[i] == s[i + 1];
      assert forall c :: c in t ==> c in s;
      SplitParts(t);
      if s[0] != '/' {
        var first := Split(t)[0];
        assert first in Split(t) && s[0] in s;
        FrontPart(s[0], first, t);
        assert Split(s) == [[s[0]] + first] + Split(t)[1..];
      }
    }
  }

  lemma FrontPart(c: char, first: string, t: string)
    requires PlainChar(c) && PartOk(first)
    requires first != "" ==> t != "" && first[0] == t[0]
    requires t != "" ==> !(c == '-' && t[0] == '-')
    ensures PartOk([c] + first)
  {
    var p := [c] + first;
    forall i | 0 <= i < |p| - 1 ensures !(p[i] == '-' && p[i + 1] == '-') {
      if i > 0 { assert p[i] == first[i - 1] && p[i + 1] == first[i]; }
    }
  }

  lemma DashTrimOk(p: string)
    requires PartOk(p)
    ensures DashTrim(p) == "" || NormalForm(DashTrim(p))
  {
    DashLeftOk(p);
    DashRightOk(DashLeft(p));
  }

  lemma DashLeftOk(p: string)
    requires PartOk(p)
    ensures PartOk(DashLeft(p)) && (DashLeft(p) != "" ==> DashLeft(p)[0] != '-')
  {
    if p != "" && p[0] == '-' {
      var t := p[1..];
      assert forall i :: 0 <= i < |t| ==> t[i] == p[i + 1];
      assert forall c :: c in t ==> c in p;
      DashLeftOk(t);
    }
  }

  lemma DashRightOk(p: string)
    requires PartOk(p) && (p != "" ==> p[0] != '-')
    ensures var r := DashRight(p); r == "" || NormalForm(r)
  {
    if p != "" && p[|p| - 1] == '-' {
      var t := p[..|p| - 1];
      assert forall c :: c in t ==> c in p;
      DashRightOk(t);
    }
  }

  lemma TrimmingsOk(parts: seq<string>)
    requires forall p :: p in parts ==> PartOk(p)
    ensures forall p :: p in Trimmings(parts) ==> NormalForm(p)
  {
    if parts != [] {
      DashTrimOk(parts[0]);
      TrimmingsOk(parts[1..]);
    }
  }

  lemma SegmentsNormal(s: string)
    ensures forall p :: p in Segments(Lower(s)) ==> NormalForm(p)
  {
    CleanedIsClean(s);
    SplitParts(Cleaned(Lower(s)));
    TrimmingsOk(Split(Cleaned(Lower(s))));
  }

  // ------------------------------------------- the canonical id is a segment

  lemma SplitJoin(parts: seq<string>)
    requires parts != [] && forall p :: p in parts ==> '/' !in p
    ensures Split(JoinSlash(parts)) == parts
    ensures '/' in JoinSlash(parts) <==> |parts| >= 2
  {
    assert parts[0] in parts;
    if |parts| == 1 {
      SplitNone(parts[0]);
    } else {
      SplitJoin(parts[1..]);
      SplitAt(parts[0], JoinSlash(parts[1..]));
    }
  }

  lemma SplitAt(p: string, rest: string)
    requires '/' !in p
    ensures Split(p + "/" + rest) == [p] + Split(rest)
  {
    var s := p + "/" + rest;
    if p == "" {
      assert s == "/" + rest && s[1..] == rest;
    } else {
      assert s[1..] == p[1..] + "/" + rest;
      assert p[0] in p && forall c :: c in p[1..] ==> c in p;
      SplitAt(p[1..], rest);
      assert p == [p[0]] + p[1..];
      assert ([p[1..]] + Split(rest))[1..] == Split(rest);
    }
  }

  lemma NonBlankAll(parts: seq<string>)
    requires forall p :: p in parts ==> p != ""
    ensures NonBlank(parts) == parts
  {
    if parts != [] {
      assert parts[0] in parts && forall p :: p in parts[1..] ==> p in parts;
      NonBlankAll(parts[1..]);
    }
  }

  // The canonical id is the last segment, if any.
  lemma CanonicalIsLast(mid: string)
    ensures var parts := Segments(Lower(Strip(mid)));
            Canonical(mid) == if Strip(mid) == "" || parts == [] then "" else parts[|parts| - 1]
  {
    var s := Strip(mid);
    StripTrimmed(s);
    var parts := Segments(Lower(s));
    SegmentsNormal(s);
    if s != "" && parts != [] {
      forall p | p in parts ensures '/' !in p && p != "" {}
      SplitJoin(parts);
      NonBlankAll(parts);
      assert parts[|parts| - 1] in parts;
    }
  }

  /** The canonical id of any text is blank or a normal form. */
  lemma CanonicalNormal(mid: string)
    ensures Canonical(mid) == "" || NormalForm(Canonical(mid))
  {
    CanonicalIsLast(mid);
    SegmentsNormal(Strip(mid));
  }

  /** Normalisation is idempotent. */
  lemma CanonicalIdempotent(mid: string)
    ensures Canonical(Canonical(mid)) == Canonical(mid)
  {
    CanonicalNormal(mid);
    if Canonical(mid) != "" { NormalFormFixed(Canonical(mid)); }
  }

  /** A candidate that is itself canonical can only be the id's own canonical
      id: probing a catalogue of canonical ids never picks another one. */
  lemma CandidateNeverDiverts(mid: string, c: string)
    requires c in Candidates(mid) && NormalForm(c)
    ensures c == Canonical(mid)
  {
    var s := Strip(mid);
    StripTrimmed(s);
    var safe := SafeModelId(s);
    var parts := Segments(Lower(s));
    CanonicalIsLast(mid);
    SegmentsNormal(s);
    if c == Lower(s) {
      NormalFormFixed(c);
    } else if c == safe {
      if parts != [] {
        forall p | p in parts ensures '/' !in p {}
        SplitJoin(parts);
      }
      assert '/' !in c;
    }
  }
}
