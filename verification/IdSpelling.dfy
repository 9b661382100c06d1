/** How model ids that are spelt differently come to one canonical id. */
module IdSpelling {
  import opened Text
  import opened ModelIds

  // What separates the words of an id: blanks, underscores and dashes.
  predicate Separator(c: char) {
    IsSpace(c) || c == '_' || c == '-'
  }

  predicate Separators(w: string) {
    forall c :: c in w ==> Separator(c)
  }

  // --------------------------------------------------------- runs become dashes

  // Every run of separators becomes one dash.
  function Dashed(s: string): string {
    if s == "" then ""
    else if !Separator(s[0]) then [s[0]] + Dashed(s[1..])
    else if |s| > 1 && Separator(s[1]) then Dashed(s[1..])
    else "-" + Dashed(s[1..])
  }

  lemma BlanksHead(s: string)
    requires s != ""
    ensures Squeeze(Blanks, s) != ""
    ensures (Squeeze(Blanks, s)[0] == '-') <==> Separator(s[0])
  {
  }

  /** Unifying blanks and then dashes unifies all separators at once. */
  lemma {:induction false} SqueezesDash(s: string)
    ensures Squeeze(Dashes, Squeeze(Blanks, s)) == Dashed(s)
  {
    if s != "" {
      SqueezesDash(s[1..]);
      if |s| > 1 { BlanksHead(s[1..]); }
      var t := Squeeze(Blanks, s[1..]);
      if !InRun(Blanks, s[0]) {
        assert Squeeze(Blanks, s) == [s[0]] + t;
        assert ([s[0]] + t)[1..] == t;
      } else if |s| > 1 && InRun(Blanks, s[1]) {
        assert Squeeze(Blanks, s) == t;
      } else {
        assert Squeeze(Blanks, s) == "-" + t;
        assert ("-" + t)[1..] == t;
      }
    }
  }

  lemma {:induction false} DashedPlain(a: string, rest: string)
    requires forall c :: c in a ==> !Separator(c)
    ensures Dashed(a + rest) == a + Dashed(rest)
  {
    if a == "" {
      assert a + rest == rest;
    } else {
      assert (a + rest)[1..] == a[1..] + rest && forall c :: c in a[1..] ==> c in a;
      DashedPlain(a[1..], rest);
      assert a == [a[0]] + a[1..];
    }
  }

  lemma {:induction false} DashedRun(w: string, rest: string)
    requires w != "" && Separators(w) && (rest != "" ==> !Separator(rest[0]))
    ensures Dashed(w + rest) == "-" + Dashed(rest)
  {
    assert w[0] in w;
    if |w| == 1 {
      assert (w + rest)[1..] == rest;
    } else {
      assert (w + rest)[1..] == w[1..] + rest && (w + rest)[1] == w[1] && w[1] in w;
      assert forall c :: c in w[1..] ==> c in w;
      DashedRun(w[1..], rest);
    }
  }

  /** Text that ends and begins with no separator on either side of a run keeps
      its own dashes, with one dash for the run. */
  lemma {:induction false} DashedAround(x: string, w: string, y: string)
    requires w != "" && Separators(w)
    requires (x != "" ==> !Separator(x[|x| - 1])) && (y != "" ==> !Separator(y[0]))
    ensures Dashed(x + w + y) == Dashed(x) + "-" + Dashed(y)
  {
    if x == "" {
      assert x + w + y == w + y;
      DashedRun(w, y);
    } else {
      var s := x + w + y;
      assert s[0] == x[0] && s[1..] == x[1..] + w + y;
      assert x[1..] != "" ==> x[1..][|x| - 2] == x[|x| - 1];
      DashedAround(x[1..], w, y);
      if |x| > 1 { assert s[1] == x[1]; }
    }
  }

  lemma {:induction false} DashedFixed(s: string)
    requires NoDoubleDash(s) && forall c :: c in s ==> !IsSpace(c) && c != '_'
    ensures Dashed(s) == s
  {
    if s != "" {
      var t := s[1..];
      assert s[0] in s && (|s| > 1 ==> s[1] in s);
      assert forall i :: 0 <= i < |t| ==> t[i] == s[i + 1];
      assert forall c :: c in t ==> c in s;
      DashedFixed(t);
      assert s == [s[0]] + t;
      if s[0] == '-' && |s| > 1 { assert s[1] != '-'; }
    }
  }

  // ------------------------------------------------------------ whole spellings

  lemma CleanedIs(s: string)
    ensures Cleaned(s) == Dashed(Slashed(s))
  {
    SqueezesDash(Slashed(s));
  }

  // An id whose separators unify to one normal form, with a dash at its sides
  // or not, has that canonical id.
  lemma FromDashed(mid: string, a: string, l: string, r: string)
    requires NormalForm(a) && l in ["", "-"] && r in ["", "-"]
    requires Dashed(Slashed(Lower(Strip(mid)))) == l + a + r
    ensures Canonical(mid) == a
  {
    var core := l + a + r;
    CanonicalIsLast(mid);
    CleanedIs(Lower(Strip(mid)));
    assert '/' !in core by { assert forall c :: c in a ==> PlainChar(c); }
    SplitNone(core);
    TrimmedSides(core, a, l, r);
    TrimmingsSnoc([], core);
    assert [] + [core] == [core];
    assert Strip(mid) == "" ==> Slashed(Lower(Strip(mid))) == "";
    assert Dashed("") == "";
  }

  // The separators around a normal form become at most one dash each.
  lemma DashedSides(before: string, a: string, after: string)
    requires NormalForm(a) && Separators(before) && Separators(after)
    ensures Dashed(before + a + after) == (if before == "" then "" else "-") + a + (if after == "" then "" else "-")
  {
    BeforeDashed(before, a);
    if after == "" {
      assert before + a + after == before + a;
    } else {
      AfterDashed(before + a, after, a[|a| - 1]) by { NoSeparatorEnds(a); }
    }
  }

  lemma AfterDashed(x: string, after: string, last: char)
    requires x != "" && x[|x| - 1] == last && !Separator(last) && Separators(after) && after != ""
    ensures Dashed(x + after) == Dashed(x) + "-"
  {
    DashedAround(x, after, "");
    assert x + after + "" == x + after && Dashed("") == "";
  }

  lemma BeforeDashed(before: string, a: string)
    requires NormalForm(a) && Separators(before)
    ensures Dashed(before + a) == (if before == "" then "" else "-") + a
  {
    NoSeparatorEnds(a);
    DashedFixed(a) by { assert forall c :: c in a ==> PlainChar(c); }
    if before == "" {
      assert before + a == a;
    } else {
      DashedRun(before, a);
    }
  }

  lemma NoSeparatorEnds(a: string)
    requires NormalForm(a)
    ensures !Separator(a[0]) && !Separator(a[|a| - 1])
  {
    assert a[0] in a && a[|a| - 1] in a;
  }

  lemma LeftDash(rest: string)
    requires rest != "" && rest[0] != '-'
    ensures DashLeft(rest) == DashLeft("-" + rest) == rest
  {
    assert ("-" + rest)[1..] == rest;
  }

  lemma RightDash(front: string)
    requires front != "" && front[|front| - 1] != '-'
    ensures DashRight(front) == DashRight(front + "-") == front
  {
    assert (front + "-")[..|front|] == front;
  }

  lemma TrimmedSides(core: string, a: string, l: string, r: string)
    requires NormalForm(a) && core == l + a + r && l in ["", "-"] && r in ["", "-"]
    ensures DashTrim(core) == a
  {
    assert l + a + r == l + (a + r) && "" + (a + r) == a + r && a + "" == a;
    LeftDash(a + r);
    RightDash(a);
  }

  // ------------------------------------------------ blanks and case at the ends

  lemma {:induction false} StripLeftPast(v: string, rest: string)
    requires rest != "" && !IsSpace(rest[0])
    ensures StripLeft(v + rest) == StripLeft(v) + rest
  {
    if v == "" {
      assert v + rest == rest;
    } else if IsSpace(v[0]) {
      assert (v + rest)[1..] == v[1..] + rest;
      StripLeftPast(v[1..], rest);
    }
  }

  lemma {:induction false} StripRightPast(rest: string, v: string)
    requires rest != "" && !IsSpace(rest[|rest| - 1])
    ensures StripRight(rest + v) == rest + StripRight(v)
  {
    if v == "" {
      assert rest + v == rest;
    } else if IsSpace(v[|v| - 1]) {
      assert (rest + v)[..|rest + v| - 1] == rest + v[..|v| - 1];
      StripRightPast(rest, v[..|v| - 1]);
    }
  }

  /** Stripping takes away blanks, and only blanks, from the two sides. */
  lemma {:induction false} StripBetween(before: string, a: string, after: string)
    requires a != "" && !IsSpace(a[0]) && !IsSpace(a[|a| - 1])
    ensures Strip(before + a + after) == StripLeft(before) + a + StripRight(after)
  {
    var rest := a + after;
    assert before + a + after == before + rest;
    StripLeftPast(before, rest);
    assert StripLeft(before) + rest == (StripLeft(before) + a) + after;
    StripRightPast(StripLeft(before) + a, after);
  }

  lemma {:induction false} LeftOver(s: string)
    ensures forall c :: c in StripLeft(s) ==> c in s
  {
    if s != "" && IsSpace(s[0]) { LeftOver(s[1..]); }
  }

  lemma {:induction false} RightOver(s: string)
    ensures forall c :: c in StripRight(s) ==> c in s
  {
    if s != "" && IsSpace(s[|s| - 1]) { RightOver(s[..|s| - 1]); }
  }

  /** Lower case moves each capital to the letter at its place in the alphabet
      and leaves the rest. */
  lemma LowerLetters(c: char)
    ensures 'A' <= c <= 'Z' ==>
              'a' <= LowerChar(c) <= 'z' && LowerChar(c) as int - 'a' as int == c as int - 'A' as int
    ensures !('A' <= c <= 'Z') ==> LowerChar(c) == c
  {
  }

  /** The blanks: tab, line feed, vertical tab, form feed, carriage return, the
      four separators of ASCII, and the space. */
  lemma BlanksAre(c: char)
    ensures IsSpace(c) <==> c as int in {9, 10, 11, 12, 13, 28, 29, 30, 31, 32}
  {
  }

  lemma LowerSpace(c: char)
    ensures IsSpace(LowerChar(c)) <==> IsSpace(c)
    ensures LowerChar(LowerChar(c)) == LowerChar(c)
  {
  }

  lemma {:induction false} LowerStripLeft(s: string)
    ensures StripLeft(Lower(s)) == Lower(StripLeft(s))
  {
    if s != "" {
      LowerSpace(s[0]);
      if IsSpace(s[0]) {
        assert Lower(s)[1..] == Lower(s[1..]);
        LowerStripLeft(s[1..]);
      }
    }
  }

  lemma {:induction false} LowerStripRight(s: string)
    ensures StripRight(Lower(s)) == Lower(StripRight(s))
  {
    if s != "" {
      LowerSpace(s[|s| - 1]);
      if IsSpace(s[|s| - 1]) {
        assert Lower(s)[..|s| - 1] == Lower(s[..|s| - 1]);
        LowerStripRight(s[..|s| - 1]);
      }
    }
  }

  // ------------------------------------------------------------------ theorems

  /** Case does not matter. */
  lemma {:induction false} CaseIgnored(mid: string)
    ensures Canonical(Lower(mid)) == Canonical(mid)
  {
    LowerStripLeft(mid);
    LowerStripRight(StripLeft(mid));
    var s := Strip(mid);
    assert Strip(Lower(mid)) == Lower(s);
    assert Lower(Lower(s)) == Lower(s) by {
      forall i | 0 <= i < |s| ensures Lower(Lower(s))[i] == Lower(s)[i] { LowerSpace(s[i]); }
    }
    CanonicalIsLast(mid);
    CanonicalIsLast(Lower(mid));
  }

  lemma PlainText(s: string)
    requires forall c :: c in s ==> PlainChar(c) || Separator(c)
    ensures Lower(s) == s && Slashed(s) == s
  {
    assert forall i :: 0 <= i < |s| ==> s[i] in s;
  }

  /** Whatever blanks, underscores and dashes stand between two words, the
      canonical id has one dash there. */
  lemma {:induction false} WordsJoined(a: string, w: string, b: string)
    requires NormalForm(a) && NormalForm(b) && w != "" && Separators(w)
    ensures Canonical(a + w + b) == a + "-" + b
  {
    var mid, id := a + w + b, a + "-" + b;
    PlainWords(a, w, b);
    DashedWords(a, w, b);
    JoinedNormal(a, b);
    assert "" + id + "" == id;
    FromDashed(mid, id, "", "");
  }

  lemma PlainWords(a: string, w: string, b: string)
    requires NormalForm(a) && NormalForm(b) && Separators(w)
    ensures Slashed(Lower(Strip(a + w + b))) == a + w + b
  {
    var mid := a + w + b;
    NoSeparatorEnds(a);
    NoSeparatorEnds(b);
    assert mid[0] == a[0] && mid[|mid| - 1] == b[|b| - 1];
    StripTrimmed(mid);
    PlainText(mid);
  }

  lemma DashedWords(a: string, w: string, b: string)
    requires NormalForm(a) && NormalForm(b) && w != "" && Separators(w)
    ensures Dashed(a + w + b) == a + "-" + b
  {
    NoSeparatorEnds(a);
    NoSeparatorEnds(b);
    DashedAround(a, w, b);
    DashedNormal(a);
    DashedNormal(b);
  }

  lemma DashedNormal(a: string)
    requires NormalForm(a)
    ensures Dashed(a) == a && '/' !in a
  {
    assert forall c :: c in a ==> PlainChar(c);
    DashedFixed(a);
  }

  lemma JoinedNormal(a: string, b: string)
    requires NormalForm(a) && NormalForm(b)
    ensures NormalForm(a + "-" + b)
  {
    var id := a + "-" + b;
    forall i | 0 <= i < |id| - 1 ensures !(id[i] == '-' && id[i + 1] == '-') {
      if i < |a| - 1 {
        assert id[i] == a[i] && id[i + 1] == a[i + 1];
      } else if i > |a| {
        assert id[i] == b[i - |a| - 1] && id[i + 1] == b[i - |a|];
      }
    }
    assert id[|id| - 1] == b[|b| - 1];
  }

  /** Blanks, underscores and dashes around an id are dropped. */
  lemma {:induction false} SidesDropped(before: string, a: string, after: string)
    requires NormalForm(a) && Separators(before) && Separators(after)
    ensures Canonical(before + a + after) == a
  {
    NoSeparatorEnds(a);
    StripBetween(before, a, after);
    LeftOver(before);
    RightOver(after);
    var l, r := StripLeft(before), StripRight(after);
    assert forall c :: c in l + a + r ==> c in l || c in a || c in r;
    PlainText(l + a + r);
    DashedSides(l, a, r);
    FromDashed(before + a + after, a, if l == "" then "" else "-", if r == "" then "" else "-");
  }

  lemma {:induction false} DashedSlash(x: string, y: string)
    ensures Dashed(x + "/" + y) == Dashed(x) + "/" + Dashed(y)
  {
    var s := x + "/" + y;
    if x == "" {
      assert s == "/" + y && s[1..] == y;
    } else {
      assert s[1..] == x[1..] + "/" + y && s[0] == x[0];
      assert |s| > 1 && s[1] == if |x| > 1 then x[1] else '/';
      DashedSlash(x[1..], y);
      if |x| == 1 { assert x[1..] == ""; }
    }
  }

  lemma {:induction false} SplitLast(x: string, y: string)
    requires '/' !in y
    ensures Split(x + "/" + y) == Split(x) + [y]
  {
    var s := x + "/" + y;
    if x == "" {
      assert s == "/" + y && s[1..] == y;
      SplitNone(y);
    } else {
      assert s[1..] == x[1..] + "/" + y && s[0] == x[0];
      SplitLast(x[1..], y);
      assert (Split(x[1..]) + [y])[1..] == Split(x[1..])[1..] + [y];
    }
  }

  lemma {:induction false} TrimmingsSnoc(parts: seq<string>, p: string)
    ensures Trimmings(parts + [p]) == Trimmings(parts) + (if DashTrim(p) != "" then [DashTrim(p)] else [])
  {
    if parts == [] {
      assert parts + [p] == [p] && [p][1..] == [];
    } else {
      assert (parts + [p])[1..] == parts[1..] + [p];
      TrimmingsSnoc(parts[1..], p);
    }
  }

  lemma DashedLast(lower: string, front: string, a: string)
    requires NormalForm(a) && Slashed(lower) == front + "/" + a
    ensures Cleaned(lower) == Dashed(front) + "/" + a
  {
    CleanedIs(lower);
    DashedSlash(front, a);
    DashedNormal(a);
  }

  lemma LastTrimmed(front: string, a: string)
    requires NormalForm(a)
    ensures Trimmings(Split(front + "/" + a)) == Trimmings(Split(front)) + [a]
  {
    DashedNormal(a);
    SplitLast(front, a);
    TrimmingsSnoc(Split(front), a);
    assert "" + a + "" == a;
    TrimmedSides(a, a, "", "");
  }

  lemma LastSegments(lower: string, front: string, a: string)
    requires NormalForm(a) && Slashed(lower) == front + "/" + a
    ensures Segments(lower) != [] && Segments(lower)[|Segments(lower)| - 1] == a
  {
    DashedLast(lower, front, a);
    LastTrimmed(Dashed(front), a);
  }

  // The part behind the last slash decides, whatever stands in front of it.
  lemma LastPart(mid: string, front: string, a: string)
    requires NormalForm(a) && Slashed(Lower(Strip(mid))) == front + "/" + a
    ensures Canonical(mid) == a
  {
    CanonicalIsLast(mid);
    LastSegments(Lower(Strip(mid)), front, a);
    assert |Slashed(Lower(Strip(mid)))| == |Strip(mid)|;
  }

  /** A vendor prefix is dropped, with a slash or a backslash behind it, however
      it is spelt and however deep it is. */
  lemma {:induction false} VendorDropped(vendor: string, slash: char, a: string)
    requires NormalForm(a) && (slash == '/' || slash == '\\')
    ensures Canonical(vendor + [slash] + a) == a
  {
    var mid, v := vendor + [slash] + a, StripLeft(vendor);
    StripVendor(vendor, slash, a);
    SlashedVendor(v, slash, a);
    LastPart(mid, Slashed(Lower(v)), a);
  }

  lemma StripVendor(vendor: string, slash: char, a: string)
    requires NormalForm(a) && (slash == '/' || slash == '\\')
    ensures Strip(vendor + [slash] + a) == StripLeft(vendor) + [slash] + a
  {
    NoSeparatorEnds(a);
    var tail := [slash] + a;
    assert tail[|tail| - 1] == a[|a| - 1];
    Regroup(vendor, slash, a);
    Regroup(StripLeft(vendor), slash, a);
    StripBetween(vendor, tail, "");
  }

  lemma Regroup(x: string, c: char, y: string)
    ensures x + [c] + y == x + ([c] + y) + ""
  {
  }

  lemma SlashedVendor(v: string, slash: char, a: string)
    requires NormalForm(a) && (slash == '/' || slash == '\\')
    ensures Slashed(Lower(v + [slash] + a)) == Slashed(Lower(v)) + "/" + a
  {
    assert forall i :: 0 <= i < |a| ==> a[i] in a && PlainChar(a[i]);
  }

  /** A trailing slash is dropped. */
  lemma {:induction false} TrailingSlashDropped(a: string)
    requires NormalForm(a)
    ensures Canonical(a + "/") == a
  {
    TrailingParts(a);
    StripTrailing(a);
    CanonicalIsLast(a + "/");
    CleanedIs(a + "/");
    TrimmedTwo(a);
  }

  lemma TrimmedTwo(a: string)
    requires NormalForm(a)
    ensures Trimmings([a, ""]) == [a]
  {
    assert "" + a + "" == a;
    TrimmedSides(a, a, "", "");
    TrimmingsSnoc([], a);
    TrimmingsSnoc([a], "");
    assert [] + [a] == [a] && [a] + [""] == [a, ""];
  }

  lemma StripTrailing(a: string)
    requires NormalForm(a)
    ensures Strip(a + "/") == a + "/" && Lower(a + "/") == a + "/" && Slashed(a + "/") == a + "/"
  {
    NoSeparatorEnds(a);
    StripTrimmed(a + "/");
    assert forall i :: 0 <= i < |a| ==> a[i] in a && PlainChar(a[i]);
  }

  lemma TrailingParts(a: string)
    requires NormalForm(a)
    ensures Split(Dashed(a + "/")) == [a] + [""]
  {
    assert a + "/" == a + "/" + "";
    DashedSlash(a, "");
    DashedNormal(a);
    SplitLast(a, "");
    SplitNone(a);
  }
}
