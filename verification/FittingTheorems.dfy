/** Fitting is exact, and what it returns satisfies the independent validator. */
module FittingTheorems {
  import opened Destination
  import opened Preflight

  // ---------- lengths ----------

  /** The component lengths that fitting starts from. */
  function SanitizedLength(v: Text, limit: int): int {
    Min(|Escape(v)|, limit)
  }

  /** With lengths taken after sanitizing: fitting returns a path exactly when the path
      fits with series and stem cut down to 32 characters; a returned path respects the
      limit; and no truncation ever finds its limit too small. */
  lemma FittingIsExact(digest: Text -> Digest, seriesRaw: Text, middleRaw: Text, stemRaw: Text, extension: Text,
                       policy: Policy)
    requires policy.IsLegal() && IsExtension(extension)
    ensures
      var fitting := Fit(digest, seriesRaw, middleRaw, stemRaw, extension, policy);
      var series := SanitizedLength(seriesRaw, policy.maxComponent);
      var middle := SanitizedLength(middleRaw, policy.maxComponent);
      var stem := SanitizedLength(stemRaw, policy.maxComponent - |extension|);
      && !fitting.BadLimit?
      && (fitting.Fits? <==> Min(32, series) + middle + Min(32, stem) + |extension| + 2 <= policy.maxPath)
      && (fitting.Fits? ==> |fitting.path| <= policy.maxPath)
  {
    hide Escape, Render, Truncate, FitStem, Sanitized;
    var maxStem := policy.maxComponent - |extension|;
    TruncateLength(digest, Escape(seriesRaw), policy.maxComponent);
    TruncateLength(digest, Escape(middleRaw), policy.maxComponent);
    TruncateLength(digest, Escape(stemRaw), maxStem);
    var series := Truncate(digest, Escape(seriesRaw), policy.maxComponent).value;
    var middle := Truncate(digest, Escape(middleRaw), policy.maxComponent).value;
    var stem := Truncate(digest, Escape(stemRaw), maxStem).value;
    if |Render(series, middle, stem, extension)| > policy.maxPath {
      FitStemIsExact(digest, series, middle, stem, extension, policy,
                     Sanitized(seriesRaw, series, middleRaw, middle, stemRaw, stem));
    }
  }

  lemma FitStemIsExact(digest: Text -> Digest, series: Text, middle: Text, stem: Text, extension: Text,
                       policy: Policy, reasons: seq<Reason>)
    requires |Render(series, middle, stem, extension)| > policy.maxPath
    ensures
      var fitting := FitStem(digest, series, middle, stem, extension, policy, reasons);
      && !fitting.BadLimit?
      && (fitting.Fits? <==> Min(32, |series|) + |middle| + Min(32, |stem|) + |extension| + 2 <= policy.maxPath)
      && (fitting.Fits? ==> |fitting.path| <= policy.maxPath)
  {
    hide Render, Truncate, FitSeries;
    var target := Max(32, |stem| - (|Render(series, middle, stem, extension)| - policy.maxPath));
    TruncateLength(digest, stem, target);
    var stem' := Truncate(digest, stem, target).value;
    if |Render(series, middle, stem', extension)| > policy.maxPath {
      FitSeriesIsExact(digest, series, middle, stem', extension, policy, reasons);
      FitSeriesIsExact(digest, series, middle, stem', extension, policy, reasons + [FilenameShortened]);
    }
  }

  lemma FitSeriesIsExact(digest: Text -> Digest, series: Text, middle: Text, stem: Text, extension: Text,
                         policy: Policy, reasons: seq<Reason>)
    requires |Render(series, middle, stem, extension)| > policy.maxPath
    ensures
      var fitting := FitSeries(digest, series, middle, stem, extension, policy, reasons);
      && !fitting.BadLimit?
      && (fitting.Fits? <==> Min(32, |series|) + |middle| + |stem| + |extension| + 2 <= policy.maxPath)
      && (fitting.Fits? ==> |fitting.path| <= policy.maxPath)
  {
    hide Render, Truncate;
    TruncateLength(digest, series, Max(32, |series| - (|Render(series, middle, stem, extension)| - policy.maxPath)));
  }

  /** A season folder of up to ten characters and a three-letter extension always fit. */
  lemma SeasonAlwaysFits(digest: Text -> Digest, seriesRaw: Text, middleRaw: Text, stemRaw: Text, extension: Text,
                         policy: Policy)
    requires policy.IsLegal() && IsExtension(extension) && |extension| == 4 && |Escape(middleRaw)| <= 10
    ensures Fit(digest, seriesRaw, middleRaw, stemRaw, extension, policy).Fits?
  {
    hide Escape, Fit;
    FittingIsExact(digest, seriesRaw, middleRaw, stemRaw, extension, policy);
  }

  // ---------- safe components ----------

  /** A component that the validator accepts, length and normal form aside. */
  ghost predicate Safe(v: Text) {
    && v != []
    && (forall i :: 0 <= i < |v| ==> !IsForbidden(v[i]) && v[i] >= 32)
    && !IsTrailer(v[|v| - 1])
    && !IsReserved(v)
  }

  /** Code points are not negative. */
  predicate IsText(v: Text) {
    forall i | 0 <= i < |v| :: v[i] >= 0
  }

  lemma TokenIsClean(c: int, trailing: bool)
    requires c >= 0
    ensures
      var t := Token(c, trailing);
      && t != []
      && (forall i :: 0 <= i < |t| ==> !IsForbidden(t[i]) && t[i] >= 32)
      && (trailing || !IsTrailer(c) ==> !IsTrailer(t[|t| - 1]))
      && (TILDE in t || t == [c])
  {
  }

  lemma {:induction false} BodyIsClean(v: Text)
    requires IsText(v) && v != []
    ensures
      var b := Body(v);
      && b != []
      && (forall i :: 0 <= i < |b| ==> !IsForbidden(b[i]) && b[i] >= 32)
      && !IsTrailer(b[|b| - 1])
    decreases |v|
  {
    hide IsForbidden, Token;
    TokenIsClean(v[0], AllTrailers(v));
    if |v| > 1 {
      BodyIsClean(v[1..]);
    } else {
      assert Body(v[1..]) == [];
      assert IsTrailer(v[0]) ==> AllTrailers(v);
    }
  }

  lemma {:induction false} BeforeDotIs(v: Text)
    ensures |BeforeDot(v)| <= |v| && BeforeDot(v) == v[..|BeforeDot(v)|]
    ensures DOT !in BeforeDot(v)
    ensures |BeforeDot(v)| < |v| ==> v[|BeforeDot(v)|] == DOT
    decreases |v|
  {
    if v != [] && v[0] != DOT {
      BeforeDotIs(v[1..]);
    }
  }

  /** The part before the first dot is determined by any prefix that reaches it. */
  lemma {:induction false} BeforeDotUnique(v: Text, n: nat)
    requires n <= |v| && DOT !in v[..n] && (n == |v| || v[n] == DOT)
    ensures BeforeDot(v) == v[..n]
    decreases n
  {
    if n > 0 {
      assert v[..n][0] == v[0] && v[1..][..n - 1] == v[..n][1..];
      forall c | c in v[1..][..n - 1] ensures c in v[..n] { }
      BeforeDotUnique(v[1..], n - 1);
      assert [v[0]] + v[1..][..n - 1] == v[..n];
    } else {
      assert v[..n] == [];
    }
  }

  lemma {:induction false} RightStripIs(v: Text)
    ensures |RightStrip(v)| <= |v| && RightStrip(v) == v[..|RightStrip(v)|]
    ensures forall i :: |RightStrip(v)| <= i < |v| ==> IsTrailer(v[i])
    decreases |v|
  {
    if v != [] && IsTrailer(v[|v| - 1]) {
      RightStripIs(v[..|v| - 1]);
    }
  }

  /** A name with a tilde before its first dot is not reserved. */
  lemma TildeIsNotReserved(v: Text, i: nat)
    requires i < |BeforeDot(v)| && BeforeDot(v)[i] == TILDE
    ensures !IsReserved(v)
  {
    var head := BeforeDot(v);
    RightStripIs(head);
    var name := FoldText(RightStrip(head));
    assert name[i] == TILDE;
  }

  /** Up to the first tilde, escaping changes nothing. */
  lemma {:induction false} BodyPlainPrefix(v: Text, n: nat)
    requires IsText(v) && n <= |Body(v)| && TILDE !in Body(v)[..n]
    ensures n <= |v| && Body(v)[..n] == v[..n]
    ensures n < |Body(v)| && Body(v)[n] != TILDE ==> n < |v| && v[n] == Body(v)[n]
    ensures n == |Body(v)| ==> n == |v|
    decreases |v|
  {
    hide IsForbidden, Token;
    if v != [] {
      var t := Token(v[0], AllTrailers(v));
      TokenIsClean(v[0], AllTrailers(v));
      TokenStart(v[0], AllTrailers(v));
      assert Body(v)[0] == t[0];
      if n > 0 {
        assert Body(v)[..n][0] == t[0];
        assert t == [v[0]];
        assert Body(v)[1..] == Body(v[1..]);
        assert Body(v[1..])[..n - 1] == Body(v)[..n][1..];
        forall c | c in Body(v[1..])[..n - 1] ensures c in Body(v)[..n] { }
        BodyPlainPrefix(v[1..], n - 1);
        assert Body(v)[..n] == [v[0]] + Body(v[1..])[..n - 1];
        assert v[..n] == [v[0]] + v[1..][..n - 1];
      } else {
        assert Body(v)[..0] == v[..0];
      }
    }
  }

  lemma TokenStart(c: int, trailing: bool)
    ensures Token(c, trailing)[0] == TILDE || Token(c, trailing) == [c]
  {
  }

  /** Escaping leaves no reserved name: either it is marked, or it was not reserved. */
  lemma EscapeIsNotReserved(v: Text)
    requires IsText(v) && v != []
    ensures !IsReserved(Escape(v))
  {
    hide IsReservedName, IsForbidden, Body;
    BodyStart(v);
    BodyIsClean(v);
    var e := Escape(v);
    var head := BeforeDot(e);
    BeforeDotIs(e);
    if IsReserved(v) {
      assert e[0] == TILDE;
      TildeIsNotReserved(e, 0);
    } else if TILDE in head {
      var i :| 0 <= i < |head| && head[i] == TILDE;
      TildeIsNotReserved(e, i);
    } else {
      var n := |head|;
      BodyPlainPrefix(v, n);
      assert v[..n] == head;
      BeforeDotUnique(v, n);
    }
  }

  lemma EscapeIsSafe(v: Text)
    requires IsText(v)
    ensures Safe(Escape(v))
  {
    if v == [] {
      EmptyIsSafe();
    } else {
      hide IsReserved, IsForbidden, Body;
      EscapeIsNotReserved(v);
      BodyIsClean(v);
      BodyStart(v);
      MarkIsClean();
      var e, b := Escape(v), Body(v);
      forall i | 0 <= i < |e|
        ensures !IsForbidden(e[i]) && e[i] >= 32
      {
        assert e == b || (e == RESERVED_MARK + b && (if i < 3 then e[i] == RESERVED_MARK[i] else e[i] == b[i - 3]));
      }
    }
  }

  lemma MarkIsClean()
    ensures forall i :: 0 <= i < 3 ==> !IsForbidden(RESERVED_MARK[i]) && RESERVED_MARK[i] >= 32
  {
  }

  lemma EmptyIsSafe()
    ensures Safe(Escape([]))
  {
    hide IsReserved, IsForbidden;
    EmptyIsEscaped();
    EscapedEmptyIsClean();
    EscapedEmptyIsNotReserved();
  }

  lemma EmptyIsEscaped()
    ensures Escape([]) == ESCAPED_EMPTY
  {
    hide IsReserved;
    EmptyIsNotReserved();
  }

  lemma EscapedEmptyIsClean()
    ensures forall i :: 0 <= i < 7 ==> !IsForbidden(ESCAPED_EMPTY[i]) && ESCAPED_EMPTY[i] >= 32
  {
  }

  lemma EscapedEmptyIsNotReserved()
    ensures !IsReserved(ESCAPED_EMPTY)
  {
    hide IsReserved, BeforeDot;
    BeforeDotUnique(ESCAPED_EMPTY, 7);
    TildeIsNotReserved(ESCAPED_EMPTY, 0);
  }

  lemma SuffixIsClean(digest: Text -> Digest, v: Text)
    ensures
      var s := Suffix(digest, v);
      && s[0] == TILDE && DOT !in s
      && (forall i :: 0 <= i < |s| ==> !IsForbidden(s[i]) && s[i] >= 32)
      && !IsTrailer(s[|s| - 1])
  {
    var d := digest(v);
    assert IsDigest(d);
    var s := Suffix(digest, v);
    forall i | 0 <= i < |s|
      ensures !IsForbidden(s[i]) && s[i] >= 32 && s[i] != DOT && s[i] != SPACE
    {
      if i >= 2 { assert s[i] == d[i - 2]; }
    }
  }

  /** A safe component stays safe when a suffix with a tilde and no dot replaces its end. */
  lemma TruncateIsSafe(digest: Text -> Digest, v: Text, limit: int)
    requires Safe(v) && Truncate(digest, v, limit).Some?
    ensures Safe(Truncate(digest, v, limit).value)
  {
    hide IsForbidden, IsReservedName, Suffix;
    if |v| > limit {
      var n := limit - SUFFIX_LENGTH;
      var s := Suffix(digest, v);
      SuffixIsClean(digest, v);
      var t := v[..n] + s;
      var head := BeforeDot(v);
      BeforeDotIs(v);
      assert !IsReserved(t) by {
        if |head| < n {
          assert t[..|head|] == head && t[|head|] == v[|head|];
          BeforeDotUnique(t, |head|);
        } else {
          forall k | 0 <= k < |t|
            ensures t[k] != DOT
          {
            if k < n { assert t[k] == head[k]; } else { assert t[k] == s[k - n]; }
          }
          assert t[..|t|] == t;
          BeforeDotUnique(t, |t|);
          assert t[n] == TILDE;
          TildeIsNotReserved(t, n);
        }
      }
      assert t[|t| - 1] == s[|s| - 1];
    }
  }

  /** An extension leaves the part before the first dot as it is. */
  lemma SameBeforeDot(stem: Text, extension: Text)
    requires extension != [] && extension[0] == DOT
    ensures BeforeDot(stem + extension) == BeforeDot(stem)
  {
    var f := stem + extension;
    BeforeDotIs(stem);
    var head := BeforeDot(stem);
    assert f[..|head|] == head;
    assert f[|head|] == DOT;
    BeforeDotUnique(f, |head|);
  }

  lemma ExtensionIsClean(extension: Text)
    requires IsExtension(extension)
    ensures forall i :: 0 <= i < |extension| ==> !IsForbidden(extension[i]) && extension[i] >= 32
    ensures !IsTrailer(extension[|extension| - 1])
  {
  }

  /** A safe stem with an extension is a safe file name. */
  lemma FilenameIsSafe(stem: Text, extension: Text)
    requires Safe(stem) && IsExtension(extension)
    ensures Safe(stem + extension)
  {
    hide IsReservedName, BeforeDot, RightStrip, FoldText, IsForbidden;
    SameBeforeDot(stem, extension);
    ExtensionIsClean(extension);
  }

  // ---------- the validator agrees ----------

  lemma {:induction false} SplitFirst(a: Text, rest: Text)
    requires SLASH !in a
    ensures Split(a + [SLASH] + rest) == [a] + Split(rest)
    decreases |a|
  {
    if a == [] {
      assert (a + [SLASH] + rest)[1..] == rest;
    } else {
      var whole := a + [SLASH] + rest;
      assert whole[1..] == a[1..] + [SLASH] + rest && whole[0] == a[0];
      SplitFirst(a[1..], rest);
      assert Split(whole[1..])[0] == a[1..] && Split(whole[1..])[1..] == Split(rest);
      assert [a[0]] + a[1..] == a;
    }
  }

  lemma {:induction false} SplitLast(a: Text)
    requires SLASH !in a
    ensures Split(a) == [a]
    decreases |a|
  {
    if a != [] {
      SplitLast(a[1..]);
      assert Split(a[1..])[1..] == [] && [a[0]] + a[1..] == a;
    }
  }

  lemma SafeHasNoSlash(v: Text)
    requires Safe(v)
    ensures SLASH !in v && BACKSLASH !in v && COLON !in v
  {
    forall i | 0 <= i < |v|
      ensures v[i] != SLASH && v[i] != BACKSLASH && v[i] != COLON
    {
      assert !IsForbidden(v[i]);
    }
  }

  lemma SafeComponentPasses(part: Text, limits: Limits, isNfc: Text -> bool, code: Code)
    requires Safe(part) && |part| <= limits.maxComponent && code != ComponentNotNfc
    ensures !ComponentHas(part, code, limits, isNfc) && !IsDots(part)
  {
    hide IsReserved;
    forall c | c in part
      ensures !IsForbiddenInComponent(c) && c >= 32
    {
      var i :| 0 <= i < |part| && part[i] == c;
      assert !IsForbidden(part[i]);
    }
  }

  /** Three safe components within the limits earn no code but, perhaps, normal form. */
  lemma SafePathPasses(series: Text, middle: Text, filename: Text, limits: Limits, isNfc: Text -> bool, code: Code)
    requires Safe(series) && Safe(middle) && Safe(filename) && code != ComponentNotNfc
    requires |series| <= limits.maxComponent && |middle| <= limits.maxComponent && |filename| <= limits.maxComponent
    requires |series| + |middle| + |filename| + 2 <= limits.maxPath
    ensures !Deserves(series + [SLASH] + middle + [SLASH] + filename, code, limits, isNfc)
  {
    hide Safe, ComponentHas, Split;
    var value := series + [SLASH] + middle + [SLASH] + filename;
    SafeHasNoSlash(series);
    SafeHasNoSlash(middle);
    SafeHasNoSlash(filename);
    assert value == series + [SLASH] + (middle + [SLASH] + filename);
    SplitFirst(series, middle + [SLASH] + filename);
    SplitFirst(middle, filename);
    SplitLast(filename);
    assert Split(value) == [series, middle, filename];
    SafeComponentPasses(series, limits, isNfc, code);
    SafeComponentPasses(middle, limits, isNfc, code);
    SafeComponentPasses(filename, limits, isNfc, code);
    assert BACKSLASH !in value && COLON !in value;
    assert series != [];
    assert value[0] == series[0];
  }

  /** What fitting returns is three safe components, cut as often as need be. */
  lemma FittedIsSafe(digest: Text -> Digest, seriesRaw: Text, middleRaw: Text, stemRaw: Text, extension: Text,
                     policy: Policy)
      returns (series: Text, middle: Text, stem: Text)
    requires policy.IsLegal() && IsExtension(extension) && IsText(seriesRaw) && IsText(middleRaw) && IsText(stemRaw)
    requires Fit(digest, seriesRaw, middleRaw, stemRaw, extension, policy).Fits?
    ensures Fit(digest, seriesRaw, middleRaw, stemRaw, extension, policy).path == Render(series, middle, stem, extension)
    ensures Safe(series) && Safe(middle) && Safe(stem)
    ensures |series| <= policy.maxComponent && |middle| <= policy.maxComponent && |stem| + |extension| <= policy.maxComponent
  {
    hide Escape, Render, Safe, Truncate, IsText, IsExtension;
    ExtensionLength(extension);
    var maxStem := policy.maxComponent - |extension|;
    EscapeIsSafe(seriesRaw);
    EscapeIsSafe(middleRaw);
    EscapeIsSafe(stemRaw);
    series := Cut(digest, Escape(seriesRaw), policy.maxComponent);
    middle := Cut(digest, Escape(middleRaw), policy.maxComponent);
    stem := Cut(digest, Escape(stemRaw), maxStem);
    var excess := |Render(series, middle, stem, extension)| - policy.maxPath;
    if excess > 0 {
      stem := Cut(digest, stem, Max(32, |stem| - excess));
      excess := |Render(series, middle, stem, extension)| - policy.maxPath;
      if excess > 0 {
        series := Cut(digest, series, Max(32, |series| - excess));
      }
    }
  }

  lemma Cut(digest: Text -> Digest, v: Text, limit: int) returns (cut: Text)
    requires Safe(v) && limit > SUFFIX_LENGTH
    ensures Truncate(digest, v, limit) == Some(cut) && Safe(cut) && |cut| <= limit && |cut| <= |v|
  {
    TruncateLength(digest, v, limit);
    TruncateIsSafe(digest, v, limit);
    cut := Truncate(digest, v, limit).value;
  }

  /** Any path that fitting returns earns no finding code under the same limits, normal
      form aside: the two rule sets, written separately, agree. */
  lemma FittedPassesPreflight(digest: Text -> Digest, seriesRaw: Text, middleRaw: Text, stemRaw: Text, extension: Text, policy: Policy,
                              isNfc: Text -> bool, code: Code)
    requires policy.IsLegal() && IsExtension(extension) && IsText(seriesRaw) && IsText(middleRaw) && IsText(stemRaw)
    requires Fit(digest, seriesRaw, middleRaw, stemRaw, extension, policy).Fits? && code != ComponentNotNfc
    ensures !Deserves(Fit(digest, seriesRaw, middleRaw, stemRaw, extension, policy).path, code,
                      Limits(policy.maxPath, policy.maxComponent), isNfc)
  {
    hide Fit, Safe, Deserves, IsExtension, IsText, Escape, SanitizedLength;
    var series, middle, stem := FittedIsSafe(digest, seriesRaw, middleRaw, stemRaw, extension, policy);
    FittingIsExact(digest, seriesRaw, middleRaw, stemRaw, extension, policy);
    FilenameIsSafe(stem, extension);
    SafePathPasses(series, middle, stem + extension, Limits(policy.maxPath, policy.maxComponent), isNfc, code);
    assert Render(series, middle, stem, extension) == series + [SLASH] + middle + [SLASH] + (stem + extension);
  }
}
