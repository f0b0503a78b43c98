/** What a fitted path is: which text each of its three parts comes from, how far it was cut,
    and what the reasons say. */
module FittedPath {
  import opened Destination
  import opened Preflight
  import opened FittingTheorems

  // ---------- escaping what needs it, and nothing else ----------

  lemma {:induction false} PlainBody(v: Text)
    requires forall i :: 0 <= i < |v| ==> !IsForbidden(v[i]) && v[i] >= 32 && v[i] != TILDE
    requires v != [] ==> !IsTrailer(v[|v| - 1])
    ensures Body(v) == v
    decreases |v|
  {
    if v != [] {
      assert !AllTrailers(v);
      PlainBody(v[1..]);
    }
  }

  /** Escaping never shortens a text, and lengthens one that has a tilde. */
  lemma {:induction false} BodyLength(v: Text)
    ensures |Body(v)| >= |v| && (TILDE in v ==> |Body(v)| > |v|)
    decreases |v|
  {
    hide IsForbidden;
    if v != [] {
      BodyLength(v[1..]);
      TokenStart(v[0], AllTrailers(v));
    }
  }

  /** A name is left as it is exactly when it is safe and has no tilde. */
  lemma EscapesOnlyWhatItMust(v: Text)
    requires IsText(v)
    ensures Escape(v) == v <==> Safe(v) && TILDE !in v
  {
    hide IsReserved, IsForbidden;
    BodyLength(v);
    if Safe(v) && TILDE !in v {
      PlainBody(v);
    }
    if Escape(v) == v {
      EscapeIsSafe(v);
      assert |Escape(v)| >= |Body(v)|;
    }
  }

  // ---------- decoding what nothing escaped ----------

  const HEX: string := "0123456789abcdef"
  const HEX_CAPITALS: string := "0123456789ABCDEF"

  /** Digits are read in either case, and nothing else is a digit. */
  lemma HexExactly(c: int)
    ensures forall k :: 0 <= k < 16 ==> (HexValue(c) == k <==> c == HEX[k] as int || c == HEX_CAPITALS[k] as int)
    ensures HexValue(c) == -1 <==> forall k :: 0 <= k < 16 ==> c != HEX[k] as int && c != HEX_CAPITALS[k] as int
  {
    DigitsAre(HEX, HEX_CAPITALS);
    var k := HexValue(c);
    if k >= 0 {
      assert 0 <= k < 16 && (c == HEX[k] as int || c == HEX_CAPITALS[k] as int);
    }
  }

  lemma DigitsAre(small: string, capital: string)
    requires small == HEX && capital == HEX_CAPITALS
    ensures forall k :: 0 <= k < 16 ==> small[k] as int == (if k < 10 then 48 + k else 87 + k)
    ensures forall k :: 0 <= k < 16 ==> capital[k] as int == (if k < 10 then 48 + k else 55 + k)
  {
    assert small[0] == '0' && small[1] == '1' && small[2] == '2' && small[3] == '3' && small[4] == '4' && small[5] == '5'
      && small[6] == '6' && small[7] == '7' && small[8] == '8' && small[9] == '9' && small[10] == 'a' && small[11] == 'b'
      && small[12] == 'c' && small[13] == 'd' && small[14] == 'e' && small[15] == 'f';
    assert capital[0] == '0' && capital[1] == '1' && capital[2] == '2' && capital[3] == '3' && capital[4] == '4'
      && capital[5] == '5' && capital[6] == '6' && capital[7] == '7' && capital[8] == '8' && capital[9] == '9'
      && capital[10] == 'A' && capital[11] == 'B' && capital[12] == 'C' && capital[13] == 'D' && capital[14] == 'E'
      && capital[15] == 'F';
  }

  lemma PlainIsKept(v: Text)
    requires v != [] && v[0] != TILDE
    ensures DecodeBody(v) == [v[0]] + DecodeBody(v[1..])
  {
  }

  lemma DoubledIsOne(rest: Text)
    ensures DecodeBody([TILDE, TILDE] + rest) == [TILDE] + DecodeBody(rest)
  {
    assert ([TILDE, TILDE] + rest)[2..] == rest;
  }

  /** A tilde before four digits, in either case. */
  lemma EscapeIsRead(digits: Text, rest: Text)
    requires |digits| == 4 && forall i :: 0 <= i < 4 ==> HexValue(digits[i]) >= 0
    ensures DecodeBody([TILDE] + digits + rest)
            == [HexValue(digits[0]) * 4096 + HexValue(digits[1]) * 256 + HexValue(digits[2]) * 16 + HexValue(digits[3])]
               + DecodeBody(rest)
  {
    hide HexValue;
    var escaped := [TILDE] + digits + rest;
    assert escaped[5..] == rest && escaped[1..5] == digits && escaped[1] == digits[0];
    DigitsAreNoTildes(digits[0]);
  }

  /** Any other tilde stands for itself. */
  lemma LoneTildeIsKept(v: Text)
    requires v != [] && v[0] == TILDE && (|v| == 1 || v[1] != TILDE)
    requires |v| < 5 || exists i :: 1 <= i < 5 && HexValue(v[i]) < 0
    ensures DecodeBody(v) == [TILDE] + DecodeBody(v[1..])
  {
    hide HexValue;
    if |v| >= 5 {
      var i :| 1 <= i < 5 && HexValue(v[i]) < 0;
      assert v[1..5][i - 1] == v[i];
    }
  }

  lemma DigitsAreNoTildes(c: int)
    ensures HexValue(c) >= 0 ==> c != TILDE
  {
  }

  // ---------- what fitting is asked to respect ----------

  /** Limits from 80 and from 32 to 255, and extensions of one to twelve small letters or digits. */
  lemma LegalExactly(policy: Policy, extension: string)
    ensures policy.IsLegal() <==> !(policy.maxPath < 80 || policy.maxComponent < 32 || policy.maxComponent > 255)
    ensures IsExtension(seq(|extension|, i requires 0 <= i < |extension| => extension[i] as int)) <==>
            && |extension| in {2, 3, 4, 5, 6, 7, 8, 9, 10, 11, 12, 13} && extension[0] == '.'
            && forall c :: c in extension[1..] ==> 'a' <= c <= 'z' || '0' <= c <= '9'
  {
    var codes := seq(|extension|, i requires 0 <= i < |extension| => extension[i] as int);
    if 2 <= |extension| <= 13 {
      assert codes[0] == extension[0] as int;
      forall i | 1 <= i < |extension|
        ensures extension[i] in extension[1..] && codes[i] == extension[i] as int
      {
        assert extension[1..][i - 1] == extension[i];
      }
    }
  }

  // ---------- the parts ----------

  /** The text itself, or the beginning of it with a mark and the digest of that very text. */
  ghost predicate IsCut(digest: Text -> Digest, original: Text, length: int, cut: Text) {
    if |original| <= length then cut == original
    else
      && |cut| == length && length >= SUFFIX_LENGTH
      && cut[..length - SUFFIX_LENGTH] == original[..length - SUFFIX_LENGTH]
      && cut[length - SUFFIX_LENGTH..] == [TILDE, 'h' as int] + digest(original)
  }

  lemma TruncateCuts(digest: Text -> Digest, v: Text, limit: int) returns (cut: Text)
    requires Safe(v) && limit > SUFFIX_LENGTH
    ensures Truncate(digest, v, limit) == Some(cut) && IsCut(digest, v, limit, cut)
    ensures Safe(cut) && |cut| == Min(|v|, limit)
  {
    hide Safe;
    TruncateLength(digest, v, limit);
    TruncateIsSafe(digest, v, limit);
    cut := Truncate(digest, v, limit).value;
  }

  /** Where the three parts come from. Each is cut down to the limit for a component; then the
      file name gives way by what is too much, but not below 32 characters without its
      extension, and then the series in the same way. */
  datatype Parts = Parts(series0: Text, stem0: Text, series: Text, middle: Text, stem: Text) {
    ghost predicate AreOf(digest: Text -> Digest, seriesRaw: Text, middleRaw: Text, stemRaw: Text, extension: Text,
                          policy: Policy)
    {
      var around := |middle| + |extension| + 2;
      && IsCut(digest, Escape(seriesRaw), policy.maxComponent, series0)
      && IsCut(digest, Escape(middleRaw), policy.maxComponent, middle)
      && IsCut(digest, Escape(stemRaw), policy.maxComponent - |extension|, stem0)
      && IsCut(digest, stem0, Max(32, policy.maxPath - around - |series0|), stem)
      && IsCut(digest, series0, Max(32, policy.maxPath - around - |stem|), series)
    }

    ghost predicate AreSafe() {
      Safe(series) && Safe(middle) && Safe(stem)
    }

    /** Which reasons are given: a part differs from the text it was made from, or it was cut
        once more for the length of the path. */
    ghost predicate Explain(seriesRaw: Text, middleRaw: Text, stemRaw: Text, reasons: seq<Reason>) {
      && (SeriesSanitized in reasons <==> series0 != seriesRaw)
      && (MiddleSanitized in reasons <==> middle != middleRaw)
      && (FilenameSanitized in reasons <==> stem0 != stemRaw)
      && (FilenameShortened in reasons <==> |stem| < |stem0|)
      && (SeriesShortened in reasons <==> |series| < |series0|)
      && forall i, j :: 0 <= i < j < |reasons| ==> reasons[i] != reasons[j]
    }
  }

  function ReasonsOf(fitting: Fitting): seq<Reason> {
    match fitting
    case Fits(_, reasons) => reasons
    case TooLong(reasons) => reasons
    case BadLimit => []
  }

  /** A fitting, with the parts that it comes from. */
  ghost predicate FitsAs(digest: Text -> Digest, parts: Parts, seriesRaw: Text, middleRaw: Text, stemRaw: Text,
                         extension: Text, policy: Policy, fitting: Fitting)
  {
    var length := |parts.series| + |parts.middle| + |parts.stem| + |extension| + 2;
    && parts.AreOf(digest, seriesRaw, middleRaw, stemRaw, extension, policy)
    && parts.AreSafe()
    && parts.Explain(seriesRaw, middleRaw, stemRaw, ReasonsOf(fitting))
    && (CannotBeSatisfied in ReasonsOf(fitting) <==> fitting.TooLong?)
    && (if length <= policy.maxPath
        then fitting.Fits? && Split(fitting.path) == [parts.series, parts.middle, parts.stem + extension]
        else fitting.TooLong?)
  }

  lemma ThreeParts(parts: Parts, extension: Text)
    requires parts.AreSafe() && IsExtension(extension)
    ensures Split(Render(parts.series, parts.middle, parts.stem, extension)) == [parts.series, parts.middle, parts.stem + extension]
  {
    hide Safe, Split;
    SafeHasNoSlash(parts.series);
    SafeHasNoSlash(parts.middle);
    FilenameIsSafe(parts.stem, extension);
    var filename := parts.stem + extension;
    SafeHasNoSlash(filename);
    SplitFirst(parts.series, parts.middle + [SLASH] + filename);
    SplitFirst(parts.middle, filename);
    SplitLast(filename);
    assert Render(parts.series, parts.middle, parts.stem, extension)
           == parts.series + [SLASH] + (parts.middle + [SLASH] + filename);
  }

  function Plus(reasons: seq<Reason>, reason: Reason, given: bool): seq<Reason> {
    if given then reasons + [reason] else reasons
  }

  function ReasonsFor(parts: Parts, seriesRaw: Text, middleRaw: Text, stemRaw: Text): seq<Reason> {
    Plus(Plus(Sanitized(seriesRaw, parts.series0, middleRaw, parts.middle, stemRaw, parts.stem0),
              FilenameShortened, parts.stem != parts.stem0),
         SeriesShortened, parts.series != parts.series0)
  }

  /** The reasons by what each of them stands for, in order. */
  function Given(series: bool, middle: bool, stem: bool, shortStem: bool, shortSeries: bool): seq<Reason> {
    Plus(Plus((if series then [SeriesSanitized] else []) + (if middle then [MiddleSanitized] else [])
              + (if stem then [FilenameSanitized] else []),
              FilenameShortened, shortStem),
         SeriesShortened, shortSeries)
  }

  ghost predicate Lists(reasons: seq<Reason>, series: bool, middle: bool, stem: bool, shortStem: bool, shortSeries: bool,
                        final: bool)
  {
    && (SeriesSanitized in reasons <==> series) && (MiddleSanitized in reasons <==> middle)
    && (FilenameSanitized in reasons <==> stem) && (FilenameShortened in reasons <==> shortStem)
    && (SeriesShortened in reasons <==> shortSeries) && (CannotBeSatisfied in reasons <==> final)
    && (forall i, j :: 0 <= i < j < |reasons| ==> reasons[i] != reasons[j])
  }

  lemma SanitizedLists(series: bool, middle: bool, stem: bool)
    ensures Lists((if series then [SeriesSanitized] else []) + (if middle then [MiddleSanitized] else [])
                  + (if stem then [FilenameSanitized] else []), series, middle, stem, false, false, false)
  {
  }

  lemma GivenLists(series: bool, middle: bool, stem: bool, shortStem: bool, shortSeries: bool)
    ensures
      var reasons := Given(series, middle, stem, shortStem, shortSeries);
      && Lists(reasons, series, middle, stem, shortStem, shortSeries, false)
      && Lists(reasons + [CannotBeSatisfied], series, middle, stem, shortStem, shortSeries, true)
  {
    hide Plus;
    var sanitized := (if series then [SeriesSanitized] else []) + (if middle then [MiddleSanitized] else [])
                     + (if stem then [FilenameSanitized] else []);
    SanitizedLists(series, middle, stem);
    One(sanitized, FilenameShortened, shortStem);
    One(Plus(sanitized, FilenameShortened, shortStem), SeriesShortened, shortSeries);
    var reasons := Given(series, middle, stem, shortStem, shortSeries);
    One(reasons, CannotBeSatisfied, true);
    PlusGiven(reasons);
  }

  lemma ReasonsExplain(parts: Parts, seriesRaw: Text, middleRaw: Text, stemRaw: Text)
    requires parts.stem == parts.stem0 || |parts.stem| < |parts.stem0|
    requires parts.series == parts.series0 || |parts.series| < |parts.series0|
    ensures
      var reasons := ReasonsFor(parts, seriesRaw, middleRaw, stemRaw);
      && CannotBeSatisfied !in reasons
      && parts.Explain(seriesRaw, middleRaw, stemRaw, reasons)
      && parts.Explain(seriesRaw, middleRaw, stemRaw, reasons + [CannotBeSatisfied])
  {
    hide Plus;
    var series, middle, stem := parts.series0 != seriesRaw, parts.middle != middleRaw, parts.stem0 != stemRaw;
    var shortStem, shortSeries := parts.stem != parts.stem0, parts.series != parts.series0;
    GivenLists(series, middle, stem, shortStem, shortSeries);
    assert ReasonsFor(parts, seriesRaw, middleRaw, stemRaw) == Given(series, middle, stem, shortStem, shortSeries);
    hide Given, ReasonsFor;
  }

  lemma PlusGiven(reasons: seq<Reason>)
    ensures Plus(reasons, CannotBeSatisfied, true) == reasons + [CannotBeSatisfied]
  {
  }

  /** One reason more, if there is one. */
  lemma One(reasons: seq<Reason>, reason: Reason, given: bool)
    requires reason !in reasons && forall i, j :: 0 <= i < j < |reasons| ==> reasons[i] != reasons[j]
    ensures
      var more := Plus(reasons, reason, given);
      && (forall r :: r in more <==> r in reasons || (given && r == reason))
      && (forall i, j :: 0 <= i < j < |more| ==> more[i] != more[j])
  {
  }

  /** The two limits of the second cuts do nothing where the path is short enough. */
  lemma FitIs(digest: Text -> Digest, parts: Parts, seriesRaw: Text, middleRaw: Text, stemRaw: Text, extension: Text,
              policy: Policy)
    requires Truncate(digest, Escape(seriesRaw), policy.maxComponent) == Some(parts.series0)
    requires Truncate(digest, Escape(middleRaw), policy.maxComponent) == Some(parts.middle)
    requires Truncate(digest, Escape(stemRaw), policy.maxComponent - |extension|) == Some(parts.stem0)
    requires
      var room := policy.maxPath - |parts.middle| - |extension| - 2;
      && Truncate(digest, parts.stem0, Max(32, room - |parts.series0|)) == Some(parts.stem)
      && Truncate(digest, parts.series0, Max(32, room - |parts.stem|)) == Some(parts.series)
    ensures
      var path := Render(parts.series, parts.middle, parts.stem, extension);
      var reasons := ReasonsFor(parts, seriesRaw, middleRaw, stemRaw);
      Fit(digest, seriesRaw, middleRaw, stemRaw, extension, policy)
      == if |path| <= policy.maxPath then Fits(path, reasons) else TooLong(reasons + [CannotBeSatisfied])
  {
    hide Escape, Sanitized, Suffix, Render;
  }

  /** A path, or the refusal of one, comes from three parts as described. */
  lemma FittedFrom(digest: Text -> Digest, seriesRaw: Text, middleRaw: Text, stemRaw: Text, extension: Text,
                   policy: Policy)
      returns (parts: Parts)
    requires policy.IsLegal() && IsExtension(extension) && IsText(seriesRaw) && IsText(middleRaw) && IsText(stemRaw)
    ensures FitsAs(digest, parts, seriesRaw, middleRaw, stemRaw, extension, policy,
                   Fit(digest, seriesRaw, middleRaw, stemRaw, extension, policy))
  {
    hide Escape, Safe, Truncate, IsText, IsExtension, IsCut, Render, Split, Fit, ReasonsFor, Parts.Explain;
    ExtensionLength(extension);
    EscapeIsSafe(seriesRaw);
    EscapeIsSafe(middleRaw);
    EscapeIsSafe(stemRaw);
    var series0 := TruncateCuts(digest, Escape(seriesRaw), policy.maxComponent);
    var middle := TruncateCuts(digest, Escape(middleRaw), policy.maxComponent);
    var stem0 := TruncateCuts(digest, Escape(stemRaw), policy.maxComponent - |extension|);
    var around := |middle| + |extension| + 2;
    var stem := TruncateCuts(digest, stem0, Max(32, policy.maxPath - around - |series0|));
    var series := TruncateCuts(digest, series0, Max(32, policy.maxPath - around - |stem|));
    parts := Parts(series0, stem0, series, middle, stem);
    ThreeParts(parts, extension);
    FitIs(digest, parts, seriesRaw, middleRaw, stemRaw, extension, policy);
    SameLength(digest, stem0, Max(32, policy.maxPath - around - |series0|), stem);
    SameLength(digest, series0, Max(32, policy.maxPath - around - |stem|), series);
    ReasonsExplain(parts, seriesRaw, middleRaw, stemRaw);
    assert CannotBeSatisfied in ReasonsFor(parts, seriesRaw, middleRaw, stemRaw) + [CannotBeSatisfied];
  }

  lemma SameLength(digest: Text -> Digest, v: Text, limit: int, cut: Text)
    requires IsCut(digest, v, limit, cut) && |cut| == Min(|v|, limit)
    ensures cut == v || |cut| < |v|
  {
  }

  /** Where nothing needs to be cut, decoding the three parts gives back the three texts. */
  lemma UncutDecodes(digest: Text -> Digest, seriesRaw: Text, middleRaw: Text, stemRaw: Text, extension: Text,
                     policy: Policy)
    requires policy.IsLegal() && IsExtension(extension) && IsText(seriesRaw) && IsText(middleRaw) && IsText(stemRaw)
    requires seriesRaw != [] && middleRaw != [] && stemRaw != []
    requires |Escape(seriesRaw)| <= policy.maxComponent && |Escape(middleRaw)| <= policy.maxComponent
    requires |Escape(stemRaw)| + |extension| <= policy.maxComponent
    requires |Escape(seriesRaw)| + |Escape(middleRaw)| + |Escape(stemRaw)| + |extension| + 2 <= policy.maxPath
    ensures
      var fitting := Fit(digest, seriesRaw, middleRaw, stemRaw, extension, policy);
      && fitting.Fits?
      && |Split(fitting.path)| == 3
      && Decode(Split(fitting.path)[0]) == seriesRaw
      && Decode(Split(fitting.path)[1]) == middleRaw
      && exists stem :: Split(fitting.path)[2] == stem + extension && Decode(stem) == stemRaw
  {
    hide Escape, Decode, Split, Fit, Safe, IsText, IsExtension;
    var parts := FittedFrom(digest, seriesRaw, middleRaw, stemRaw, extension, policy);
    EscapeRoundTrip(seriesRaw);
    EscapeRoundTrip(middleRaw);
    EscapeRoundTrip(stemRaw);
    assert parts.series0 == Escape(seriesRaw) && parts.middle == Escape(middleRaw) && parts.stem0 == Escape(stemRaw);
    assert parts.stem == parts.stem0;
  }
}
