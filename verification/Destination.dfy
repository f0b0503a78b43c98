/** Path components: escaping, truncating with a digest, and fitting a three-part path into
    the length limits of a policy. Text is a sequence of code points, already in
    normalization form C. */
module Destination {

  type Text = seq<int>

  const TILDE := '~' as int
  const SPACE := ' ' as int
  const DOT := '.' as int
  const SLASH := '/' as int
  const COLON := ':' as int
  const BACKSLASH := '\\' as int

  const ESCAPED_EMPTY: Text := [TILDE, 'E' as int, 'M' as int, 'P' as int, 'T' as int, 'Y' as int, TILDE]
  const RESERVED_MARK: Text := [TILDE, 'R' as int, TILDE]

  /** The characters `< > : " / \ | ? *`. */
  predicate IsForbidden(c: int) {
    c in {'<' as int, '>' as int, COLON, '"' as int, SLASH, BACKSLASH, '|' as int, '?' as int, '*' as int}
  }

  lemma ForbiddenIsAscii(c: int)
    requires IsForbidden(c)
    ensures 0 <= c < 128
  {
  }

  predicate IsTrailer(c: int) {
    c == SPACE || c == DOT
  }

  function RightStrip(v: Text): Text {
    if v != [] && IsTrailer(v[|v| - 1]) then RightStrip(v[..|v| - 1]) else v
  }

  function BeforeDot(v: Text): Text {
    if v == [] || v[0] == DOT then [] else [v[0]] + BeforeDot(v[1..])
  }

  /** Case folding, as far as the reserved names can tell: no character outside ASCII
      folds into one of their letters. */
  function Fold(c: int): int {
    if 'A' as int <= c <= 'Z' as int then c + 32 else c
  }

  function FoldText(v: Text): Text {
    seq(|v|, i requires 0 <= i < |v| => Fold(v[i]))
  }

  /** con, prn, aux, nul, com1 to com9 and lpt1 to lpt9. */
  predicate IsReservedName(v: Text) {
    || v == ['c' as int, 'o' as int, 'n' as int]
    || v == ['p' as int, 'r' as int, 'n' as int]
    || v == ['a' as int, 'u' as int, 'x' as int]
    || v == ['n' as int, 'u' as int, 'l' as int]
    || (|v| == 4 && '1' as int <= v[3] <= '9' as int
        && (v[..3] == ['c' as int, 'o' as int, 'm' as int] || v[..3] == ['l' as int, 'p' as int, 't' as int]))
  }

  predicate IsReserved(v: Text) {
    IsReservedName(FoldText(RightStrip(BeforeDot(v))))
  }

  // ---------- escaping ----------

  function UpperHexDigit(n: int): int
    requires 0 <= n < 16
  {
    if n < 10 then '0' as int + n else 'A' as int + (n - 10)
  }

  function Hex4(n: int): Text
    requires 0 <= n < 0x10000
  {
    var low3 := n % 0x1000;
    var low2 := low3 % 0x100;
    [UpperHexDigit(n / 0x1000), UpperHexDigit(low3 / 0x100), UpperHexDigit(low2 / 0x10), UpperHexDigit(low2 % 0x10)]
  }

  predicate IsEscaped(c: int, trailing: bool) {
    IsForbidden(c) || 0 <= c < 32 || (trailing && IsTrailer(c))
  }

  function Token(c: int, trailing: bool): Text {
    if c == TILDE then [TILDE, TILDE]
    else if IsEscaped(c, trailing) then [TILDE] + Hex4(c)
    else [c]
  }

  /** Every character is a space or a dot: the position lies in the trailing run. */
  predicate AllTrailers(v: Text) {
    forall i | 0 <= i < |v| :: IsTrailer(v[i])
  }

  function Body(v: Text): Text {
    if v == [] then [] else Token(v[0], AllTrailers(v)) + Body(v[1..])
  }

  function Escape(v: Text): Text {
    var escaped := if Body(v) == [] then ESCAPED_EMPTY else Body(v);
    if IsReserved(v) then RESERVED_MARK + escaped else escaped
  }

  /** `_escape_component` */
  method EscapeComponent(v: Text) returns (result: Text)
    ensures result == Escape(v)
  {
    hide IsReserved, IsForbidden, Hex4, AllTrailers, RightStrip, Body, ESCAPED_EMPTY, RESERVED_MARK;
    var stripped := RightStrip(v);
    var escaped: Text := [];
    assert v[0..] == v;
    for i := 0 to |v|
      invariant escaped + Body(v[i..]) == Body(v)
    {
      var c := v[i];
      TrailingRun(v, i);
      assert v[i..][0] == c && v[i..][1..] == v[i + 1..];
      if IsForbidden(c) { ForbiddenIsAscii(c); }
      var token;
      if c == TILDE {
        token := [TILDE, TILDE];
      } else if IsForbidden(c) || 0 <= c < 32 || (i >= |stripped| && IsTrailer(c)) {
        token := [TILDE] + Hex4(c);
      } else {
        token := [c];
      }
      assert token == Token(c, AllTrailers(v[i..]));
      EscapeNext(escaped, v[i..]);
      escaped := escaped + token;
    }
    EscapeDone(escaped, v);
    result := escaped;
    if result == [] {
      result := ESCAPED_EMPTY;
    }
    if IsReserved(v) {
      result := RESERVED_MARK + result;
    }
  }

  lemma EscapeNext(escaped: Text, rest: Text)
    requires rest != []
    ensures escaped + Body(rest) == (escaped + Token(rest[0], AllTrailers(rest))) + Body(rest[1..])
  {
  }

  lemma EscapeDone(escaped: Text, v: Text)
    ensures escaped + Body(v[|v|..]) == escaped
  {
  }

  /** The stripped text ends where the trailing run begins. */
  lemma {:induction false} TrailingRun(v: Text, i: nat)
    requires i <= |v|
    ensures |RightStrip(v)| <= |v|
    ensures AllTrailers(v[i..]) <==> i >= |RightStrip(v)|
    decreases |v|
  {
    var last := |v| - 1;
    if v != [] && IsTrailer(v[last]) {
      if i <= last {
        TrailingRun(v[..last], i);
        assert v[i..] == v[..last][i..] + [v[last]];
        assert AllTrailers(v[i..]) <==> AllTrailers(v[..last][i..]) by {
          var a, b := v[i..], v[..last][i..];
          assert forall k | 0 <= k < |b| :: a[k] == b[k];
          assert a[|a| - 1] == v[last];
        }
      } else {
        TrailingRun(v[..last], last);
      }
    } else if v != [] && i < |v| {
      assert v[i..][|v[i..]| - 1] == v[last];
    }
  }

  // ---------- decoding ----------

  function HexValue(c: int): int {
    if '0' as int <= c <= '9' as int then c - '0' as int
    else if 'A' as int <= c <= 'F' as int then c - 'A' as int + 10
    else if 'a' as int <= c <= 'f' as int then c - 'a' as int + 10
    else -1
  }

  predicate IsHex(v: Text) {
    forall i | 0 <= i < |v| :: HexValue(v[i]) >= 0
  }

  function Hex4Value(v: Text): int
    requires |v| == 4
  {
    HexValue(v[0]) * 0x1000 + HexValue(v[1]) * 0x100 + HexValue(v[2]) * 0x10 + HexValue(v[3])
  }

  /** The first character that an encoded text stands for, and how much of it that takes. */
  function Unit(v: Text): (u: (nat, int))
    requires v != []
    ensures 1 <= u.0 <= |v|
  {
    if v[0] != TILDE then (1, v[0])
    else if |v| > 1 && v[1] == TILDE then (2, TILDE)
    else if |v| > 4 && IsHex(v[1..5]) then (5, Hex4Value(v[1..5]))
    else (1, TILDE)
  }

  function DecodeBody(v: Text): Text
    decreases |v|
  {
    if v == [] then [] else [Unit(v).1] + DecodeBody(v[Unit(v).0..])
  }

  function Decode(v: Text): Text {
    if RESERVED_MARK <= v then DecodeBody(v[3..]) else DecodeBody(v)
  }

  /** `decode_sanitized_component` */
  method DecodeComponent(encoded: Text) returns (decoded: Text)
    ensures decoded == Decode(encoded)
  {
    hide IsHex, Hex4Value, DecodeBody;
    var value := if RESERVED_MARK <= encoded then encoded[3..] else encoded;
    decoded := [];
    var index := 0;
    assert value[0..] == value;
    while index < |value|
      invariant 0 <= index <= |value|
      invariant decoded + DecodeBody(value[index..]) == DecodeBody(value)
    {
      ghost var rest := value[index..];
      assert index + 5 <= |value| ==> value[index + 1..index + 5] == rest[1..5];
      var step, c := 1, TILDE;
      if value[index] != TILDE {
        c := value[index];
      } else if index + 1 < |value| && value[index + 1] == TILDE {
        step := 2;
      } else if index + 5 <= |value| && IsHex(value[index + 1..index + 5]) {
        step, c := 5, Hex4Value(value[index + 1..index + 5]);
      }
      assert Unit(rest) == (step, c);
      DecodeNext(decoded, rest);
      assert rest[step..] == value[index + step..];
      decoded, index := decoded + [c], index + step;
    }
    DecodeDone(decoded, value);
  }

  lemma DecodeDone(decoded: Text, value: Text)
    ensures decoded + DecodeBody(value[|value|..]) == decoded
  {
  }

  lemma DecodeNext(decoded: Text, rest: Text)
    requires rest != []
    ensures decoded + DecodeBody(rest) == (decoded + [Unit(rest).1]) + DecodeBody(rest[Unit(rest).0..])
  {
  }

  // ---------- round trip ----------

  lemma HexDigitInverse(n: int)
    requires 0 <= n < 16
    ensures HexValue(UpperHexDigit(n)) == n
    ensures UpperHexDigit(n) != TILDE && UpperHexDigit(n) != 'R' as int
  {
  }

  lemma Hex4Inverse(n: int)
    requires 0 <= n < 0x10000
    ensures IsHex(Hex4(n)) && Hex4Value(Hex4(n)) == n
    ensures Hex4(n)[0] != TILDE && Hex4(n)[0] != 'R' as int
  {
    hide HexValue, UpperHexDigit;
    var low3 := n % 0x1000;
    var low2 := low3 % 0x100;
    HexDigitInverse(n / 0x1000);
    HexDigitInverse(low3 / 0x100);
    HexDigitInverse(low2 / 0x10);
    HexDigitInverse(low2 % 0x10);
  }

  lemma {:induction false} BodyDecodes(v: Text)
    ensures DecodeBody(Body(v)) == v
    decreases |v|
  {
    if v != [] {
      var c, rest := v[0], Body(v[1..]);
      var token := Token(c, AllTrailers(v));
      var whole := token + rest;
      BodyDecodes(v[1..]);
      assert whole[|token|..] == rest;
      if c != TILDE && IsEscaped(c, AllTrailers(v)) {
        Hex4Inverse(c);
        assert whole[1..5] == Hex4(c);
      }
    }
  }

  /** Escaping never produces the reserved mark or the image of the empty text by itself. */
  lemma BodyStart(v: Text)
    ensures !(RESERVED_MARK <= Body(v)) && Body(v) != ESCAPED_EMPTY
    ensures v != [] ==> Body(v) != []
  {
    if v != [] {
      var c := v[0];
      var token := Token(c, AllTrailers(v));
      assert Body(v)[0] == token[0];
      if |token| > 1 { assert Body(v)[1] == token[1]; }
      if c != TILDE && IsEscaped(c, AllTrailers(v)) {
        Hex4Inverse(c);
        assert Body(v)[2] == token[2];
      }
      assert RESERVED_MARK[0] == TILDE && RESERVED_MARK[1] == 'R' as int;
    }
  }

  lemma EmptyIsNotReserved()
    ensures !IsReserved([])
  {
  }

  /** Decoding an escaped text gives the text back, literal tildes and reserved names
      included; only the empty text, whose image is a marker of its own, is an exception. */
  lemma EscapeRoundTrip(v: Text)
    requires v != []
    ensures Decode(Escape(v)) == v
  {
    BodyStart(v);
    BodyDecodes(v);
    if IsReserved(v) {
      assert Escape(v)[3..] == Body(v);
    }
  }

  /** Escaping is injective on all texts, the empty one included. */
  lemma EscapeInjective(a: Text, b: Text)
    requires Escape(a) == Escape(b)
    ensures a == b
  {
    EmptyIsNotReserved();
    if a != [] && b != [] {
      EscapeRoundTrip(a);
      EscapeRoundTrip(b);
    } else if a != b {
      var v := if a == [] then b else a;
      BodyStart(v);
      assert Escape(v) == ESCAPED_EMPTY;
      assert (RESERVED_MARK + Body(v))[1] == 'R' as int;
    }
  }

  // ---------- truncating ----------

  /** Ten lower-case hexadecimal digits. */
  predicate IsDigest(d: Text) {
    |d| == 10 && forall i | 0 <= i < 10 :: '0' as int <= d[i] <= '9' as int || 'a' as int <= d[i] <= 'f' as int
  }

  type Digest = d: Text | IsDigest(d) witness seq(10, _ => '0' as int)

  const SUFFIX_LENGTH := 12

  function Suffix(digest: Text -> Digest, v: Text): (s: Text)
    ensures |s| == SUFFIX_LENGTH
  {
    [TILDE, 'h' as int] + digest(v)
  }

  datatype Option<+T> = None | Some(value: T)

  /** `_truncate_component`; `None` stands for the error of a limit that leaves no room. */
  function Truncate(digest: Text -> Digest, v: Text, limit: int): Option<Text> {
    if |v| <= limit then Some(v)
    else if limit <= SUFFIX_LENGTH then None
    else Some(v[..limit - SUFFIX_LENGTH] + Suffix(digest, v))
  }

  lemma TruncateLength(digest: Text -> Digest, v: Text, limit: int)
    requires limit > SUFFIX_LENGTH
    ensures Truncate(digest, v, limit).Some?
    ensures |Truncate(digest, v, limit).value| == if |v| <= limit then |v| else limit
  {
  }

  /** Only a text that is too long is cut, and only a limit with room for more than the mark
      and the digest will do. */
  lemma TruncateExactly(digest: Text -> Digest, v: Text, limit: int)
    ensures Truncate(digest, v, limit).None? <==> |v| > limit && limit <= SUFFIX_LENGTH
    ensures Truncate(digest, v, limit) == Some(v) <==> |v| <= limit
  {
  }

  // ---------- fitting ----------

  datatype Policy = Policy(maxPath: int, maxComponent: int) {
    predicate IsLegal() {
      maxPath >= 80 && 32 <= maxComponent <= 255
    }
  }

  /** A dot and one to twelve lower-case letters or digits. */
  predicate IsExtension(e: Text) {
    && 2 <= |e| <= 13 && e[0] == DOT
    && forall i | 1 <= i < |e| :: '0' as int <= e[i] <= '9' as int || 'a' as int <= e[i] <= 'z' as int
  }

  datatype Reason = SeriesSanitized | MiddleSanitized | FilenameSanitized | FilenameShortened | SeriesShortened | CannotBeSatisfied

  /** `BadLimit` stands for the error that `Truncate` may raise. */
  datatype Fitting = Fits(path: Text, reasons: seq<Reason>) | TooLong(reasons: seq<Reason>) | BadLimit

  function Render(series: Text, middle: Text, stem: Text, extension: Text): (path: Text)
    ensures |path| == |series| + |middle| + |stem| + |extension| + 2
  {
    series + [SLASH] + middle + [SLASH] + stem + extension
  }

  function Max(a: int, b: int): int {
    if a < b then b else a
  }

  function Min(a: int, b: int): int {
    if a < b then a else b
  }

  /** `_fit_relative_path` */
  method FitRelativePath(digest: Text -> Digest, seriesRaw: Text, middleRaw: Text, stemRaw: Text, extension: Text,
                         policy: Policy)
      returns (fitting: Fitting)
    requires policy.IsLegal() && IsExtension(extension)
    ensures fitting == Fit(digest, seriesRaw, middleRaw, stemRaw, extension, policy)
  {
    hide Render, Escape, Truncate, Sanitized, IsExtension, FitStem;
    ExtensionLength(extension);
    TruncateLength(digest, Escape(seriesRaw), policy.maxComponent);
    TruncateLength(digest, Escape(middleRaw), policy.maxComponent);
    TruncateLength(digest, Escape(stemRaw), policy.maxComponent - |extension|);
    var escapedSeries := EscapeComponent(seriesRaw);
    var series := Truncate(digest, escapedSeries, policy.maxComponent).value;
    var escapedMiddle := EscapeComponent(middleRaw);
    var middle := Truncate(digest, escapedMiddle, policy.maxComponent).value;
    var escapedStem := EscapeComponent(stemRaw);
    var stem := Truncate(digest, escapedStem, policy.maxComponent - |extension|).value;
    var reasons: seq<Reason> := [];
    if series != seriesRaw { reasons := reasons + [SeriesSanitized]; }
    if middle != middleRaw { reasons := reasons + [MiddleSanitized]; }
    if stem != stemRaw { reasons := reasons + [FilenameSanitized]; }
    SanitizedIs(seriesRaw, series, middleRaw, middle, stemRaw, stem);
    assert reasons == Sanitized(seriesRaw, series, middleRaw, middle, stemRaw, stem);

    var path := Render(series, middle, stem, extension);
    if |path| <= policy.maxPath {
      return Fits(path, reasons);
    }
    fitting := ShortenToFit(digest, series, middle, stem, extension, policy, reasons);
  }

  /** The stem gives way first, then the series; neither below 32 characters. */
  method ShortenToFit(digest: Text -> Digest, series0: Text, middle: Text, stem0: Text, extension: Text,
                      policy: Policy, reasons0: seq<Reason>)
      returns (fitting: Fitting)
    ensures fitting == FitStem(digest, series0, middle, stem0, extension, policy, reasons0)
  {
    hide Render, Truncate;
    var series, stem, reasons := series0, stem0, reasons0;
    var excess := |Render(series, middle, stem, extension)| - policy.maxPath;
    var target := Max(32, |stem| - excess);
    TruncateLength(digest, stem, target);
    var shortened := Truncate(digest, stem, target).value;
    if shortened != stem {
      stem, reasons := shortened, reasons + [FilenameShortened];
    }
    var path := Render(series, middle, stem, extension);
    if |path| <= policy.maxPath {
      return Fits(path, reasons);
    }
    excess := |path| - policy.maxPath;
    target := Max(32, |series| - excess);
    TruncateLength(digest, series, target);
    shortened := Truncate(digest, series, target).value;
    if shortened != series {
      series, reasons := shortened, reasons + [SeriesShortened];
    }
    path := Render(series, middle, stem, extension);
    if |path| <= policy.maxPath {
      return Fits(path, reasons);
    }
    fitting := TooLong(reasons + [CannotBeSatisfied]);
  }

  lemma ExtensionLength(e: Text)
    requires IsExtension(e)
    ensures 2 <= |e| <= 13
  {
  }

  lemma SanitizedIs(seriesRaw: Text, series: Text, middleRaw: Text, middle: Text, stemRaw: Text, stem: Text)
    ensures Sanitized(seriesRaw, series, middleRaw, middle, stemRaw, stem)
            == (if series != seriesRaw then [SeriesSanitized] else [])
               + (if middle != middleRaw then [MiddleSanitized] else [])
               + (if stem != stemRaw then [FilenameSanitized] else [])
  {
  }

  function Sanitized(seriesRaw: Text, series: Text, middleRaw: Text, middle: Text, stemRaw: Text, stem: Text): seq<Reason> {
    (if series != seriesRaw then [SeriesSanitized] else [])
    + (if middle != middleRaw then [MiddleSanitized] else [])
    + (if stem != stemRaw then [FilenameSanitized] else [])
  }

  function Fit(digest: Text -> Digest, seriesRaw: Text, middleRaw: Text, stemRaw: Text, extension: Text,
               policy: Policy): Fitting {
    match (Truncate(digest, Escape(seriesRaw), policy.maxComponent),
           Truncate(digest, Escape(middleRaw), policy.maxComponent),
           Truncate(digest, Escape(stemRaw), policy.maxComponent - |extension|))
    case (Some(series), Some(middle), Some(stem)) =>
      var reasons := Sanitized(seriesRaw, series, middleRaw, middle, stemRaw, stem);
      if |Render(series, middle, stem, extension)| <= policy.maxPath then Fits(Render(series, middle, stem, extension), reasons)
      else FitStem(digest, series, middle, stem, extension, policy, reasons)
    case _ => BadLimit
  }

  function FitStem(digest: Text -> Digest, series: Text, middle: Text, stem: Text, extension: Text, policy: Policy,
                   reasons: seq<Reason>): Fitting {
    var excess := |Render(series, middle, stem, extension)| - policy.maxPath;
    match Truncate(digest, stem, Max(32, |stem| - excess))
    case None => BadLimit
    case Some(stem') =>
      var reasons' := if stem' != stem then reasons + [FilenameShortened] else reasons;
      if |Render(series, middle, stem', extension)| <= policy.maxPath then Fits(Render(series, middle, stem', extension), reasons')
      else FitSeries(digest, series, middle, stem', extension, policy, reasons')
  }

  function FitSeries(digest: Text -> Digest, series: Text, middle: Text, stem: Text, extension: Text,
                     policy: Policy, reasons: seq<Reason>): Fitting {
    var excess := |Render(series, middle, stem, extension)| - policy.maxPath;
    match Truncate(digest, series, Max(32, |series| - excess))
    case None => BadLimit
    case Some(series') =>
      var reasons' := if series' != series then reasons + [SeriesShortened] else reasons;
      if |Render(series', middle, stem, extension)| <= policy.maxPath then Fits(Render(series', middle, stem, extension), reasons')
      else TooLong(reasons' + [CannotBeSatisfied])
  }
}
