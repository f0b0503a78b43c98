/** The independent validator of planned paths. */
module Preflight {
  import opened Destination

  datatype Code =
    | PathEmpty | NoncanonicalSeparator | RootEscape | EmptyComponent | DotComponent | PathTooLong
    | ComponentTooLong | ComponentNotNfc | ForbiddenCharacter | ControlCharacter | TrailingDotSpace | WindowsReserved

  /** The characters `< > : " \ | ? *`; the slash separates components here. */
  predicate IsForbiddenInComponent(c: int) {
    c in {'<' as int, '>' as int, COLON, '"' as int, BACKSLASH, '|' as int, '?' as int, '*' as int}
  }

  function Split(value: Text): (parts: seq<Text>)
    ensures |parts| > 0
  {
    if value == [] then [[]]
    else
      var rest := Split(value[1..]);
      if value[0] == SLASH then [[]] + rest else [[value[0]] + rest[0]] + rest[1..]
  }

  predicate IsLetter(c: int) {
    'A' as int <= c <= 'Z' as int || 'a' as int <= c <= 'z' as int
  }

  predicate HasDrive(value: Text) {
    |value| > 1 && IsLetter(value[0]) && value[1] == COLON
  }

  predicate IsDots(part: Text) {
    part == [] || part == [DOT] || part == [DOT, DOT]
  }

  datatype Limits = Limits(maxPath: int, maxComponent: int)

  predicate HasForbidden(part: Text) {
    exists c | c in part :: IsForbiddenInComponent(c)
  }

  predicate HasControl(part: Text) {
    exists c | c in part :: c < 32
  }

  /** What is wrong with one component that is neither empty nor dots. */
  predicate ComponentHas(part: Text, code: Code, limits: Limits, isNfc: Text -> bool) {
    match code
    case ComponentTooLong => |part| > limits.maxComponent
    case ComponentNotNfc => !isNfc(part)
    case ForbiddenCharacter => HasForbidden(part)
    case ControlCharacter => HasControl(part)
    case TrailingDotSpace => part != [] && IsTrailer(part[|part| - 1])
    case WindowsReserved => IsReserved(part)
    case _ => false
  }

  predicate PathHas(value: Text, code: Code, limits: Limits) {
    match code
    case NoncanonicalSeparator => BACKSLASH in value
    case RootEscape => (value != [] && value[0] == SLASH) || HasDrive(value) || [DOT, DOT] in Split(value)
    case EmptyComponent => [] in Split(value)
    case DotComponent => [DOT] in Split(value)
    case PathTooLong => |value| > limits.maxPath
    case _ => false
  }

  /** The codes a path deserves. */
  predicate Deserves(value: Text, code: Code, limits: Limits, isNfc: Text -> bool) {
    if value == [] then code == PathEmpty
    else
      || PathHas(value, code, limits)
      || exists part | part in Split(value) :: !IsDots(part) && ComponentHas(part, code, limits, isNfc)
  }

  predicate NoRepeats(codes: seq<Code>) {
    forall i, j | 0 <= i < j < |codes| :: codes[i] != codes[j]
  }

  /** Appending a code, dropping it when it is there already, as the final
      deduplication does. */
  function With(codes: seq<Code>, code: Code, applies: bool): seq<Code> {
    if applies && code !in codes then codes + [code] else codes
  }

  lemma WithAdds(codes: seq<Code>, code: Code, applies: bool)
    ensures forall x :: x in With(codes, code, applies) <==> x in codes || (applies && x == code)
    ensures NoRepeats(codes) ==> NoRepeats(With(codes, code, applies))
  {
  }

  method Note(earlier: seq<Code>, code: Code, applies: bool) returns (codes: seq<Code>)
    requires NoRepeats(earlier)
    ensures forall x :: x in codes <==> x in earlier || (applies && x == code)
    ensures NoRepeats(codes)
  {
    WithAdds(earlier, code, applies);
    codes := With(earlier, code, applies);
  }

  /** `_relative_path_codes`: exactly the deserved codes, each once. */
  method RelativePathCodes(value: Text, limits: Limits, isNfc: Text -> bool) returns (codes: seq<Code>)
    ensures forall code :: code in codes <==> Deserves(value, code, limits, isNfc)
    ensures forall i, j :: 0 <= i < j < |codes| ==> codes[i] != codes[j]
  {
    if value == [] {
      return [PathEmpty];
    }
    hide Split, NoRepeats, ComponentHas, PathHas;
    var parts := Split(value);
    codes := WholePathCodes(value, limits);
    for i := 0 to |parts|
      invariant NoRepeats(codes)
      invariant forall code :: code in codes <==>
                  PathHas(value, code, limits)
                  || exists k :: 0 <= k < i && !IsDots(parts[k]) && ComponentHas(parts[k], code, limits, isNfc)
    {
      if !IsDots(parts[i]) {
        codes := ComponentCodes(codes, parts[i], limits, isNfc);
      }
    }
  }

  method WholePathCodes(value: Text, limits: Limits) returns (codes: seq<Code>)
    requires value != []
    ensures forall code :: code in codes <==> PathHas(value, code, limits)
    ensures NoRepeats(codes)
  {
    NothingRepeats();
    hide Split, HasDrive, NoRepeats;
    var parts := Split(value);
    codes := [];
    codes := Note(codes, NoncanonicalSeparator, BACKSLASH in value);
    codes := Note(codes, RootEscape, value[0] == SLASH || HasDrive(value));
    codes := Note(codes, EmptyComponent, [] in parts);
    codes := Note(codes, DotComponent, [DOT] in parts);
    codes := Note(codes, RootEscape, [DOT, DOT] in parts);
    codes := Note(codes, PathTooLong, |value| > limits.maxPath);
  }

  lemma NothingRepeats()
    ensures NoRepeats([])
  {
  }

  method ComponentCodes(earlier: seq<Code>, part: Text, limits: Limits, isNfc: Text -> bool) returns (codes: seq<Code>)
    requires NoRepeats(earlier)
    ensures forall code :: code in codes <==> code in earlier || ComponentHas(part, code, limits, isNfc)
    ensures NoRepeats(codes)
  {
    hide IsReserved, HasForbidden, HasControl, NoRepeats;
    codes := earlier;
    codes := Note(codes, ComponentTooLong, |part| > limits.maxComponent);
    codes := Note(codes, ComponentNotNfc, !isNfc(part));
    codes := Note(codes, ForbiddenCharacter, HasForbidden(part));
    codes := Note(codes, ControlCharacter, HasControl(part));
    codes := Note(codes, TrailingDotSpace, part != [] && IsTrailer(part[|part| - 1]));
    codes := Note(codes, WindowsReserved, IsReserved(part));
  }
}
