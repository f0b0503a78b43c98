/** What names the validator lets pass, in terms of the characters themselves. */
module PathRules {
  import opened Destination
  import opened Preflight
  import opened FittingTheorems

  const SPECIAL: string := "<>:\"/\\|?*"

  ghost predicate IsSpecial(c: int) {
    exists i :: 0 <= i < |SPECIAL| && c == SPECIAL[i] as int
  }

  lemma SpecialExactly(c: int)
    ensures IsSpecial(c) <==> IsForbidden(c)
    ensures IsSpecial(c) && c != SLASH <==> IsForbiddenInComponent(c)
  {
    var s := SPECIAL;
    assert |s| == 9;
    assert s[0] == '<' && s[1] == '>' && s[2] == ':' && s[3] == '"' && s[4] == '/';
    assert s[5] == '\\' && s[6] == '|' && s[7] == '?' && s[8] == '*';
  }

  // ---------- device names ----------

  /** These small letters, each of them large or small. */
  ghost predicate Spells(v: Text, name: string) {
    |v| == |name| && forall i :: 0 <= i < |v| ==> v[i] == name[i] as int || v[i] == name[i] as int - 32
  }

  ghost predicate SpellsDevice(v: Text) {
    || Spells(v, "con") || Spells(v, "prn") || Spells(v, "aux") || Spells(v, "nul")
    || (|v| == 4 && '1' as int <= v[3] <= '9' as int && (Spells(v[..3], "com") || Spells(v[..3], "lpt")))
  }

  /** A device name, perhaps followed by spaces, perhaps followed by a dot and anything. */
  ghost predicate NamesDevice(v: Text) {
    exists k, n :: 0 <= k <= n <= |v| && DeviceWithin(v, k, n)
  }

  ghost predicate DeviceWithin(v: Text, k: nat, n: nat)
    requires k <= n <= |v|
  {
    && SpellsDevice(v[..k])
    && (forall i :: k <= i < n ==> v[i] == SPACE)
    && (n == |v| || v[n] == DOT)
  }

  /** A file name that Windows takes as it is. */
  ghost predicate IsPortable(v: Text) {
    && v != []
    && (forall i :: 0 <= i < |v| ==> !IsSpecial(v[i]) && v[i] >= 32)
    && v[|v| - 1] != SPACE && v[|v| - 1] != DOT
    && !NamesDevice(v)
  }

  lemma SpellingFolds(v: Text, name: string)
    requires |name| == 3 && forall i :: 0 <= i < 3 ==> 'a' <= name[i] <= 'z'
    ensures Spells(v, name) <==> FoldText(v) == [name[0] as int, name[1] as int, name[2] as int]
  {
    var folded, letters := FoldText(v), [name[0] as int, name[1] as int, name[2] as int];
    if |v| == 3 {
      assert forall i :: 0 <= i < 3 ==> folded[i] == Fold(v[i]) && letters[i] == name[i] as int;
      assert Spells(v, name) <==> forall i :: 0 <= i < 3 ==> folded[i] == letters[i];
    }
  }

  lemma DeviceExactly(v: Text)
    ensures SpellsDevice(v) <==> IsReservedName(FoldText(v))
  {
    hide Spells, Fold;
    SpellingFolds(v, "con");
    SpellingFolds(v, "prn");
    SpellingFolds(v, "aux");
    SpellingFolds(v, "nul");
    if |v| == 4 {
      SpellingFolds(v[..3], "com");
      SpellingFolds(v[..3], "lpt");
      DigitsStay(v[3]);
      assert FoldText(v)[..3] == FoldText(v[..3]) && FoldText(v)[3] == Fold(v[3]);
    }
  }

  lemma DigitsStay(c: int)
    ensures '1' as int <= Fold(c) <= '9' as int <==> '1' as int <= c <= '9' as int
  {
  }

  lemma {:induction false} StripUnique(v: Text, k: nat)
    requires k <= |v| && (k == 0 || !IsTrailer(v[k - 1])) && forall i :: k <= i < |v| ==> IsTrailer(v[i])
    ensures RightStrip(v) == v[..k]
    decreases |v|
  {
    if k < |v| {
      StripUnique(v[..|v| - 1], k);
      assert v[..|v| - 1][..k] == v[..k];
    }
  }

  lemma DeviceEndsPlain(v: Text)
    requires SpellsDevice(v)
    ensures |v| >= 3 && !IsTrailer(v[|v| - 1]) && DOT !in v
  {
  }

  /** The part of a name that the check for reserved names looks at. */
  lemma NamesDeviceExactly(v: Text)
    ensures NamesDevice(v) <==> IsReserved(v)
  {
    hide SpellsDevice, IsReservedName, FoldText, IsTrailer;
    var head := BeforeDot(v);
    var name := RightStrip(head);
    BeforeDotIs(v);
    RightStripIs(head);
    DeviceExactly(name);
    if IsReserved(v) {
      assert v[..|name|] == name;
      forall i | |name| <= i < |head|
        ensures v[i] == SPACE
      {
        assert IsTrailer(head[i]) && head[i] in head && head[i] == v[i];
        TrailerIs(v[i]);
      }
      assert DeviceWithin(v, |name|, |head|);
    }
    if k, n :| 0 <= k <= n <= |v| && DeviceWithin(v, k, n) {
      DeviceEndsPlain(v[..k]);
      forall c | c in v[..n]
        ensures c != DOT
      {
        var i :| 0 <= i < n && v[i] == c;
        if i < k { assert v[..k][i] == c; }
      }
      BeforeDotUnique(v, n);
      forall i | k <= i < n ensures IsTrailer(head[i]) { assert head[i] == v[i]; TrailerIs(v[i]); }
      StripUnique(head, k);
      assert head[..k] == v[..k];
    }
  }

  lemma TrailerIs(c: int)
    ensures IsTrailer(c) <==> c == SPACE || c == DOT
  {
  }

  lemma PortableExactly(v: Text)
    ensures IsPortable(v) <==> Safe(v)
  {
    hide IsSpecial, IsForbidden, NamesDevice, IsReserved;
    NamesDeviceExactly(v);
    forall i | 0 <= i < |v| ensures IsSpecial(v[i]) <==> IsForbidden(v[i]) { SpecialExactly(v[i]); }
  }

  // ---------- the parts of a path ----------

  /** The parts with a slash after each but the last. */
  function Join(parts: seq<Text>): Text
    requires parts != []
  {
    if |parts| == 1 then parts[0] else parts[0] + [SLASH] + Join(parts[1..])
  }

  /** Splitting is the inverse of joining parts that have no slashes. */
  lemma {:induction false} SplitJoins(value: Text)
    ensures Join(Split(value)) == value && forall part :: part in Split(value) ==> SLASH !in part
    decreases |value|
  {
    if value != [] {
      SplitJoins(value[1..]);
      var rest := Split(value[1..]);
      var parts := Split(value);
      assert value == [value[0]] + value[1..];
      if value[0] == SLASH {
        assert parts[1..] == rest && parts[0] == [];
      } else {
        assert parts[1..] == rest[1..] && parts[0] == [value[0]] + rest[0];
        assert rest[0] in rest;
        forall part | part in parts
          ensures SLASH !in part
        {
          if part != parts[0] { assert part in parts[1..]; }
        }
      }
    }
  }

  lemma {:induction false} SplitUnique(parts: seq<Text>)
    requires parts != [] && forall part :: part in parts ==> SLASH !in part
    ensures Split(Join(parts)) == parts
    decreases |parts|
  {
    assert parts[0] in parts;
    if |parts| == 1 {
      SplitLast(parts[0]);
    } else {
      SplitUnique(parts[1..]);
      SplitFirst(parts[0], Join(parts[1..]));
    }
  }

  /** The parts hold all characters but the slashes. */
  lemma {:induction false} PartsHold(value: Text, c: int)
    requires c != SLASH
    ensures c in value <==> exists part :: part in Split(value) && c in part
    decreases |value|
  {
    if value == [] {
      assert Split(value) == [[]];
    } else {
      PartsHold(value[1..], c);
      var rest, parts := Split(value[1..]), Split(value);
      assert c in value <==> c == value[0] || c in value[1..];
      if value[0] == SLASH {
        assert parts == [[]] + rest;
      } else {
        assert parts == [[value[0]] + rest[0]] + rest[1..] && parts[0] in parts && rest[0] in rest;
        forall part | part in rest && c in part
          ensures exists p :: p in parts && c in p
        {
          if part == rest[0] { assert c in parts[0]; } else { assert part in rest[1..] && part in parts; }
        }
        forall p | p in parts && c in p
          ensures c == value[0] || exists part :: part in rest && c in part
        {
          if p == parts[0] { assert c == value[0] || c in rest[0]; } else { assert p in rest[1..] && p in rest; }
        }
        if c == value[0] { assert c in parts[0]; }
      }
    }
  }

  /** Two slashes follow each other, or the last character is one. */
  ghost predicate LeavesGap(value: Text) {
    && value != []
    && (value[|value| - 1] == SLASH || exists i :: 0 <= i < |value| - 1 && value[i] == SLASH && value[i + 1] == SLASH)
  }

  lemma {:induction false} LaterGaps(value: Text)
    ensures Split(value)[0] == [] <==> value == [] || value[0] == SLASH
    ensures [] in Split(value)[1..] <==> LeavesGap(value)
    decreases |value|
  {
    if value != [] {
      var tail := value[1..];
      LaterGaps(tail);
      var rest := Split(tail);
      assert rest == [rest[0]] + rest[1..];
      assert Split(value)[1..] == if value[0] == SLASH then rest else rest[1..];
      GapInTail(value);
    }
  }

  lemma GapInTail(value: Text)
    requires value != []
    ensures LeavesGap(value) <==>
            LeavesGap(value[1..]) || (value[0] == SLASH && (value[1..] == [] || value[1..][0] == SLASH))
  {
    var tail := value[1..];
    if LeavesGap(value) && tail != [] {
      if value[|value| - 1] != SLASH {
        var i :| 0 <= i < |value| - 1 && value[i] == SLASH && value[i + 1] == SLASH;
        if i > 0 { assert tail[i - 1] == SLASH && tail[i - 1 + 1] == SLASH; }
      }
    }
    if LeavesGap(tail) && tail[|tail| - 1] != SLASH {
      var i :| 0 <= i < |tail| - 1 && tail[i] == SLASH && tail[i + 1] == SLASH;
      assert value[i + 1] == SLASH && value[i + 1 + 1] == SLASH;
    }
    if tail != [] && value[0] == SLASH && tail[0] == SLASH { assert value[0] == SLASH && value[0 + 1] == SLASH; }
  }

  // ---------- what the codes mean ----------

  /** Some part other than an empty one and dots is so. */
  ghost predicate SomePart(value: Text, p: Text -> bool) {
    exists part :: part in Split(value) && !IsDots(part) && p(part)
  }

  ghost function EndsInDotOrSpace(): Text -> bool {
    (part: Text) => part != [] && (part[|part| - 1] == SPACE || part[|part| - 1] == DOT)
  }

  function IsLongerThan(limit: int): Text -> bool {
    (part: Text) => |part| > limit
  }

  /** An ASCII letter and a colon. */
  ghost predicate BeginsWithDrive(value: Text) {
    exists c :: ('a' as int <= c <= 'z' as int || 'A' as int <= c <= 'Z' as int) && [c, COLON] <= value
  }

  lemma DriveExactly(value: Text)
    ensures BeginsWithDrive(value) <==> HasDrive(value)
  {
    if HasDrive(value) {
      assert [value[0], COLON] <= value;
    }
  }

  ghost function NamesADevice(): Text -> bool {
    (part: Text) => NamesDevice(part)
  }

  /** The codes of a path that is not empty, in its characters and parts. */
  lemma CodesMean(value: Text, limits: Limits, isNfc: Text -> bool)
    requires value != []
    ensures Deserves(value, ForbiddenCharacter, limits, isNfc) <==>
            exists i :: 0 <= i < |value| && IsSpecial(value[i]) && value[i] != SLASH
    ensures Deserves(value, ControlCharacter, limits, isNfc) <==> exists i :: 0 <= i < |value| && value[i] < 32
    ensures Deserves(value, EmptyComponent, limits, isNfc) <==> value[0] == SLASH || LeavesGap(value)
    ensures Deserves(value, DotComponent, limits, isNfc) <==> [DOT] in Split(value)
    ensures Deserves(value, RootEscape, limits, isNfc) <==>
            value[0] == SLASH || BeginsWithDrive(value) || [DOT, DOT] in Split(value)
    ensures Deserves(value, NoncanonicalSeparator, limits, isNfc) <==> BACKSLASH in value
    ensures Deserves(value, PathTooLong, limits, isNfc) <==> |value| > limits.maxPath
    ensures Deserves(value, ComponentTooLong, limits, isNfc) <==> SomePart(value, IsLongerThan(limits.maxComponent))
    ensures Deserves(value, TrailingDotSpace, limits, isNfc) <==> SomePart(value, EndsInDotOrSpace())
    ensures Deserves(value, WindowsReserved, limits, isNfc) <==> SomePart(value, NamesADevice())
    ensures !Deserves(value, PathEmpty, limits, isNfc)
  {
    hide Deserves, SomePart, IsSpecial, LeavesGap, BeginsWithDrive, Split;
    CharactersFound(value, limits, isNfc);
    PartsFound(value, limits, isNfc);
    WholeFound(value, limits, isNfc);
  }

  lemma WholeFound(value: Text, limits: Limits, isNfc: Text -> bool)
    requires value != []
    ensures Deserves(value, EmptyComponent, limits, isNfc) <==> value[0] == SLASH || LeavesGap(value)
    ensures Deserves(value, DotComponent, limits, isNfc) <==> [DOT] in Split(value)
    ensures Deserves(value, RootEscape, limits, isNfc) <==>
            value[0] == SLASH || BeginsWithDrive(value) || [DOT, DOT] in Split(value)
    ensures Deserves(value, NoncanonicalSeparator, limits, isNfc) <==> BACKSLASH in value
    ensures Deserves(value, PathTooLong, limits, isNfc) <==> |value| > limits.maxPath
    ensures !Deserves(value, PathEmpty, limits, isNfc)
  {
    hide Split, HasDrive, LeavesGap, BeginsWithDrive, ComponentHas;
    WholeOnly(limits, isNfc);
    assert IsOfWhole(EmptyComponent) && IsOfWhole(DotComponent) && IsOfWhole(RootEscape) && IsOfWhole(NoncanonicalSeparator)
      && IsOfWhole(PathTooLong) && IsOfWhole(PathEmpty);
    LaterGaps(value);
    DriveExactly(value);
    var parts := Split(value);
    assert [] in parts <==> parts[0] == [] || [] in parts[1..] by {
      assert parts == [parts[0]] + parts[1..];
    }
  }

  /** The code is about a path as a whole. */
  predicate IsOfWhole(code: Code) {
    || code.PathEmpty? || code.NoncanonicalSeparator? || code.RootEscape? || code.EmptyComponent? || code.DotComponent?
    || code.PathTooLong?
  }

  lemma WholeOnly(limits: Limits, isNfc: Text -> bool)
    ensures forall part, code :: IsOfWhole(code) ==> !ComponentHas(part, code, limits, isNfc)
  {
  }

  lemma PartsFound(value: Text, limits: Limits, isNfc: Text -> bool)
    requires value != []
    ensures Deserves(value, ComponentTooLong, limits, isNfc) <==> SomePart(value, IsLongerThan(limits.maxComponent))
    ensures Deserves(value, TrailingDotSpace, limits, isNfc) <==> SomePart(value, EndsInDotOrSpace())
    ensures Deserves(value, WindowsReserved, limits, isNfc) <==> SomePart(value, NamesADevice())
  {
    hide Split, HasDrive, HasForbidden, HasControl, IsReserved, IsDots, NamesDevice;
    forall part | part in Split(value)
      ensures ComponentHas(part, ComponentTooLong, limits, isNfc) <==> IsLongerThan(limits.maxComponent)(part)
      ensures ComponentHas(part, TrailingDotSpace, limits, isNfc) <==> EndsInDotOrSpace()(part)
      ensures ComponentHas(part, WindowsReserved, limits, isNfc) <==> NamesADevice()(part)
    {
      NamesDeviceExactly(part);
    }
  }

  lemma CharactersFound(value: Text, limits: Limits, isNfc: Text -> bool)
    requires value != []
    ensures Deserves(value, ForbiddenCharacter, limits, isNfc) <==>
            exists i :: 0 <= i < |value| && IsSpecial(value[i]) && value[i] != SLASH
    ensures Deserves(value, ControlCharacter, limits, isNfc) <==> exists i :: 0 <= i < |value| && value[i] < 32
  {
    hide Split, IsSpecial, IsForbiddenInComponent;
    forall i | 0 <= i < |value| && value[i] != SLASH
      ensures IsSpecial(value[i]) ==> Deserves(value, ForbiddenCharacter, limits, isNfc)
      ensures value[i] < 32 ==> Deserves(value, ControlCharacter, limits, isNfc)
    {
      PartsHold(value, value[i]);
      SpecialExactly(value[i]);
      var part :| part in Split(value) && value[i] in part;
      SpecialIsNoDot(value[i]);
      assert (IsSpecial(value[i]) || value[i] < 32) ==> !IsDots(part);
    }
    forall part, c | part in Split(value) && c in part
      ensures IsForbiddenInComponent(c) ==> exists i :: 0 <= i < |value| && IsSpecial(value[i]) && value[i] != SLASH
      ensures c < 32 ==> exists i :: 0 <= i < |value| && value[i] < 32
    {
      SplitJoins(value);
      PartsHold(value, c);
      SpecialExactly(c);
      var i :| 0 <= i < |value| && value[i] == c;
    }
  }

  lemma SpecialIsNoDot(c: int)
    ensures IsSpecial(c) || c < 32 ==> c != DOT
  {
    SpecialExactly(c);
  }

  /** A path earns no code but, perhaps, normal form exactly when it is within the path limit
      and each of its parts is a portable name within the component limit. */
  lemma CodelessExactly(value: Text, limits: Limits, isNfc: Text -> bool)
    ensures (forall code | code != ComponentNotNfc :: !Deserves(value, code, limits, isNfc)) <==>
            && |value| <= limits.maxPath
            && (forall part :: part in Split(value) ==> IsPortable(part) && |part| <= limits.maxComponent)
            && value != []
  {
    if value != [] {
      if forall code | code != ComponentNotNfc :: !Deserves(value, code, limits, isNfc) {
        CodelessIsPortable(value, limits, isNfc);
      }
      if |value| <= limits.maxPath && forall part :: part in Split(value) ==> IsPortable(part) && |part| <= limits.maxComponent {
        forall code | code != ComponentNotNfc
          ensures !Deserves(value, code, limits, isNfc)
        {
          PortableIsCodeless(value, limits, isNfc, code);
        }
      }
    } else {
      assert Deserves(value, PathEmpty, limits, isNfc);
    }
  }

  lemma CodelessIsPortable(value: Text, limits: Limits, isNfc: Text -> bool)
    requires value != [] && forall code | code != ComponentNotNfc :: !Deserves(value, code, limits, isNfc)
    ensures |value| <= limits.maxPath
    ensures forall part :: part in Split(value) ==> IsPortable(part) && |part| <= limits.maxComponent
  {
    hide IsPortable, ComponentHas, Split;
    assert !Deserves(value, PathTooLong, limits, isNfc) && !Deserves(value, EmptyComponent, limits, isNfc)
      && !Deserves(value, DotComponent, limits, isNfc) && !Deserves(value, RootEscape, limits, isNfc);
    SplitJoins(value);
    hide PathHas, HasDrive;
    forall part | part in Split(value)
      ensures IsPortable(part) && |part| <= limits.maxComponent
    {
      forall code | code != ComponentNotNfc
        ensures !ComponentHas(part, code, limits, isNfc)
      {
        assert !Deserves(value, code, limits, isNfc);
      }
      CleanIsPortable(part, limits, isNfc);
    }
  }

  lemma CleanIsPortable(part: Text, limits: Limits, isNfc: Text -> bool)
    requires !IsDots(part) && SLASH !in part
    requires forall code | code != ComponentNotNfc :: !ComponentHas(part, code, limits, isNfc)
    ensures IsPortable(part) && |part| <= limits.maxComponent
  {
    hide IsReserved, IsPortable, IsForbiddenInComponent, IsForbidden, IsSpecial;
    assert !ComponentHas(part, ComponentTooLong, limits, isNfc) && !ComponentHas(part, ForbiddenCharacter, limits, isNfc)
      && !ComponentHas(part, ControlCharacter, limits, isNfc) && !ComponentHas(part, TrailingDotSpace, limits, isNfc)
      && !ComponentHas(part, WindowsReserved, limits, isNfc);
    forall i | 0 <= i < |part|
      ensures !IsForbidden(part[i]) && part[i] >= 32
    {
      assert part[i] in part;
      SpecialExactly(part[i]);
    }
    PortableExactly(part);
  }

  lemma PortableIsCodeless(value: Text, limits: Limits, isNfc: Text -> bool, code: Code)
    requires value != [] && code != ComponentNotNfc && |value| <= limits.maxPath
    requires forall part :: part in Split(value) ==> IsPortable(part) && |part| <= limits.maxComponent
    ensures !Deserves(value, code, limits, isNfc)
  {
    hide Split, IsPortable, ComponentHas, IsForbidden;
    forall part | part in Split(value)
      ensures !ComponentHas(part, code, limits, isNfc) && !IsDots(part) && BACKSLASH !in part && COLON !in part
    {
      PortableExactly(part);
      SafeHasNoSlash(part);
      SafeComponentPasses(part, limits, isNfc, code);
    }
    LaterGaps(value);
    assert Split(value)[0] in Split(value);
    PartsHold(value, BACKSLASH);
    PartsHold(value, COLON);
    assert HasDrive(value) ==> COLON in value;
  }
}
