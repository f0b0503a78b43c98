/** Deciding whether a compact folder token abbreviates its parent's words in exactly one
    way: a pruned depth-first search that gives up after the second way. */
module CompactAbbreviation {

  /** The letters kept when `lengths[i]` letters of word `i` are taken. */
  function Joined(words: seq<string>, lengths: seq<nat>): (text: string)
    requires |lengths| <= |words| && forall i :: 0 <= i < |lengths| ==> lengths[i] <= |words[i]|
  {
    if lengths == [] then []
    else
      var last := |lengths| - 1;
      Joined(words, lengths[..last]) + words[last][..lengths[last]]
  }

  /** At least two letters of each of the first words. */
  ghost predicate Fits(words: seq<string>, lengths: seq<nat>) {
    |lengths| <= |words| && forall i :: 0 <= i < |lengths| ==> 2 <= lengths[i] <= |words[i]|
  }

  ghost predicate Shortens(words: seq<string>, lengths: seq<nat>)
    requires |lengths| <= |words|
  {
    exists i :: 0 <= i < |lengths| && lengths[i] < |words[i]|
  }

  /** `lengths` is a way to read `value` as an abbreviation of `words`. */
  ghost predicate Abbreviates(words: seq<string>, value: string, lengths: seq<nat>) {
    |lengths| == |words| && Fits(words, lengths) && Joined(words, lengths) == value && Shortens(words, lengths)
  }

  ghost predicate AbbreviatesUniquely(words: seq<string>, value: string) {
    exists only :: Abbreviates(words, value, only) && forall other :: Abbreviates(words, value, other) ==> other == only
  }

  /** A way that starts with the lengths in `chosen`. */
  ghost predicate Extends(words: seq<string>, value: string, chosen: seq<nat>, way: seq<nat>) {
    Abbreviates(words, value, way) && |chosen| <= |words| && way[..|chosen|] == chosen
  }

  /** Taking fewer words takes a prefix, shorter by at least two letters a word. */
  lemma {:induction false} JoinedPrefix(words: seq<string>, lengths: seq<nat>, k: nat)
    requires Fits(words, lengths) && k <= |lengths|
    ensures Joined(words, lengths[..k]) <= Joined(words, lengths)
    ensures |Joined(words, lengths)| >= |Joined(words, lengths[..k])| + 2 * (|lengths| - k)
    decreases |lengths|
  {
    if k == |lengths| {
      assert lengths[..k] == lengths;
    } else {
      var last := |lengths| - 1;
      assert lengths[..last][..k] == lengths[..k];
      JoinedPrefix(words, lengths[..last], k);
    }
  }

  /** What the branch-and-bound may skip: every way that extends `chosen` continues with
      letters of the value, and leaves two for each later word. */
  lemma WayContinues(words: seq<string>, value: string, chosen: seq<nat>, way: seq<nat>)
    requires Extends(words, value, chosen, way) && |chosen| < |words|
    ensures |way| == |words| && 2 <= way[|chosen|] <= |words[|chosen|]|
    ensures Fits(words, chosen) && |Joined(words, chosen)| + way[|chosen|] + 2 * (|words| - |chosen| - 1) <= |value|
    ensures
      var (k, offset) := (|chosen|, |Joined(words, chosen)|);
      value[offset..offset + way[k]] == words[k][..way[k]]
  {
    hide Fits, Extends, Abbreviates, Joined;
    WaySays(words, value, chosen, way);
    JoinedPrefix(words, way, |chosen| + 1);
    OneMoreWord(words, chosen, way);
  }

  lemma WaySays(words: seq<string>, value: string, chosen: seq<nat>, way: seq<nat>)
    requires Extends(words, value, chosen, way)
    ensures |way| == |words| && |chosen| <= |way| && way[..|chosen|] == chosen && Fits(words, way) && Joined(words, way) == value
  {
  }

  lemma OneMoreWord(words: seq<string>, chosen: seq<nat>, way: seq<nat>)
    requires Fits(words, way) && |chosen| < |way| && way[..|chosen|] == chosen
    ensures Fits(words, chosen) && 2 <= way[|chosen|] <= |words[|chosen|]|
    ensures Joined(words, way[..|chosen| + 1]) == Joined(words, chosen) + words[|chosen|][..way[|chosen|]]
  {
    assert way[..|chosen| + 1][..|chosen|] == chosen;
  }

  /** `walk`: counts the ways that extend `chosen`, unless there are two already. The ghost
      set holds the ways that were counted. */
  method Walk(words: seq<string>, value: string, ghost chosen: seq<nat>, tokenIndex: nat, offset: nat,
              shortened: bool, earlier: nat)
      returns (solutions: nat, ghost counted: set<seq<nat>>)
    requires Fits(words, chosen) && |chosen| == tokenIndex <= |words|
    requires offset <= |value| && Joined(words, chosen) == value[..offset]
    requires shortened <==> Shortens(words, chosen)
    ensures solutions == earlier + |counted|
    ensures forall way :: way in counted ==> Extends(words, value, chosen, way)
    ensures solutions <= 1 ==> forall way :: Extends(words, value, chosen, way) ==> way in counted
    ensures earlier <= 1 ==> (solutions == earlier <==> forall way :: !Extends(words, value, chosen, way))
    decreases |words| - tokenIndex, 1
  {
    hide Joined, Fits, Shortens, Abbreviates, Extends, WaysBelow, AllBelow;
    solutions, counted := earlier, {};
    if solutions > 1 {
      return;
    }
    if tokenIndex == |words| {
      AtTheEnd(words, value, chosen, offset, shortened);
      if offset == |value| && shortened {
        solutions := solutions + 1;
        counted := {chosen};
      }
      return;
    }
    var token := words[tokenIndex];
    var remaining := |words| - tokenIndex - 1;
    var room := |value| - offset - 2 * remaining;
    var maxLength := if |token| < room then |token| else room;
    NoneBelowTwo(words, value, chosen);
    var length := 2;
    while length <= maxLength
      invariant 2 <= length <= maxLength + 1 || length == 2
      invariant solutions == earlier + |counted|
      invariant WaysBelow(words, value, chosen, length, counted)
      invariant solutions <= 1 ==> AllBelow(words, value, chosen, length, counted)
      decreases maxLength - length
    {
      solutions, counted := TryLength(words, value, chosen, tokenIndex, offset, shortened, length, earlier, solutions, counted);
      length := length + 1;
    }
    AllAreBelow(words, value, chosen, offset, maxLength, length, counted);
    NothingCounted(words, value, chosen, counted);
  }

  lemma NothingCounted(words: seq<string>, value: string, chosen: seq<nat>, counted: set<seq<nat>>)
    requires forall way :: way in counted ==> Extends(words, value, chosen, way)
    ensures counted != {} ==> exists way :: Extends(words, value, chosen, way)
  {
    hide Extends;
    if counted != {} {
      var way :| way in counted;
    }
  }

  /** One turn of the loop of `walk`: taking `length` letters of the word, if they are next. */
  method TryLength(words: seq<string>, value: string, ghost chosen: seq<nat>, tokenIndex: nat, offset: nat, shortened: bool, length: nat,
                   ghost earlier: nat, sofar: nat, ghost before: set<seq<nat>>)
      returns (solutions: nat, ghost counted: set<seq<nat>>)
    requires Fits(words, chosen) && |chosen| == tokenIndex < |words| && 2 <= length <= |words[tokenIndex]|
    requires offset + length <= |value|
    requires Joined(words, chosen) == value[..offset] && (shortened <==> Shortens(words, chosen))
    requires sofar == earlier + |before| && WaysBelow(words, value, chosen, length, before)
    requires sofar <= 1 ==> AllBelow(words, value, chosen, length, before)
    ensures solutions == earlier + |counted| && WaysBelow(words, value, chosen, length + 1, counted)
    ensures solutions <= 1 ==> AllBelow(words, value, chosen, length + 1, counted)
    decreases |words| - tokenIndex, 0
  {
    hide Joined, Fits, Shortens, Abbreviates, Extends, WaysBelow, AllBelow;
    solutions, counted := sofar, before;
    if value[offset..offset + length] <= words[tokenIndex] {
      Taken(words, value, chosen, offset, shortened, length);
      ghost var more;
      solutions, more := Walk(words, value, chosen + [length], tokenIndex + 1, offset + length,
                              shortened || length < |words[tokenIndex]|, sofar);
      MoreBelow(words, value, chosen, length, before, more, solutions <= 1);
      counted := before + more;
    } else {
      NotTaken(words, value, chosen, offset, length);
      NoMoreBelow(words, value, chosen, length, counted);
    }
  }

  /** The ways that take fewer than `length` letters of the next word. */
  ghost predicate WaysBelow(words: seq<string>, value: string, chosen: seq<nat>, length: int, ways: set<seq<nat>>) {
    forall way :: way in ways ==> Extends(words, value, chosen, way) && |chosen| < |way| && way[|chosen|] < length
  }

  ghost predicate AllBelow(words: seq<string>, value: string, chosen: seq<nat>, length: int, ways: set<seq<nat>>) {
    forall way :: Extends(words, value, chosen, way) && |chosen| < |way| && way[|chosen|] < length ==> way in ways
  }

  lemma NoneBelowTwo(words: seq<string>, value: string, chosen: seq<nat>)
    requires |chosen| < |words|
    ensures WaysBelow(words, value, chosen, 2, {}) && AllBelow(words, value, chosen, 2, {})
  {
    hide Joined, Shortens;
  }

  lemma MoreBelow(words: seq<string>, value: string, chosen: seq<nat>, length: nat, before: set<seq<nat>>,
                  more: set<seq<nat>>, all: bool)
    requires |chosen| < |words| && WaysBelow(words, value, chosen, length, before)
    requires forall way :: way in more ==> Extends(words, value, chosen + [length], way)
    requires all ==> AllBelow(words, value, chosen, length, before)
    requires all ==> forall way :: Extends(words, value, chosen + [length], way) ==> way in more
    ensures before !! more && WaysBelow(words, value, chosen, length + 1, before + more)
    ensures all ==> AllBelow(words, value, chosen, length + 1, before + more)
  {
    NextLetter(words, value, chosen, length);
    hide Extends;
  }

  lemma NoMoreBelow(words: seq<string>, value: string, chosen: seq<nat>, length: nat, ways: set<seq<nat>>)
    requires |chosen| < |words|
    requires forall way :: Extends(words, value, chosen, way) ==> |way| == |words| && way[|chosen|] != length
    ensures WaysBelow(words, value, chosen, length, ways) ==> WaysBelow(words, value, chosen, length + 1, ways)
    ensures AllBelow(words, value, chosen, length, ways) ==> AllBelow(words, value, chosen, length + 1, ways)
  {
    hide Extends;
  }

  lemma AllAreBelow(words: seq<string>, value: string, chosen: seq<nat>, offset: nat, maxLength: int, length: nat,
                    ways: set<seq<nat>>)
    requires Fits(words, chosen) && |chosen| < |words| && offset <= |value| && Joined(words, chosen) == value[..offset]
    requires maxLength >= |words[|chosen|]| || maxLength >= |value| - offset - 2 * (|words| - |chosen| - 1)
    requires length > maxLength
    ensures WaysBelow(words, value, chosen, length, ways) ==> forall way :: way in ways ==> Extends(words, value, chosen, way)
    ensures AllBelow(words, value, chosen, length, ways) ==> forall way :: Extends(words, value, chosen, way) ==> way in ways
  {
    Exhausted(words, value, chosen, offset, maxLength);
    hide Extends, Fits, Joined;
  }

  lemma AtTheEnd(words: seq<string>, value: string, chosen: seq<nat>, offset: nat, shortened: bool)
    requires Fits(words, chosen) && |chosen| == |words| && offset <= |value| && Joined(words, chosen) == value[..offset]
    requires shortened <==> Shortens(words, chosen)
    ensures forall way :: Extends(words, value, chosen, way) <==> way == chosen && offset == |value| && shortened
  {
    forall way: seq<nat> | |way| == |words|
      ensures way[..|chosen|] == way
    {
    }
    assert value[..|value|] == value;
    assert offset != |value| ==> value[..offset] != value;
  }

  lemma Taken(words: seq<string>, value: string, chosen: seq<nat>, offset: nat, shortened: bool, length: nat)
    requires Fits(words, chosen) && |chosen| < |words| && 2 <= length <= |words[|chosen|]| && offset + length <= |value|
    requires Joined(words, chosen) == value[..offset] && value[offset..offset + length] <= words[|chosen|]
    requires shortened <==> Shortens(words, chosen)
    ensures Fits(words, chosen + [length]) && Joined(words, chosen + [length]) == value[..offset + length]
    ensures (shortened || length < |words[|chosen|]|) <==> Shortens(words, chosen + [length])
  {
    var more := chosen + [length];
    assert more[..|chosen|] == chosen;
    assert value[..offset] + value[offset..offset + length] == value[..offset + length];
    if shortened {
      var i :| 0 <= i < |chosen| && chosen[i] < |words[i]|;
      assert more[i] < |words[i]|;
    }
    assert more[|chosen|] == length;
  }

  /** The ways through one more word are the ways with that length there. */
  lemma NextLetter(words: seq<string>, value: string, chosen: seq<nat>, length: nat)
    requires |chosen| < |words|
    ensures forall way :: Extends(words, value, chosen + [length], way)
                     <==> Extends(words, value, chosen, way) && |way| == |words| && way[|chosen|] == length
  {
    hide Fits, Joined, Shortens;
    forall way: seq<nat> | |way| == |words|
      ensures way[..|chosen| + 1] == chosen + [length] <==> way[..|chosen|] == chosen && way[|chosen|] == length
    {
      assert way[..|chosen| + 1] == way[..|chosen|] + [way[|chosen|]];
    }
  }

  lemma NotTaken(words: seq<string>, value: string, chosen: seq<nat>, offset: nat, length: nat)
    requires Fits(words, chosen) && |chosen| < |words| && length <= |words[|chosen|]| && offset + length <= |value|
    requires Joined(words, chosen) == value[..offset] && !(value[offset..offset + length] <= words[|chosen|])
    ensures forall way :: Extends(words, value, chosen, way) ==> |way| == |words| && way[|chosen|] != length
  {
    hide Extends, Joined, Fits;
    forall way | Extends(words, value, chosen, way)
      ensures |way| == |words| && way[|chosen|] != length
    {
      WayContinues(words, value, chosen, way);
    }
  }

  lemma Exhausted(words: seq<string>, value: string, chosen: seq<nat>, offset: nat, maxLength: int)
    requires Fits(words, chosen) && |chosen| < |words| && offset <= |value| && Joined(words, chosen) == value[..offset]
    requires maxLength >= |words[|chosen|]| || maxLength >= |value| - offset - 2 * (|words| - |chosen| - 1)
    ensures forall way :: Extends(words, value, chosen, way) ==> |way| == |words| && 2 <= way[|chosen|] <= maxLength
  {
    hide Extends, Joined, Fits;
    forall way | Extends(words, value, chosen, way)
      ensures |way| == |words| && 2 <= way[|chosen|] <= maxLength
    {
      WayContinues(words, value, chosen, way);
    }
  }

  /** `_compact_parent_abbreviation_matches`, on the alphanumeric tokens of both names. */
  method CompactParentAbbreviationMatches(compactTokens: seq<string>, parentTokens: seq<string>) returns (matches: bool)
    ensures matches <==>
      && |compactTokens| == 1 && 2 <= |parentTokens| <= 5
      && (forall i :: 0 <= i < |parentTokens| ==> |parentTokens[i]| >= 3)
      && AbbreviatesUniquely(parentTokens, compactTokens[0])
  {
    if |compactTokens| != 1 || !(2 <= |parentTokens| <= 5) {
      return false;
    }
    if exists i :: 0 <= i < |parentTokens| && |parentTokens[i]| < 3 {
      return false;
    }
    hide Abbreviates;
    var solutions; ghost var counted;
    solutions, counted := Walk(parentTokens, compactTokens[0], [], 0, 0, false, 0);
    matches := solutions == 1;
    assert forall way :: Extends(parentTokens, compactTokens[0], [], way) <==> Abbreviates(parentTokens, compactTokens[0], way);
    OneOrNot(parentTokens, compactTokens[0], counted);
  }

  lemma OneOrNot(words: seq<string>, value: string, counted: set<seq<nat>>)
    requires forall way :: way in counted ==> Abbreviates(words, value, way)
    requires |counted| <= 1 ==> forall way :: Abbreviates(words, value, way) ==> way in counted
    ensures |counted| == 1 <==> AbbreviatesUniquely(words, value)
  {
    hide Abbreviates;
    if |counted| > 0 {
      var one :| one in counted;
      var rest := counted - {one};
      if |counted| == 1 {
        assert |rest| == 0;
        assert counted == {one};
      } else {
        assert |rest| > 0 && rest != {};
        var two :| two in rest;
        assert one != two && Abbreviates(words, value, one) && Abbreviates(words, value, two);
      }
    }
  }
}
