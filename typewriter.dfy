/** The typing effect of frontend/src/components/ui/typewriter.tsx. The
    timers only decide when the next step happens, so the component is a
    state (index, subIndex, deleting) and one step function that does what
    the effect at lines 41-66, followed by the reset at lines 68-71, does
    when its timeout fires. */
module Typewriter {

  datatype TypeState = TypeState(index: nat, subIndex: nat, deleting: bool)

  /** `words[index % words.length] ?? ""`. */
  function CurrentWord(words: seq<string>, index: nat): string
  {
    if |words| == 0 then "" else words[index % |words|]
  }

  /** The text shown: `currentWord.slice(0, subIndex)`. */
  function Text(words: seq<string>, s: TypeState): (t: string)
    ensures t <= CurrentWord(words, s.index)
    ensures s.subIndex <= |CurrentWord(words, s.index)| ==> |t| == s.subIndex
  {
    var w := CurrentWord(words, s.index);
    if s.subIndex <= |w| then w[..s.subIndex] else w
  }

  /** The cursor is within the current word. */
  ghost predicate Valid(words: seq<string>, s: TypeState)
  {
    (|words| > 0 ==> s.index < |words|) && s.subIndex <= |CurrentWord(words, s.index)|
  }

  /** One step. An empty word makes none; a fully typed word only starts
      deleting; a fully deleted word moves to the next word, or stays put at
      the last word when not looping; otherwise one character is typed or
      deleted. */
  function Step(words: seq<string>, loop: bool, s: TypeState): (t: TypeState)
    ensures Valid(words, s) ==> Valid(words, t)
    ensures CurrentWord(words, s.index) == "" ==> t == s
    ensures t.index != s.index ==> t == TypeState((s.index + 1) % |words|, 0, false)
  {
    var w := CurrentWord(words, s.index);
    if w == "" then s
    else if !s.deleting && s.subIndex == |w| then s.(deleting := true)
    else if s.deleting && s.subIndex == 0 then
      if !loop && s.index + 1 >= |words| then s
      else TypeState((s.index + 1) % |words|, 0, false)
    else if s.deleting then s.(subIndex := s.subIndex - 1)
    else s.(subIndex := s.subIndex + 1)
  }

  /** While typing or deleting a step moves the cursor by exactly one; a
      fully typed word only starts deleting; a word change resets the
      cursor. */
  lemma StepMovesByOne(words: seq<string>, loop: bool, s: TypeState)
    requires Valid(words, s) && CurrentWord(words, s.index) != ""
    ensures var t, n := Step(words, loop, s), |CurrentWord(words, s.index)|;
      && (!s.deleting && s.subIndex < n ==> t == s.(subIndex := s.subIndex + 1))
      && (s.deleting && s.subIndex > 0 ==> t == s.(subIndex := s.subIndex - 1))
      && (!s.deleting && s.subIndex == n ==> t == s.(deleting := true))
      && (t.index != s.index ==> t.subIndex == 0 && !t.deleting)
  {
  }

  function Steps(words: seq<string>, loop: bool, s: TypeState, k: nat): TypeState
    decreases k
  {
    if k == 0 then s else Steps(words, loop, Step(words, loop, s), k - 1)
  }

  lemma {:induction false} TypesToEnd(words: seq<string>, loop: bool, s: TypeState)
    requires Valid(words, s) && !s.deleting && CurrentWord(words, s.index) != ""
    ensures Steps(words, loop, s, |CurrentWord(words, s.index)| - s.subIndex)
         == s.(subIndex := |CurrentWord(words, s.index)|)
    decreases |CurrentWord(words, s.index)| - s.subIndex
  {
    if s.subIndex < |CurrentWord(words, s.index)| {
      TypesToEnd(words, loop, Step(words, loop, s));
    }
  }

  lemma {:induction false} DeletesToStart(words: seq<string>, loop: bool, s: TypeState)
    requires Valid(words, s) && s.deleting && CurrentWord(words, s.index) != ""
    ensures Steps(words, loop, s, s.subIndex) == s.(subIndex := 0)
    decreases s.subIndex
  {
    if s.subIndex > 0 {
      DeletesToStart(words, loop, Step(words, loop, s));
    }
  }

  lemma {:induction false} StepsAdd(words: seq<string>, loop: bool, s: TypeState, j: nat, k: nat)
    ensures Steps(words, loop, s, j + k) == Steps(words, loop, Steps(words, loop, s, j), k)
    decreases j
  {
    if j > 0 {
      StepsAdd(words, loop, Step(words, loop, s), j - 1, k);
    }
  }

  /** A word of length L > 0 is typed, held, deleted and left in exactly
      2L + 2 steps, landing on the next word (wrapping round) with the
      cursor at 0, unless looping is off and it was the last word. */
  lemma WordCycle(words: seq<string>, loop: bool, i: nat)
    requires i < |words| && words[i] != ""
    requires loop || i + 1 < |words|
    ensures Steps(words, loop, TypeState(i, 0, false), 2 * |words[i]| + 2)
         == TypeState((i + 1) % |words|, 0, false)
  {
    var L := |words[i]|;
    var s0 := TypeState(i, 0, false);
    assert CurrentWord(words, i) == words[i];
    TypesToEnd(words, loop, s0);
    var s1 := TypeState(i, L, false);
    var s2 := TypeState(i, L, true);
    assert Steps(words, loop, s1, 1) == s2;
    DeletesToStart(words, loop, s2);
    var s3 := TypeState(i, 0, true);
    assert Steps(words, loop, s3, 1) == TypeState((i + 1) % |words|, 0, false);
    StepsAdd(words, loop, s0, L, 1);
    StepsAdd(words, loop, s0, L + 1, L);
    StepsAdd(words, loop, s0, 2 * L + 1, 1);
  }

  /** With looping off, the last word, once deleted, stays deleted. */
  lemma StopsAfterLastWord(words: seq<string>, k: nat)
    requires |words| > 0 && words[|words| - 1] != ""
    ensures Steps(words, false, TypeState(|words| - 1, 0, true), k) == TypeState(|words| - 1, 0, true)
  {
    var s := TypeState(|words| - 1, 0, true);
    assert CurrentWord(words, s.index) == words[|words| - 1];
    assert Step(words, false, s) == s;
    StepsStay(words, false, s, k);
  }

  lemma {:induction false} StepsStay(words: seq<string>, loop: bool, s: TypeState, k: nat)
    requires Step(words, loop, s) == s
    ensures Steps(words, loop, s, k) == s
    decreases k
  {
    if k > 0 {
      StepsStay(words, loop, s, k - 1);
    }
  }

  class TypewriterState {
    const words: seq<string>
    const loop: bool
    var index: nat
    var subIndex: nat
    var deleting: bool

    function State(): TypeState
      reads this
    {
      TypeState(index, subIndex, deleting)
    }

    constructor (words: seq<string>, loop: bool)
      ensures this.words == words && this.loop == loop
      ensures State() == TypeState(0, 0, false) && Valid(words, State())
    {
      this.words, this.loop := words, loop;
      index, subIndex, deleting := 0, 0, false;
    }

    /** The text currently rendered before the caret. */
    function Shown(): (t: string)
      reads this
      ensures t <= CurrentWord(words, index)
    {
      Text(words, State())
    }

    /** One timer firing. */
    method Tick()
      modifies this
      ensures State() == Step(words, loop, old(State()))
    {
      var w := if |words| == 0 then "" else words[index % |words|];
      if w == "" {
        return;
      }
      if !deleting && subIndex == |w| {
        deleting := true;
        return;
      }
      if deleting && subIndex == 0 {
        var next := index + 1;
        if !loop && next >= |words| {
          return;
        }
        deleting := false;
        index := next % |words|;
        subIndex := 0;
        return;
      }
      if deleting {
        subIndex := subIndex - 1;
      } else {
        subIndex := subIndex + 1;
      }
    }
  }
}
