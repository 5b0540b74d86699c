/**
 The difficulty resolver: a requested difficulty wins unless it is empty or
 "auto", in which case the position of the question in the interview decides.
 */
module Difficulty {

  /** The three levels the server derives by itself. */
  datatype Level = Easy | Medium | Hard {

    /** The string the server uses for the level. */
    function Name(): (s: string)
      ensures s != "" && s != "auto"
    {
      match this
      case Easy => "easy"
      case Medium => "medium"
      case Hard => "hard"
    }

    /** Position of the level in the order easy < medium < hard. */
    function Rank(): (k: nat)
      ensures k < 3
    {
      match this
      case Easy => 0
      case Medium => 1
      case Hard => 2
    }
  }

  /** An automatic difficulty: one of the level names. */
  predicate IsLevelName(s: string) {
    s == "easy" || s == "medium" || s == "hard"
  }

  /** A requested difficulty that overrides the automatic one: a truthy string
      other than "auto". */
  predicate IsOverride(baseDifficulty: string) {
    baseDifficulty != "" && baseDifficulty != "auto"
  }

  /** The level for a 0-based question index: the first two questions are
      easy, the next two medium, the rest hard. */
  function LevelAt(questionIndex: int): (l: Level)
    ensures l == Easy <==> questionIndex <= 1
    ensures l == Hard <==> questionIndex >= 4
  {
    if questionIndex <= 1 then Easy
    else if questionIndex <= 3 then Medium
    else Hard
  }

  /** `inferDifficulty(baseDifficulty, questionIndex)`. */
  function InferDifficulty(baseDifficulty: string, questionIndex: int): (d: string)
    ensures d != ""
    ensures IsOverride(baseDifficulty) ==> d == baseDifficulty
    ensures !IsOverride(baseDifficulty) ==> IsLevelName(d) && d == LevelAt(questionIndex).Name()
  {
    if IsOverride(baseDifficulty) then baseDifficulty else LevelAt(questionIndex).Name()
  }

  /** An override is returned unchanged, whatever the index. */
  lemma OverrideIgnoresIndex(baseDifficulty: string, i: int, j: int)
    requires IsOverride(baseDifficulty)
    ensures InferDifficulty(baseDifficulty, i) == InferDifficulty(baseDifficulty, j) == baseDifficulty
  {
  }

  /** With "auto" or an empty request, the index bands decide. */
  lemma AutoBands(baseDifficulty: string, questionIndex: int)
    requires !IsOverride(baseDifficulty)
    ensures questionIndex <= 1 ==> InferDifficulty(baseDifficulty, questionIndex) == "easy"
    ensures 2 <= questionIndex <= 3 ==> InferDifficulty(baseDifficulty, questionIndex) == "medium"
    ensures 4 <= questionIndex ==> InferDifficulty(baseDifficulty, questionIndex) == "hard"
  {
  }

  /** The automatic difficulty never decreases as the interview goes on. */
  lemma AutoMonotone(i: int, j: int)
    requires i <= j
    ensures LevelAt(i).Rank() <= LevelAt(j).Rank()
  {
  }
}
