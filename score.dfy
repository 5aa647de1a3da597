/** The colour and the encouragement shown for a conversation score (utils/score.ts). Scores are
    reals and only compared. */
module Score {

  const Green: string := "#55efc4"
  const Yellow: string := "#ffeaa7"
  const Red: string := "#ff7675"

  const Excellent: string := "훌륭해요!"
  const WellDone: string := "잘했어요!"
  const Good: string := "좋아요!"
  const Okay: string := "괜찮아요"
  const PracticeMore: string := "더 연습해봐요"

  /** The colour bands' lower bounds, lowest first. */
  const ColorThresholds: seq<real> := [60.0, 80.0]
  /** The label bands' lower bounds, lowest first. */
  const LabelThresholds: seq<real> := [60.0, 70.0, 80.0, 90.0]

  /** How many of the bounds the score reaches. */
  function Reached(score: real, bounds: seq<real>): (n: nat)
    ensures n <= |bounds|
  {
    if bounds == [] then 0 else (if score >= bounds[0] then 1 else 0) + Reached(score, bounds[1..])
  }

  /** The rank of a colour, red lowest; anything else is not a colour the score can get. */
  function ColorRank(color: string): int {
    if color == Red then 0 else if color == Yellow then 1 else if color == Green then 2 else -1
  }

  /** The rank of a label, 'practice more' lowest. */
  function LabelRank(text: string): int {
    if text == PracticeMore then 0 else if text == Okay then 1 else if text == Good then 2
    else if text == WellDone then 3 else if text == Excellent then 4 else -1
  }

  /** `getScoreColor`: the colour of the band the score falls in, one band per bound reached. */
  function ScoreColor(score: real): (c: string)
    ensures ColorRank(c) == Reached(score, ColorThresholds)
  {
    if score >= 80.0 then Green else if score >= 60.0 then Yellow else Red
  }

  /** `getScoreLabel`: the label of the band the score falls in, one band per bound reached. */
  function ScoreLabel(score: real): (l: string)
    ensures LabelRank(l) == Reached(score, LabelThresholds)
  {
    LabelBoundsReached(score);
    if score >= 90.0 then Excellent else if score >= 80.0 then WellDone
    else if score >= 70.0 then Good else if score >= 60.0 then Okay else PracticeMore
  }

  /** The label bounds one by one. */
  lemma LabelBoundsReached(score: real)
    ensures Reached(score, LabelThresholds) ==
      (if score >= 60.0 then 1 else 0) + (if score >= 70.0 then 1 else 0)
      + (if score >= 80.0 then 1 else 0) + (if score >= 90.0 then 1 else 0)
  {
    var t := LabelThresholds;
    assert t[1..] == [70.0, 80.0, 90.0] && t[1..][1..] == [80.0, 90.0] && t[1..][1..][1..] == [90.0];
    assert Reached(score, [90.0]) == if score >= 90.0 then 1 else 0 by {
      assert [90.0][1..] == [];
    }
    assert Reached(score, [80.0, 90.0]) == (if score >= 80.0 then 1 else 0) + Reached(score, [90.0]);
    assert Reached(score, [70.0, 80.0, 90.0]) == (if score >= 70.0 then 1 else 0) + Reached(score, [80.0, 90.0]);
  }

  /** A higher score never reaches fewer bounds. */
  lemma {:induction false} ReachedMonotone(a: real, b: real, bounds: seq<real>)
    requires a <= b
    ensures Reached(a, bounds) <= Reached(b, bounds)
  {
    if bounds != [] {
      ReachedMonotone(a, b, bounds[1..]);
    }
  }

  /** A higher score never gets a lower colour or a lower label. */
  lemma ScoreMonotone(a: real, b: real)
    requires a <= b
    ensures ColorRank(ScoreColor(a)) <= ColorRank(ScoreColor(b))
    ensures LabelRank(ScoreLabel(a)) <= LabelRank(ScoreLabel(b))
  {
    ReachedMonotone(a, b, ColorThresholds);
    ReachedMonotone(a, b, LabelThresholds);
  }

  /** The colour bands at 60 and 80 are exactly the label bands at 60 and 80. */
  lemma ColorAgreesWithLabel(score: real)
    ensures ScoreLabel(score) == Excellent || ScoreLabel(score) == WellDone <==> ScoreColor(score) == Green
    ensures ScoreLabel(score) == PracticeMore <==> ScoreColor(score) == Red
    ensures ScoreLabel(score) == Good || ScoreLabel(score) == Okay <==> ScoreColor(score) == Yellow
  {
  }

  lemma ScoreBandsAtTheBounds()
    ensures ScoreColor(80.0) == Green && ScoreColor(79.5) == Yellow && ScoreColor(60.0) == Yellow && ScoreColor(59.9) == Red
    ensures ScoreLabel(90.0) == Excellent && ScoreLabel(89.9) == WellDone && ScoreLabel(70.0) == Good
    ensures ScoreLabel(60.0) == Okay && ScoreLabel(0.0) == PracticeMore
  {
  }
}
