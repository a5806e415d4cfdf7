/** How the profile view colours the writing score (components/AnalysisResult.tsx). */
module AnalysisResult {
  const SimpleClass: string := "bg-green-500"
  const ModerateClass: string := "bg-gold"
  const ComplexClass: string := "bg-purple-500"

  /** `getScoreColor`: the colour class of a score's band; the bands split at 40 and 70. */
  function ScoreColor(score: int): (c: string)
    ensures c == SimpleClass <==> score < 40
    ensures c == ModerateClass <==> 40 <= score < 70
    ensures c == ComplexClass <==> 70 <= score
  {
    if score < 40 then SimpleClass
    else if score < 70 then ModerateClass
    else ComplexClass
  }

  /** The position of a colour class from simplest to most complex. */
  function Rank(c: string): nat
  {
    if c == SimpleClass then 0 else if c == ModerateClass then 1 else 2
  }

  /** A higher score never gets a simpler colour. */
  lemma ScoreColorMonotone(a: int, b: int)
    requires a <= b
    ensures Rank(ScoreColor(a)) <= Rank(ScoreColor(b))
  {
  }
}
