/** `utils::if_else`: a two-way select on reals. */
module IfElseUtil {

  function IfElse(cond: bool, ifTrue: real, ifFalse: real): (r: real)
    ensures cond ==> r == ifTrue
    ensures !cond ==> r == ifFalse
  {
    if cond then ifTrue else ifFalse
  }

  /** Selecting between equal values gives that value. */
  lemma IfElseSame(cond: bool, a: real)
    ensures IfElse(cond, a, a) == a
  {
  }

  /** Negating the condition swaps the branches. */
  lemma IfElseNegate(cond: bool, a: real, b: real)
    ensures IfElse(!cond, b, a) == IfElse(cond, a, b)
  {
  }
}
