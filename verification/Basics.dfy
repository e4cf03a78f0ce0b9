/** Small vocabulary shared by the models. */
module Basics {

  datatype Option<+T> = None | Some(value: T)

  type AgentId = string
  type TaskId = string
  type RunId = string
  type Capability = string

  /** The first position where the predicate holds, or the length. */
  function IndexWhere<T>(s: seq<T>, holds: T -> bool): (k: nat)
    ensures k <= |s| && (k < |s| ==> holds(s[k]))
  {
    if |s| == 0 || holds(s[0]) then 0 else 1 + IndexWhere(s[1..], holds)
  }

  lemma {:induction false} IndexWhereIsFirst<T>(s: seq<T>, holds: T -> bool)
    ensures forall i | 0 <= i < IndexWhere(s, holds) :: !holds(s[i])
    decreases |s|
  {
    if |s| > 0 && !holds(s[0]) {
      IndexWhereIsFirst(s[1..], holds);
      forall i | 0 <= i < IndexWhere(s, holds) ensures !holds(s[i]) {
        if i > 0 { assert s[i] == s[1..][i - 1]; }
      }
    }
  }
}
