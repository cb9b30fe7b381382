/** Facts about a sequence and its prefix without the last element, the
    shape in which every loop of the model is specified. */
module Prefixes {

  /** Some element of `s` satisfies `p` exactly when one of its prefix does or its last one does. */
  lemma ExistsSplit<T>(s: seq<T>, pre: seq<T>, p: T -> bool)
    requires s != [] && pre == s[..|s| - 1]
    ensures (exists i :: 0 <= i < |s| && p(s[i])) <==> (exists i :: 0 <= i < |pre| && p(pre[i])) || p(s[|s| - 1])
  {
  }
}
