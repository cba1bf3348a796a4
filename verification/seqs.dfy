/** Facts about sequences of sequences used by the review tools and their runs. */
module Seqs {

  /** Concatenation of sequences is associative. */
  lemma Associative<T>(a: seq<T>, b: seq<T>, c: seq<T>)
    ensures a + b + c == a + (b + c)
  {
  }

  /** The concatenation of a sequence of sequences, in order. */
  function Concat<T>(xss: seq<seq<T>>): seq<T>
    decreases |xss|
  {
    if xss == [] then [] else Concat(xss[..|xss| - 1]) + xss[|xss| - 1]
  }

  /** An element is in the concatenation exactly when it is in one of the parts. */
  lemma {:induction false} InConcat<T>(xss: seq<seq<T>>, m: T)
    ensures m in Concat(xss) <==> exists i :: 0 <= i < |xss| && m in xss[i]
    decreases |xss|
  {
    if xss != [] {
      var last := |xss| - 1;
      var init := xss[..last];
      InConcat(init, m);
      if m in Concat(init) {
        var i :| 0 <= i < |init| && m in init[i];
        assert xss[i] == init[i];
      }
      if exists i :: 0 <= i < |xss| && m in xss[i] {
        var i :| 0 <= i < |xss| && m in xss[i];
        if i < last {
          assert xss[i] == init[i];
        }
      }
    }
  }
}
