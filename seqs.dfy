/** Searching a sequence from the front, as JavaScript's `find` and `findIndex` do, and the
    `|| []` default of an absent list. */
module Seqs {
  import opened Wrappers

  /** The index of the first element that satisfies `p`, or None when there is none. */
  function FirstMatch<T>(s: seq<T>, p: T -> bool): (r: Option<nat>)
    ensures r.Some? ==> r.value < |s| && p(s[r.value])
    ensures r.Some? ==> forall j :: 0 <= j < r.value ==> !p(s[j])
    ensures r.None? <==> forall j :: 0 <= j < |s| ==> !p(s[j])
  {
    if s == [] then None
    else if p(s[0]) then Some(0)
    else
      match FirstMatch(s[1..], p)
      case None => None
      case Some(k) => Some(k + 1)
  }

  /** A prefix that already holds a match decides the search: what follows it is never looked at. */
  lemma {:induction false} FirstMatchPrefix<T>(s: seq<T>, t: seq<T>, p: T -> bool)
    requires FirstMatch(s, p).Some?
    ensures FirstMatch(s + t, p) == FirstMatch(s, p)
  {
    var k := FirstMatch(s, p).value;
    assert (s + t)[k] == s[k];
    forall j | 0 <= j < k ensures (s + t)[j] == s[j] { }
  }

  /** `list || []` */
  function OrEmpty<T>(list: Option<seq<T>>): seq<T>
  {
    if list.Some? then list.value else []
  }
}
