/** Peak selection: the stable argmax of the derivative sequence. */
module Peak {

  /** `np.argmax`: the index of the largest entry; on ties, the first one. */
  function ArgMax(s: seq<real>): (k: nat)
    requires |s| > 0
    ensures k < |s|
    ensures forall j :: 0 <= j < |s| ==> s[j] <= s[k]
    ensures forall j :: 0 <= j < k ==> s[j] < s[k]
  {
    if |s| == 1 then 0
    else
      var m := ArgMax(s[..|s| - 1]);
      if s[m] < s[|s| - 1] then |s| - 1 else m
  }

  /** The two properties of ArgMax single out one index: a maximum with no
      equal entry before it is the one ArgMax returns. */
  lemma ArgMaxUnique(s: seq<real>, k: nat)
    requires k < |s|
    ensures (forall j :: 0 <= j < |s| ==> s[j] <= s[k]) && (forall j :: 0 <= j < k ==> s[j] < s[k])
            <==> k == ArgMax(s)
  {
  }

  /** Two equal maxima: the earlier one is selected. */
  lemma ArgMaxTieBreak()
    ensures ArgMax([1.0, 3.0, 2.0, 3.0]) == 1
  {
  }
}
