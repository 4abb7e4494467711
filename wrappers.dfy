/** The optional value used across the model for absent results. */
module Wrappers {
  datatype Option<+T> = None | Some(value: T)

  /** All the values when every entry is present, `None` as soon as one is missing. */
  function AllPresent<T>(xs: seq<Option<T>>): (r: Option<seq<T>>)
    ensures r.Some? <==> forall i :: 0 <= i < |xs| ==> xs[i].Some?
    ensures r.Some? ==> |r.value| == |xs|
    ensures r.Some? ==> forall i :: 0 <= i < |xs| ==> r.value[i] == xs[i].value
  {
    if xs == [] then Some([])
    else
      var init := xs[..|xs| - 1];
      assert forall i :: 0 <= i < |init| ==> init[i] == xs[i];
      var prefix := AllPresent(init);
      if prefix.None? || xs[|xs| - 1].None? then None
      else Some(prefix.value + [xs[|xs| - 1].value])
  }

  /** The values `AllPresent` collects are determined entry by entry. */
  lemma AllPresentValues<T>(xs: seq<Option<T>>, vs: seq<T>)
    requires |vs| == |xs|
    requires forall i :: 0 <= i < |xs| ==> xs[i].Some? && xs[i].value == vs[i]
    ensures AllPresent(xs) == Some(vs)
  {
    var r := AllPresent(xs);
    assert r.value == vs;
  }
}
