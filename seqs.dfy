/** Sequence utilities: reversal (Rust's `iter().rev().collect()`) and the
    values kept from a sequence of optional slots. */
module Seqs {
  import opened Wrappers

  /** The items of `s` in reverse order. */
  function Reverse<T>(s: seq<T>): (r: seq<T>)
    ensures |r| == |s|
  {
    if s == [] then [] else [s[|s| - 1]] + Reverse(s[..|s| - 1])
  }

  lemma {:induction false} ReverseAt<T>(s: seq<T>)
    ensures |Reverse(s)| == |s|
    ensures forall k :: 0 <= k < |s| ==> Reverse(s)[k] == s[|s| - 1 - k]
  {
    if s != [] {
      var init := s[..|s| - 1];
      ReverseAt(init);
      assert Reverse(s) == [s[|s| - 1]] + Reverse(init);
      forall k | 0 <= k < |s|
        ensures Reverse(s)[k] == s[|s| - 1 - k]
      {
        if k > 0 {
          assert Reverse(s)[k] == Reverse(init)[k - 1] == init[|init| - 1 - (k - 1)];
        }
      }
    }
  }

  function Entries<T>(o: Option<T>): seq<T> {
    if o.Some? then [o.value] else []
  }

  /** The values of the present slots, in order. */
  function Present<T>(s: seq<Option<T>>): (r: seq<T>)
    ensures |r| <= |s|
  {
    if s == [] then [] else Present(s[..|s| - 1]) + Entries(s[|s| - 1])
  }

  /** The indices of the present slots, in order. */
  function PresentPositions<T>(s: seq<Option<T>>): seq<nat> {
    if s == [] then []
    else PresentPositions(s[..|s| - 1]) + (if s[|s| - 1].Some? then [|s| - 1] else [])
  }

  /** The p-th present value sits at the p-th present position; positions
      increase and every present slot is listed. */
  lemma {:induction false} PresentCorrespondence<T>(s: seq<Option<T>>)
    ensures |PresentPositions(s)| == |Present(s)|
    ensures forall p, q :: 0 <= p < q < |PresentPositions(s)| ==> PresentPositions(s)[p] < PresentPositions(s)[q]
    ensures forall p :: 0 <= p < |PresentPositions(s)| ==>
      PresentPositions(s)[p] < |s| && s[PresentPositions(s)[p]] == Some(Present(s)[p])
    ensures forall j :: 0 <= j < |s| && s[j].Some? ==> j in PresentPositions(s)
  {
    if s != [] {
      var n := |s| - 1;
      var init := s[..n];
      PresentCorrespondence(init);
      assert forall j :: 0 <= j < n ==> init[j] == s[j];
    }
  }

  /** With every slot present, the values are the slots' values one for one. */
  lemma {:induction false} PresentAll<T>(s: seq<Option<T>>)
    requires forall j :: 0 <= j < |s| ==> s[j].Some?
    ensures |Present(s)| == |s|
    ensures forall k :: 0 <= k < |s| ==> s[k] == Some(Present(s)[k])
  {
    if s != [] {
      var n := |s| - 1;
      var init := s[..n];
      PresentAll(init);
      assert forall j :: 0 <= j < n ==> init[j] == s[j];
    }
  }
}
