/** The shallow, null-safe merge `update(...parts)`. */
module Merge {
  import opened Values

  /** The object an argument stands for once `update` has defaulted it: a falsy argument is `{}`. */
  function Defaulted(part: Option<State>): State {
    if part.Some? then part.value else map[]
  }

  /**
   * The result of `update(...parts)`: a fresh `{}` assigned every part in
   * turn, left to right, so that a later part's entry replaces an earlier
   * one's. Its keys are exactly the keys of the truthy parts.
   */
  function Merged(parts: seq<Option<State>>): (r: State)
    ensures forall i, k :: 0 <= i < |parts| && parts[i].Some? && k in parts[i].value ==> k in r
  {
    if parts == [] then map[]
    else Merged(parts[..|parts| - 1]) + Defaulted(parts[|parts| - 1])
  }

  /** Every key of the result comes from some truthy part. */
  lemma {:induction false} MergedKeyHasSource(parts: seq<Option<State>>, k: string)
    requires k in Merged(parts)
    ensures exists i :: 0 <= i < |parts| && parts[i].Some? && k in parts[i].value
  {
    var n := |parts|;
    if k in Defaulted(parts[n - 1]) {
      assert parts[n - 1].Some? && k in parts[n - 1].value;
    } else {
      var init := parts[..n - 1];
      MergedKeyHasSource(init, k);
      var i :| 0 <= i < |init| && init[i].Some? && k in init[i].value;
      assert parts[i] == init[i];
    }
  }

  /** A key takes the value it has in the last truthy part that holds it. */
  lemma {:induction false} MergedLastWins(parts: seq<Option<State>>, i: nat, k: string)
    requires i < |parts| && parts[i].Some? && k in parts[i].value
    requires forall j :: i < j < |parts| && parts[j].Some? ==> k !in parts[j].value
    ensures k in Merged(parts) && Merged(parts)[k] == parts[i].value[k]
  {
    var n := |parts|;
    if i < n - 1 {
      var init := parts[..n - 1];
      assert forall j :: i < j < |init| && init[j].Some? ==> k !in init[j].value by {
        forall j | i < j < |init| && init[j].Some? ensures k !in init[j].value {
          assert init[j] == parts[j];
        }
      }
      MergedLastWins(init, i, k);
      assert k !in Defaulted(parts[n - 1]);
    }
  }

  /** A falsy argument contributes nothing, wherever it stands. */
  lemma {:induction false} MergedSkipsFalsy(before: seq<Option<State>>, after: seq<Option<State>>)
    ensures Merged(before + [None] + after) == Merged(before + after)
  {
    var whole := before + [None] + after;
    if after == [] {
      assert whole[..|whole| - 1] == before;
      assert before + after == before;
      assert Merged(whole) == Merged(before) + map[];
    } else {
      var init := after[..|after| - 1];
      var last := after[|after| - 1];
      var shorter := before + after;
      MergedSkipsFalsy(before, init);
      assert whole[..|whole| - 1] == before + [None] + init;
      assert shorter[..|shorter| - 1] == before + init;
      assert whole[|whole| - 1] == last && shorter[|shorter| - 1] == last;
      assert Merged(whole) == Merged(before + [None] + init) + Defaulted(last);
      assert Merged(shorter) == Merged(before + init) + Defaulted(last);
    }
  }

  /** Two parts merge as a right-biased map union. */
  lemma MergedPair(first: Option<State>, second: Option<State>)
    ensures Merged([first, second]) == Defaulted(first) + Defaulted(second)
  {
    assert [first, second][..1] == [first];
    assert [first][..0] == [];
    assert Merged([first]) == map[] + Defaulted(first) == Defaulted(first);
  }

  /**
   * `update` as the source runs it: the copied argument list has its falsy
   * entries replaced by `{}` one by one, a fresh `{}` is put in front, and
   * `Object.assign` copies every entry into that first object in order.
   * The caller's arguments are values and are never changed.
   */
  method Update(arguments: seq<Option<State>>) returns (r: State)
    ensures r == Merged(arguments)
  {
    var args := arguments;
    for index := 0 to |args|
      invariant |args| == |arguments|
      invariant forall j :: 0 <= j < index ==> args[j] == Some(Defaulted(arguments[j]))
      invariant forall j :: index <= j < |args| ==> args[j] == arguments[j]
    {
      if args[index].None? {
        args := args[index := Some(map[])];
      }
    }
    args := [Some(map[])] + args;
    r := args[0].value;
    for i := 1 to |args|
      invariant r == Merged(arguments[..i - 1])
    {
      assert arguments[..i][..i - 1] == arguments[..i - 1];
      r := r + args[i].value;
    }
    assert arguments[..|args| - 1] == arguments;
  }
}
