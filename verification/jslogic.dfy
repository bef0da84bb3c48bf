/** JavaScript truthiness and the `||` operator, restricted to the optional strings the
    session handles. */
module JsLogic {
  import opened Wrappers

  /** An optional string is truthy when it is present and not the empty string:
      `undefined`, `null` and `""` are all falsy. */
  predicate Truthy(v: Option<string>) {
    v.Some? && v.value != ""
  }

  /** `a || b`: the left operand when it is truthy, otherwise the right operand as it is
      (which may itself be falsy). */
  function Or(a: Option<string>, b: Option<string>): Option<string> {
    if Truthy(a) then a else b
  }

  /** The first truthy candidate, or the last candidate when none is truthy. This is the
      prioritised lookup an identity fallback chain performs. */
  function FirstTruthy(cands: seq<Option<string>>): (r: Option<string>)
    requires |cands| >= 1
    ensures r in cands
    ensures Truthy(r) <==> exists j :: 0 <= j < |cands| && Truthy(cands[j])
    ensures Truthy(r) ==> exists j :: 0 <= j < |cands| && cands[j] == r
                                      && forall k :: 0 <= k < j ==> !Truthy(cands[k])
    ensures !Truthy(r) ==> r == cands[|cands| - 1]
    decreases |cands|
  {
    if |cands| == 1 || Truthy(cands[0]) then cands[0]
    else
      var r := FirstTruthy(cands[1..]);
      assert forall j :: 1 <= j < |cands| ==> cands[j] == cands[1..][j - 1];
      r
  }

  /** A left-nested chain `c0 || c1 || ... || cn`, as JavaScript parses it. */
  function OrChain(cands: seq<Option<string>>): Option<string>
    requires |cands| >= 1
    decreases |cands|
  {
    if |cands| == 1 then cands[0] else Or(OrChain(cands[..|cands| - 1]), cands[|cands| - 1])
  }

  /** Appending a candidate only matters when no earlier candidate is truthy. */
  lemma {:induction false} FirstTruthySnoc(cands: seq<Option<string>>, last: Option<string>)
    requires |cands| >= 1
    ensures FirstTruthy(cands + [last]) == Or(FirstTruthy(cands), last)
    decreases |cands|
  {
    var all := cands + [last];
    if |cands| > 1 && !Truthy(cands[0]) {
      assert all[1..] == cands[1..] + [last];
      FirstTruthySnoc(cands[1..], last);
    }
  }

  /** A chain of `||` evaluates to the first truthy operand, or to the last operand when
      none is truthy. */
  lemma {:induction false} OrChainIsFirstTruthy(cands: seq<Option<string>>)
    requires |cands| >= 1
    ensures OrChain(cands) == FirstTruthy(cands)
    decreases |cands|
  {
    if |cands| > 1 {
      var init := cands[..|cands| - 1];
      OrChainIsFirstTruthy(init);
      FirstTruthySnoc(init, cands[|cands| - 1]);
      assert init + [cands[|cands| - 1]] == cands;
    }
  }
}
