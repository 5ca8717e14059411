/** Replacing many steps at once, and one by one: on lists of steps, and in the plan store. */
module BatchWrites {
  import opened PlanModel
  import opened Aggregates
  import opened PlanOutcome
  import opened SessionKernel

  /** One replacement after the other. */
  function FoldReplace(steps: seq<Step>, replacements: seq<Step>): (r: seq<Step>)
    ensures |r| == |steps|
    ensures forall i :: 0 <= i < |steps| ==> r[i].stepID == steps[i].stepID
  {
    if replacements == [] then steps
    else ReplaceStep(FoldReplace(steps, replacements[..|replacements|-1]), replacements[|replacements|-1])
  }

  /** Replacing all at once is replacing one by one, on plans with distinct ids. */
  lemma {:induction false} BatchIsFold(steps: seq<Step>, replacements: seq<Step>)
    requires DistinctIDs(steps)
    ensures ReplaceSteps(steps, replacements) == FoldReplace(steps, replacements)
  {
    if replacements == [] {
      assert ReplaceSteps(steps, []) == steps;
    } else {
      var front, last := replacements[..|replacements|-1], replacements[|replacements|-1];
      BatchIsFold(steps, front);
      var mid := FoldReplace(steps, front);
      var found := FindStep(mid, last.stepID);
      forall i | 0 <= i < |steps| ensures ReplaceSteps(steps, replacements)[i] == ReplaceStep(mid, last)[i] {
        assert ReplaceSteps(steps, front)[i] == mid[i];
        if steps[i].stepID == last.stepID {
          assert found.Some? && mid[found.value].stepID == mid[i].stepID;
        }
      }
    }
  }

  /** Writing the same round over its own provisional result makes no difference: the shared slice the
      provisional replacement already changed yields the same final plan. */
  lemma SecondBatchWins(steps: seq<Step>, provisional: seq<Step>, final: seq<Step>)
    requires |provisional| == |final| && forall i :: 0 <= i < |final| ==> final[i].stepID == provisional[i].stepID
    ensures ReplaceSteps(ReplaceSteps(steps, provisional), final) == ReplaceSteps(steps, final)
  {
    forall i | 0 <= i < |steps|
      ensures ReplaceSteps(ReplaceSteps(steps, provisional), final)[i] == ReplaceSteps(steps, final)[i]
    {
      if FindLast(final, steps[i].stepID).None? {
        forall k | 0 <= k < |provisional| ensures provisional[k].stepID != steps[i].stepID {
          assert final[k] in final;
        }
      }
    }
  }

  // ---- in the store ----

  /** One store write after the other. */
  ghost function FoldWrite(plans: seq<Plan>, results: seq<Step>, b: Budgets): (r: seq<Plan>)
    ensures |r| == |plans|
  {
    if results == [] then plans
    else WriteStep(FoldWrite(plans, results[..|results|-1], b), results[|results|-1], b)
  }

  /** All results are kept in plan `k`. */
  ghost predicate KeptIn(plans: seq<Plan>, results: seq<Step>, k: nat) {
    k < |plans| && forall i :: 0 <= i < |results| ==> PlanIndex(plans, results[i].planID) == k
  }

  ghost predicate Known(steps: seq<Step>, results: seq<Step>) {
    exists i :: 0 <= i < |results| && FindStep(steps, results[i].stepID).Some?
  }

  /** A fold of writes changes the plan's steps as the fold of replacements does, and its status with them. */
  lemma {:induction false} FoldWriteIs(plans: seq<Plan>, results: seq<Step>, k: nat, b: Budgets)
    requires KeptIn(plans, results, k)
    ensures var annotated := AnnotateSteps(results, plans[k].planID);
            FoldWrite(plans, results, b)
            == if Known(plans[k].steps, results) then plans[k := WithSteps(plans[k], FoldReplace(plans[k].steps, annotated), b)]
               else plans
    ensures !Known(plans[k].steps, results) ==>
              FoldReplace(plans[k].steps, AnnotateSteps(results, plans[k].planID)) == plans[k].steps
    decreases |results|, 1
  {
    if results == [] {
      assert AnnotateSteps(results, plans[k].planID) == [];
    } else {
      FoldWriteStep(plans, results, k, b);
    }
  }

  lemma {:induction false} FoldWriteStep(plans: seq<Plan>, results: seq<Step>, k: nat, b: Budgets)
    requires KeptIn(plans, results, k) && results != []
    ensures var annotated := AnnotateSteps(results, plans[k].planID);
            FoldWrite(plans, results, b)
            == if Known(plans[k].steps, results) then plans[k := WithSteps(plans[k], FoldReplace(plans[k].steps, annotated), b)]
               else plans
    ensures !Known(plans[k].steps, results) ==>
              FoldReplace(plans[k].steps, AnnotateSteps(results, plans[k].planID)) == plans[k].steps
    decreases |results|, 0
  {
    var n := |results| - 1;
    var front, last := results[..n], results[n];
    FoldWriteIs(plans, front, k, b);
    var annotated := AnnotateSteps(results, plans[k].planID);
    assert annotated[..n] == AnnotateSteps(front, plans[k].planID);
    KnownSplits(plans[k].steps, results);
    WriteOnTop(plans, k, FoldReplace(plans[k].steps, annotated[..n]), Known(plans[k].steps, front), last, b);
  }

  /** One more write onto a plan whose steps have been rewritten to `mid` before. */
  lemma WriteOnTop(plans: seq<Plan>, k: nat, mid: seq<Step>, written: bool, last: Step, b: Budgets)
    requires k < |plans| && PlanIndex(plans, last.planID) == k && |mid| == |plans[k].steps|
    requires forall i :: 0 <= i < |mid| ==> mid[i].stepID == plans[k].steps[i].stepID
    requires !written ==> mid == plans[k].steps
    ensures var found := FindStep(plans[k].steps, last.stepID).Some?;
            var after := ReplaceStep(mid, AnnotateStep(last, plans[k].planID));
            && WriteStep(if written then plans[k := WithSteps(plans[k], mid, b)] else plans, last, b)
               == (if written || found then plans[k := WithSteps(plans[k], after, b)] else plans)
            && (!found ==> after == mid)
  {
    SameIDsFound(plans[k].steps, mid, last.stepID);
  }

  lemma {:induction false} SameIDsFound(steps: seq<Step>, other: seq<Step>, id: string)
    requires |steps| == |other| && forall i :: 0 <= i < |steps| ==> steps[i].stepID == other[i].stepID
    ensures FindStep(steps, id) == FindStep(other, id)
  {
    if steps != [] {
      SameIDsFound(steps[1..], other[1..], id);
    }
  }

  lemma KnownSplits(steps: seq<Step>, results: seq<Step>)
    requires results != []
    ensures var n := |results| - 1;
            Known(steps, results) <==> Known(steps, results[..n]) || FindStep(steps, results[n].stepID).Some?
  {
    var n := |results| - 1;
    if Known(steps, results[..n]) {
      var i :| 0 <= i < n && FindStep(steps, results[..n][i].stepID).Some?;
      assert results[i] == results[..n][i];
    }
    if Known(steps, results) {
      var i :| 0 <= i < |results| && FindStep(steps, results[i].stepID).Some?;
      assert i < n ==> results[..n][i] == results[i];
    }
  }

  /** The batch finds something to replace exactly when one of the single writes does. */
  lemma KnownMeans(steps: seq<Step>, results: seq<Step>, planID: nat)
    ensures Known(steps, results) <==>
              exists i :: 0 <= i < |steps| && FindLast(AnnotateSteps(results, planID), steps[i].stepID).Some?
  {
    var annotated := AnnotateSteps(results, planID);
    if Known(steps, results) {
      var i :| 0 <= i < |results| && FindStep(steps, results[i].stepID).Some?;
      var j := FindStep(steps, results[i].stepID).value;
      assert annotated[i] in annotated;
      assert FindLast(annotated, steps[j].stepID).Some?;
    }
    if j :| 0 <= j < |steps| && FindLast(annotated, steps[j].stepID).Some? {
      var s := FindLast(annotated, steps[j].stepID).value;
      var i :| 0 <= i < |annotated| && annotated[i] == s;
      assert FindStep(steps, results[i].stepID).Some?;
    }
  }

  lemma WriteStepsAre(plans: seq<Plan>, results: seq<Step>, k: nat, b: Budgets)
    requires KeptIn(plans, results, k)
    ensures WriteSteps(plans, results, b)
            == if Known(plans[k].steps, results)
               then plans[k := WithSteps(plans[k], ReplaceSteps(plans[k].steps, AnnotateSteps(results, plans[k].planID)), b)]
               else plans
  {
    KnownMeans(plans[k].steps, results, plans[k].planID);
  }

  /** The batched store write is the fold of the single ones: same plan, same identities, same steps, same status. */
  lemma BatchWriteIsFold(plans: seq<Plan>, results: seq<Step>, k: nat, b: Budgets)
    requires KeptIn(plans, results, k) && DistinctIDs(plans[k].steps)
    ensures WriteSteps(plans, results, b) == FoldWrite(plans, results, b)
  {
    WriteStepsAre(plans, results, k, b);
    FoldWriteIs(plans, results, k, b);
    BatchIsFold(plans[k].steps, AnnotateSteps(results, plans[k].planID));
  }

  /** A batch on which the two part, when an id occurs twice. */
  lemma TwinsPart(plans: seq<Plan>, k: nat, i: nat, j: nat, b: Budgets) returns (results: seq<Step>)
    requires k < |plans| && i < j < |plans[k].steps| && plans[k].steps[i].stepID == plans[k].steps[j].stepID
    ensures KeptIn(plans, results, k) && WriteSteps(plans, results, b) != FoldWrite(plans, results, b)
  {
    var steps := plans[k].steps;
    var s := steps[j].(attempt := steps[j].attempt + 1, planID := k + 1);
    results := [s];
    assert AnnotateSteps(results, plans[k].planID) == [s];
    WriteStepsAre(plans, results, k, b);
    FoldWriteIs(plans, results, k, b);
    assert FindStep(steps, results[0].stepID).Some?;
    assert FindLast([s], steps[j].stepID) == Some(s);
    assert ReplaceSteps(steps, [s])[j] == s;
    assert FoldReplace(steps, []) == steps;
    assert FoldReplace(steps, [s]) == ReplaceStep(steps, s);
    assert FoldReplace(steps, [s])[j] == steps[j];
    assert WriteSteps(plans, results, b)[k].steps[j] != FoldWrite(plans, results, b)[k].steps[j];
  }

  /** Batch and fold of store writes agree on every batch for a plan exactly when the plan's ids are distinct. */
  lemma BatchWriteIsFoldIffDistinct(plans: seq<Plan>, k: nat, b: Budgets)
    requires k < |plans|
    ensures DistinctIDs(plans[k].steps) <==>
              forall results :: KeptIn(plans, results, k) ==> WriteSteps(plans, results, b) == FoldWrite(plans, results, b)
  {
    if DistinctIDs(plans[k].steps) {
      forall results | KeptIn(plans, results, k) ensures WriteSteps(plans, results, b) == FoldWrite(plans, results, b) {
        BatchWriteIsFold(plans, results, k, b);
      }
    } else {
      var i: nat, j: nat :| i < j < |plans[k].steps| && plans[k].steps[i].stepID == plans[k].steps[j].stepID;
      var results := TwinsPart(plans, k, i, j, b);
    }
  }
}
