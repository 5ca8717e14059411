/** What a fan-out round that took place leaves: of every step of the plan, of the log, and of the session. */
module RoundResults {
  import opened PlanModel
  import opened Aggregates
  import opened PlanOutcome
  import opened StepSelection
  import opened SessionKernel
  import opened StepCalls
  import opened RoundCalls
  import DriverBudget

  // ---- who succeeds ----

  predicate Denied(s: Step, a: Answers) {
    a.policy(s.stepID).Deny?
  }

  /** Takes part and is not denied: its tool is invoked. */
  predicate Runs(s: Step, selected: Step, b: Budgets, a: Answers) {
    TakesPart(s, selected, b, a) && !Denied(s, a)
  }

  /** On the step's own account: its verifier's word, or, if it is verified with its aggregate, the tool's. */
  predicate OwnSuccess(s: Step, a: Answers) {
    if s.metadata.verifyAggregate then a.toolOK(s.stepID) && !a.toolFailed(s.stepID) else a.verifierOK(s.stepID)
  }

  /** The same step, an attempt on. */
  predicate AttemptOn(before: Step, after: Step) {
    && after == before.(attempt := before.attempt + 1, status := after.status, metadata := after.metadata)
    && after.metadata == before.metadata.(retryNotBefore := after.metadata.retryNotBefore)
  }

  /** The plan with every step that took part counted on its own account. */
  ghost predicate Provisional(latest: seq<Step>, counted: seq<Step>, selected: Step, b: Budgets, a: Answers) {
    && |counted| == |latest|
    && forall i :: 0 <= i < |latest| ==>
         if TakesPart(latest[i], selected, b, a)
         then AttemptOn(latest[i], counted[i])
              && counted[i].status == (if !Denied(latest[i], a) && OwnSuccess(latest[i], a) then Completed else Failed)
         else counted[i] == latest[i]
  }

  /** The last step of the round that runs and is verified with its aggregate. */
  ghost predicate LastOfAggregate(latest: seq<Step>, selected: Step, i: nat, b: Budgets, a: Answers) {
    && i < |latest| && Runs(latest[i], selected, b, a) && latest[i].metadata.verifyAggregate
    && forall j :: i < j < |latest| && Runs(latest[j], selected, b, a) ==> !latest[j].metadata.verifyAggregate
  }

  /** It decides for the aggregate, once all members are done with. */
  ghost predicate Settles(latest: seq<Step>, counted: seq<Step>, selected: Step, i: nat, b: Budgets, a: Answers) {
    && LastOfAggregate(latest, selected, i, b, a) && latest[i].metadata.aggregateVerify
    && VerificationReady(counted, latest[i].metadata.aggregateID, b)
  }

  ghost predicate Done(latest: seq<Step>, counted: seq<Step>, selected: Step, i: nat, b: Budgets, a: Answers)
    requires i < |latest|
  {
    && Runs(latest[i], selected, b, a)
    && if Settles(latest, counted, selected, i, b, a) then a.aggregateOK(latest[i].stepID) && a.toolOK(latest[i].stepID)
       else OwnSuccess(latest[i], a)
  }

  /** A step that failed and is tried again in its place, by way of recovery or of another look. */
  predicate TriedAgain(s: Step, b: Budgets) {
    && s.status.Failed? && !OutOfAttempts(s, b)
    && s.onFail.strategy != "abort" && s.onFail.strategy != "replan"
  }

  /** What becomes of step `i`. */
  ghost predicate StepLeft(latest: seq<Step>, counted: seq<Step>, after: seq<Step>, selected: Step, i: nat, b: Budgets, a: Answers)
    requires i < |latest| && i < |after|
  {
    var s, t := latest[i], after[i];
    if TakesPart(s, selected, b, a) then
      && AttemptOn(s, t)
      && t.status == (if Done(latest, counted, selected, i, b, a) then Completed else Failed)
      && t.metadata.retryNotBefore
         == (if Denied(s, a) then s.metadata.retryNotBefore
             else if TriedAgain(t, b) && s.onFail.backoffMS > 0 then Some(a.now + s.onFail.backoffMS)
             else None)
    else t == s
  }

  // ---- outcomes, one by one ----

  lemma HeldBackAfter(ran: Step, verified: bool, b: Budgets, now: int)
    requires ran.status == if verified then Completed else Failed
    ensures var t := WithBackoff(ran, PhaseAfterStep(ran, verified, b), now);
            t == ran.(metadata := ran.metadata.(retryNotBefore :=
                   if TriedAgain(ran, b) && ran.onFail.backoffMS > 0 then Some(now + ran.onFail.backoffMS) else None))
  {
    OutOfAttemptsIs(ran, b);
  }

  /** The outcome of one step with this success. */
  predicate OutcomeOf(s: Step, t: Step, done: bool, b: Budgets, a: Answers) {
    && AttemptOn(s, t) && t.status == (if done then Completed else Failed)
    && t.metadata.retryNotBefore
       == (if Denied(s, a) then s.metadata.retryNotBefore
           else if TriedAgain(t, b) && s.onFail.backoffMS > 0 then Some(a.now + s.onFail.backoffMS)
           else None)
  }

  ghost predicate FromPolicy(w: World, p: PreparedStep, a: Answers) {
    !p.decision.Ask? && (p.decision, p.basis) == DecisionFor(w.approvals, p.step, None, a) && p.scope == a.scopeOf(p.step)
  }

  lemma OwnOutcome(w: World, p: PreparedStep, b: Budgets, a: Answers)
    requires FromPolicy(w, p, a)
    ensures p.decision.Deny? <==> Denied(p.step, a)
    ensures OutcomeOf(p.step, RoundOutcome(p, b, a), !Denied(p.step, a) && OwnSuccess(p.step, a), b, a)
  {
    if !Denied(p.step, a) {
      var verified := OwnSuccess(p.step, a);
      var ran := p.step.(attempt := p.step.attempt + 1, status := if verified then Completed else Failed);
      HeldBackAfter(ran, verified, b, a.now);
    }
  }

  // ---- the plan with results in it ----

  ghost predicate AtPlaces(latest: seq<Step>, results: seq<Step>, places: seq<nat>) {
    && |places| == |results|
    && (forall m :: 0 <= m < |results| ==> places[m] < |latest| && latest[places[m]].stepID == results[m].stepID)
    && (forall m, n :: 0 <= m < n < |places| ==> places[m] < places[n])
  }

  lemma ReplacedAtPlaces(latest: seq<Step>, results: seq<Step>, places: seq<nat>)
    requires DistinctIDs(latest) && AtPlaces(latest, results, places)
    ensures forall m :: 0 <= m < |results| ==> ReplaceSteps(latest, results)[places[m]] == results[m]
    ensures forall i :: 0 <= i < |latest| && i !in places ==> ReplaceSteps(latest, results)[i] == latest[i]
  {
    forall m | 0 <= m < |results| ensures ReplaceSteps(latest, results)[places[m]] == results[m] {
      FoundAtPlace(latest, results, places, places[m], m);
    }
    forall i | 0 <= i < |latest| && i !in places ensures ReplaceSteps(latest, results)[i] == latest[i] {
      FoundNowhere(latest, results, places, i);
    }
  }

  lemma FoundNowhere(latest: seq<Step>, results: seq<Step>, places: seq<nat>, i: nat)
    requires DistinctIDs(latest) && AtPlaces(latest, results, places) && i < |latest| && i !in places
    ensures FindLast(results, latest[i].stepID).None?
  {
    forall r | r in results ensures r.stepID != latest[i].stepID {
      var n :| 0 <= n < |results| && results[n] == r;
      assert places[n] in places && places[n] != i;
    }
  }

  lemma FoundAtPlace(latest: seq<Step>, results: seq<Step>, places: seq<nat>, i: nat, m: nat)
    requires DistinctIDs(latest) && AtPlaces(latest, results, places) && m < |results| && i == places[m]
    ensures FindLast(results, latest[i].stepID) == Some(results[m])
  {
    assert results[m] in results;
    match FindLast(results, latest[i].stepID)
    case None =>
    case Some(r) =>
      var n :| 0 <= n < |results| && results[n] == r;
      assert latest[places[n]].stepID == latest[i].stepID;
  }

  // ---- the last of the aggregate ----

  lemma {:induction false} LastAggregateIs(ps: seq<PreparedStep>)
    ensures match LastAggregateIndex(ps)
            case Some(k) => forall m :: k < m < |ps| ==> ps[m].decision.Deny? || !ps[m].step.metadata.verifyAggregate
            case None => forall m :: 0 <= m < |ps| ==> ps[m].decision.Deny? || !ps[m].step.metadata.verifyAggregate
  {
    if ps != [] {
      LastAggregateIs(ps[..|ps|-1]);
    }
  }

  /** What is known of a round that is prepared. */
  ghost predicate RoundOf(w: World, latest: seq<Step>, selected: Step, b: Budgets, a: Answers, ps: seq<PreparedStep>, places: seq<nat>) {
    && DistinctIDs(latest) && PreparedAt(latest, selected, b, a, ps, places)
    && forall m :: 0 <= m < |ps| ==> FromPolicy(w, ps[m], a)
  }

  lemma DeniedAt(w: World, latest: seq<Step>, selected: Step, b: Budgets, a: Answers, ps: seq<PreparedStep>, places: seq<nat>, m: nat)
    requires RoundOf(w, latest, selected, b, a, ps, places) && m < |ps|
    ensures places[m] < |latest| && latest[places[m]] == ps[m].step && TakesPart(ps[m].step, selected, b, a)
    ensures ps[m].decision.Deny? <==> Denied(ps[m].step, a)
    ensures Runs(ps[m].step, selected, b, a) <==> !ps[m].decision.Deny?
  {
    assert places[m] in places && FromPolicy(w, ps[m], a);
    OwnOutcome(w, ps[m], b, a);
  }

  lemma PlaceOf(latest: seq<Step>, selected: Step, b: Budgets, a: Answers, ps: seq<PreparedStep>, places: seq<nat>, i: nat)
    returns (m: nat)
    requires PreparedAt(latest, selected, b, a, ps, places) && i < |latest| && TakesPart(latest[i], selected, b, a)
    ensures m < |ps| && places[m] == i && ps[m].step == latest[i]
  {
    assert i in places;
    m :| 0 <= m < |places| && places[m] == i;
  }

  lemma LastIsNone(w: World, latest: seq<Step>, selected: Step, b: Budgets, a: Answers, ps: seq<PreparedStep>, places: seq<nat>, m: nat)
    requires RoundOf(w, latest, selected, b, a, ps, places) && m < |ps|
    requires forall n :: m < n < |ps| && !ps[n].decision.Deny? ==> !ps[n].step.metadata.verifyAggregate
    ensures forall j :: places[m] < j < |latest| && Runs(latest[j], selected, b, a) ==> !latest[j].metadata.verifyAggregate
  {
    forall j | places[m] < j < |latest| && Runs(latest[j], selected, b, a) ensures !latest[j].metadata.verifyAggregate {
      var n := PlaceOf(latest, selected, b, a, ps, places, j);
      DeniedAt(w, latest, selected, b, a, ps, places, n);
    }
  }

  /** The index the code keeps is that of the last step of the aggregate. */
  lemma LastIsAt(w: World, latest: seq<Step>, selected: Step, b: Budgets, a: Answers, ps: seq<PreparedStep>, places: seq<nat>, m: nat)
    requires RoundOf(w, latest, selected, b, a, ps, places) && m < |ps|
    ensures places[m] < |latest| && (LastAggregateIndex(ps) == Some(m) <==> LastOfAggregate(latest, selected, places[m], b, a))
  {
    LastAggregateIs(ps);
    DeniedAt(w, latest, selected, b, a, ps, places, m);
    if LastAggregateIndex(ps) == Some(m) {
      LastIsNone(w, latest, selected, b, a, ps, places, m);
    }
    if LastOfAggregate(latest, selected, places[m], b, a) {
      if k :| 0 <= k < |ps| && LastAggregateIndex(ps) == Some(k) {
        DeniedAt(w, latest, selected, b, a, ps, places, k);
      }
    }
  }

  // ---- what is left of the plan ----

  lemma CountedIs(w: World, latest: seq<Step>, selected: Step, b: Budgets, a: Answers, ps: seq<PreparedStep>, places: seq<nat>)
    requires RoundOf(w, latest, selected, b, a, ps, places)
    ensures AtPlaces(latest, RoundOutcomes(ps, b, a), places)
    ensures Provisional(latest, ReplaceSteps(latest, RoundOutcomes(ps, b, a)), selected, b, a)
  {
    var outcomes := RoundOutcomes(ps, b, a);
    forall m | 0 <= m < |ps|
      ensures OutcomeOf(ps[m].step, outcomes[m], !Denied(ps[m].step, a) && OwnSuccess(ps[m].step, a), b, a)
    {
      assert FromPolicy(w, ps[m], a);
      OwnOutcome(w, ps[m], b, a);
    }
    ReplacedAtPlaces(latest, outcomes, places);
    var counted := ReplaceSteps(latest, outcomes);
    forall i | 0 <= i < |latest|
      ensures if TakesPart(latest[i], selected, b, a)
              then AttemptOn(latest[i], counted[i])
                   && counted[i].status == (if !Denied(latest[i], a) && OwnSuccess(latest[i], a) then Completed else Failed)
              else counted[i] == latest[i]
    {
      if TakesPart(latest[i], selected, b, a) {
        var m := PlaceOf(latest, selected, b, a, ps, places, i);
      } else {
        assert i !in places;
      }
    }
  }

  lemma SettledOutcome(s: Step, outcome: Step, verified: bool, b: Budgets, a: Answers)
    requires AttemptOn(s, outcome) && !Denied(s, a)
    ensures var ran := outcome.(status := if verified then Completed else Failed);
            OutcomeOf(s, WithBackoff(ran, PhaseAfterStep(ran, verified, b), a.now), verified, b, a)
  {
    HeldBackAfter(outcome.(status := if verified then Completed else Failed), verified, b, a.now);
  }

  /** The step's own outcome, or the aggregate's decision. */
  lemma {:induction false} ResultChoice(latest: seq<Step>, ps: seq<PreparedStep>, b: Budgets, a: Answers, m: nat, outcome: Step, counted: seq<Step>)
    requires m < |ps| && outcome == RoundOutcomes(ps, b, a)[m] && counted == ReplaceSteps(latest, RoundOutcomes(ps, b, a))
    requires exists s :: s in counted && MemberOf(s, outcome.metadata.aggregateID)
    ensures var verified := a.aggregateOK(outcome.stepID) && a.toolOK(outcome.stepID);
            var ran := outcome.(status := if verified then Completed else Failed);
            RoundResults(latest, ps, b, a)[m]
            == if LastAggregateIndex(ps) == Some(m) && outcome.metadata.aggregateVerify && outcome.metadata.aggregateID != ""
                  && VerificationReady(counted, outcome.metadata.aggregateID, b)
               then WithBackoff(ran, PhaseAfterStep(ran, verified, b), a.now) else outcome
  {
  }

  lemma MemberCounted(latest: seq<Step>, counted: seq<Step>, selected: Step, b: Budgets, a: Answers, i: nat)
    requires Provisional(latest, counted, selected, b, a) && i < |latest| && TakesPart(latest[i], selected, b, a)
    ensures AttemptOn(latest[i], counted[i]) && counted[i] in counted && MemberOf(counted[i], latest[i].metadata.aggregateID)
  {
  }

  /** The result of a step that took part, the aggregate's decision included. */
  lemma ResultIs(w: World, latest: seq<Step>, selected: Step, b: Budgets, a: Answers, ps: seq<PreparedStep>, places: seq<nat>, m: nat)
    requires RoundOf(w, latest, selected, b, a, ps, places) && m < |ps|
    ensures var counted := ReplaceSteps(latest, RoundOutcomes(ps, b, a));
            && places[m] < |latest|
            && OutcomeOf(ps[m].step, RoundResults(latest, ps, b, a)[m], Done(latest, counted, selected, places[m], b, a), b, a)
  {
    var outcome, counted := RoundOutcomes(ps, b, a)[m], ReplaceSteps(latest, RoundOutcomes(ps, b, a));
    CountedIs(w, latest, selected, b, a, ps, places);
    DeniedAt(w, latest, selected, b, a, ps, places, m);
    LastIsAt(w, latest, selected, b, a, ps, places, m);
    assert FromPolicy(w, ps[m], a);
    OwnOutcome(w, ps[m], b, a);
    MemberCounted(latest, counted, selected, b, a, places[m]);
    ResultChoice(latest, ps, b, a, m, outcome, counted);
    if Settles(latest, counted, selected, places[m], b, a) {
      SettledOutcome(ps[m].step, outcome, a.aggregateOK(ps[m].step.stepID) && a.toolOK(ps[m].step.stepID), b, a);
    }
  }

  lemma StepLeftAt(latest: seq<Step>, counted: seq<Step>, after: seq<Step>, selected: Step, i: nat, b: Budgets, a: Answers)
    requires i < |latest| && i < |after|
    requires if TakesPart(latest[i], selected, b, a)
             then OutcomeOf(latest[i], after[i], Done(latest, counted, selected, i, b, a), b, a) else after[i] == latest[i]
    ensures StepLeft(latest, counted, after, selected, i, b, a)
  {
  }

  lemma PlanLeft(w: World, latest: seq<Step>, selected: Step, b: Budgets, a: Answers, ps: seq<PreparedStep>, places: seq<nat>)
    requires RoundOf(w, latest, selected, b, a, ps, places)
    ensures var counted, after := ReplaceSteps(latest, RoundOutcomes(ps, b, a)), ReplaceSteps(latest, RoundResults(latest, ps, b, a));
            forall i :: 0 <= i < |latest| ==> StepLeft(latest, counted, after, selected, i, b, a)
  {
    var counted, results := ReplaceSteps(latest, RoundOutcomes(ps, b, a)), RoundResults(latest, ps, b, a);
    forall m | 0 <= m < |ps|
      ensures places[m] < |latest| && OutcomeOf(ps[m].step, results[m], Done(latest, counted, selected, places[m], b, a), b, a)
    {
      ResultIs(w, latest, selected, b, a, ps, places, m);
    }
    ReplacedAtPlaces(latest, results, places);
    forall i | 0 <= i < |latest| ensures StepLeft(latest, counted, ReplaceSteps(latest, results), selected, i, b, a) {
      if TakesPart(latest[i], selected, b, a) {
        var m := PlaceOf(latest, selected, b, a, ps, places, i);
      } else {
        assert i !in places;
      }
      StepLeftAt(latest, counted, ReplaceSteps(latest, results), selected, i, b, a);
    }
  }

  // ---- what is left of the log ----

  /** The policy allows it, or asks and a standing approval of the step's own scope answers: that is the word it runs on. */
  ghost predicate OnWord(w: World, s: Step, inv: Invocation, a: Answers) {
    && inv.planID == s.planID && inv.stepID == s.stepID && inv.scope == a.scopeOf(s)
    && match inv.basis
       case PolicyAllowed => a.policy(s.stepID).Allow?
       case ByApproval(id) => a.policy(s.stepID).Ask? && StandingFor(w.approvals, id, a.scopeOf(s))
  }

  ghost predicate OfRunner(w: World, latest: seq<Step>, selected: Step, inv: Invocation, b: Budgets, a: Answers) {
    exists i :: 0 <= i < |latest| && Runs(latest[i], selected, b, a) && OnWord(w, latest[i], inv, a)
  }

  predicate Invoked(news: seq<Invocation>, id: string) {
    exists j :: 0 <= j < |news| && news[j].stepID == id
  }

  /** Exactly the steps that run are invoked, each once. */
  ghost predicate NewsLeft(w: World, news: seq<Invocation>, latest: seq<Step>, selected: Step, b: Budgets, a: Answers) {
    && (forall j :: 0 <= j < |news| ==> OfRunner(w, latest, selected, news[j], b, a))
    && (forall i :: 0 <= i < |latest| && Runs(latest[i], selected, b, a) ==> Invoked(news, latest[i].stepID))
    && (forall j, k :: 0 <= j < k < |news| ==> news[j].stepID != news[k].stepID)
  }

  predicate Of(inv: Invocation, p: PreparedStep) {
    inv.planID == p.step.planID && inv.stepID == p.step.stepID && inv.scope == p.scope && inv.basis == p.basis
  }

  lemma OneMoreInvocation(ps: seq<PreparedStep>)
    requires ps != []
    ensures var n := |ps| - 1;
            if ps[n].decision.Deny? then RoundInvocations(ps) == RoundInvocations(ps[..n])
            else |RoundInvocations(ps)| == |RoundInvocations(ps[..n])| + 1 && RoundInvocations(ps[..n]) <= RoundInvocations(ps)
                 && Of(RoundInvocations(ps)[|RoundInvocations(ps[..n])|], ps[n])
  {
  }

  /** Who is not denied, in order. */
  function Undenied(ps: seq<PreparedStep>): (order: seq<nat>)
    ensures forall j :: 0 <= j < |order| ==> order[j] < |ps|
    ensures forall j, k :: 0 <= j < k < |order| ==> order[j] < order[k]
    ensures forall m :: m in order <==> 0 <= m < |ps| && !ps[m].decision.Deny?
  {
    if ps == [] then []
    else
      var n := |ps| - 1;
      var front := Undenied(ps[..n]);
      if ps[n].decision.Deny? then front else front + [n]
  }

  /** The invocations are those of the steps not denied, in their order. */
  lemma {:induction false} InvocationsAre(ps: seq<PreparedStep>)
    ensures |Undenied(ps)| == |RoundInvocations(ps)|
    ensures forall j :: 0 <= j < |Undenied(ps)| ==> Of(RoundInvocations(ps)[j], ps[Undenied(ps)[j]])
  {
    if ps != [] {
      var n := |ps| - 1;
      OneMoreInvocation(ps);
      InvocationsAre(ps[..n]);
      assert forall m :: 0 <= m < n ==> ps[..n][m] == ps[m];
    }
  }

  lemma WordIs(w: World, p: PreparedStep, inv: Invocation, a: Answers)
    requires FromPolicy(w, p, a) && !p.decision.Deny? && Of(inv, p)
    ensures OnWord(w, p.step, inv, a)
  {
    FoundStands(w.approvals, a.scopeOf(p.step));
  }

  lemma NewsIs(w: World, news: seq<Invocation>, latest: seq<Step>, selected: Step, b: Budgets, a: Answers, ps: seq<PreparedStep>, places: seq<nat>)
    requires RoundOf(w, latest, selected, b, a, ps, places) && news == RoundInvocations(ps)
    ensures NewsLeft(w, news, latest, selected, b, a)
  {
    var order := Undenied(ps);
    InvocationsAre(ps);
    forall j | 0 <= j < |news| ensures OfRunner(w, latest, selected, news[j], b, a) {
      assert order[j] in order;
      DeniedAt(w, latest, selected, b, a, ps, places, order[j]);
      WordIs(w, ps[order[j]], news[j], a);
      assert latest[places[order[j]]] == ps[order[j]].step;
    }
    forall i | 0 <= i < |latest| && Runs(latest[i], selected, b, a) ensures Invoked(news, latest[i].stepID) {
      var m := PlaceOf(latest, selected, b, a, ps, places, i);
      DeniedAt(w, latest, selected, b, a, ps, places, m);
      assert m in order;
      var j :| 0 <= j < |order| && order[j] == m;
      assert news[j].stepID == latest[i].stepID;
    }
    forall j, k | 0 <= j < k < |news| ensures news[j].stepID != news[k].stepID {
      DistinctAt(w, latest, selected, b, a, ps, places, order[j], order[k]);
    }
  }

  lemma DistinctAt(w: World, latest: seq<Step>, selected: Step, b: Budgets, a: Answers, ps: seq<PreparedStep>, places: seq<nat>, m: nat, n: nat)
    requires RoundOf(w, latest, selected, b, a, ps, places) && m < n < |ps|
    ensures ps[m].step.stepID != ps[n].step.stepID
  {
    assert places[m] < places[n];
  }

  // ---- what is left of the session ----

  /** How many steps ran without success on their own account. */
  function OwnFailures(latest: seq<Step>, selected: Step, b: Budgets, a: Answers): nat {
    if latest == [] then 0
    else
      var last := latest[|latest|-1];
      OwnFailures(latest[..|latest|-1], selected, b, a) + if Runs(last, selected, b, a) && !OwnSuccess(last, a) then 1 else 0
  }

  ghost predicate AggregateFails(latest: seq<Step>, after: seq<Step>, selected: Step, b: Budgets, a: Answers) {
    exists i: nat :: i < |after| && LastOfAggregate(latest, selected, i, b, a) && !after[i].status.Completed?
  }

  lemma LastPlace(latest: seq<Step>, selected: Step, b: Budgets, a: Answers, ps: seq<PreparedStep>, places: seq<nat>)
    requires PreparedAt(latest, selected, b, a, ps, places)
    ensures ps != [] ==> places[|ps|-1] < |latest|
  {
  }

  lemma PlaceIsLast(latest: seq<Step>, selected: Step, b: Budgets, a: Answers, ps: seq<PreparedStep>, places: seq<nat>, m: nat)
    requires PreparedAt(latest, selected, b, a, ps, places) && m < |ps| && places[m] == |latest| - 1
    ensures m == |ps| - 1
  {
    assert places[m] <= places[|ps|-1] < |latest|;
  }

  /** What the last step of the round adds to the failures. */
  lemma LastFailure(w: World, s: Step, selected: Step, b: Budgets, a: Answers, ps: seq<PreparedStep>, outcomes: seq<Step>)
    requires ps != [] && outcomes == RoundOutcomes(ps, b, a)
    requires ps[|ps|-1].step == s && FromPolicy(w, ps[|ps|-1], a) && TakesPart(s, selected, b, a)
    ensures var k := |ps| - 1;
            && outcomes[..k] == RoundOutcomes(ps[..k], b, a)
            && CountRanAndFailed(ps, outcomes)
               == CountRanAndFailed(ps[..k], outcomes[..k]) + if Runs(s, selected, b, a) && !OwnSuccess(s, a) then 1 else 0
  {
    OwnOutcome(w, ps[|ps|-1], b, a);
  }

  lemma {:induction false} FailuresAre(w: World, latest: seq<Step>, selected: Step, b: Budgets, a: Answers, ps: seq<PreparedStep>,
                                       places: seq<nat>, outcomes: seq<Step>)
    requires PreparedAt(latest, selected, b, a, ps, places) && outcomes == RoundOutcomes(ps, b, a)
    requires forall m :: 0 <= m < |ps| ==> FromPolicy(w, ps[m], a)
    ensures CountRanAndFailed(ps, outcomes) == OwnFailures(latest, selected, b, a)
  {
    if latest == [] {
      LastPlace(latest, selected, b, a, ps, places);
    } else {
      var n, front := |latest| - 1, latest[..|latest|-1];
      if TakesPart(latest[n], selected, b, a) {
        var m := PlaceOf(latest, selected, b, a, ps, places, n);
        var k := |ps| - 1;
        PlaceIsLast(latest, selected, b, a, ps, places, m);
        PrefixPlaces(latest, selected, b, a, ps, places);
        LastFailure(w, latest[n], selected, b, a, ps, outcomes);
        FailuresAre(w, front, selected, b, a, ps[..k], places[..k], outcomes[..k]);
      } else {
        FrontPlaces(latest, selected, b, a, ps, places);
        FailuresAre(w, front, selected, b, a, ps, places, outcomes);
      }
    }
  }

  lemma PrefixPlaces(latest: seq<Step>, selected: Step, b: Budgets, a: Answers, ps: seq<PreparedStep>, places: seq<nat>)
    requires PreparedAt(latest, selected, b, a, ps, places) && ps != [] && places[|ps|-1] == |latest| - 1
    ensures PreparedAt(latest[..|latest|-1], selected, b, a, ps[..|ps|-1], places[..|ps|-1])
  {
    var k := |ps| - 1;
    forall i ensures i in places[..k] <==> 0 <= i < |latest| - 1 && TakesPart(latest[i], selected, b, a) {
      if i in places && i != places[k] {
        var m :| 0 <= m < |places| && places[m] == i;
        assert places[..k][m] == i;
      }
      if i in places[..k] {
        var m :| 0 <= m < k && places[m] == i;
        assert places[m] < places[k] && i in places;
      }
    }
  }

  lemma FrontPlaces(latest: seq<Step>, selected: Step, b: Budgets, a: Answers, ps: seq<PreparedStep>, places: seq<nat>)
    requires PreparedAt(latest, selected, b, a, ps, places) && latest != [] && !TakesPart(latest[|latest|-1], selected, b, a)
    ensures PreparedAt(latest[..|latest|-1], selected, b, a, ps, places)
  {
    forall m | 0 <= m < |ps| ensures places[m] < |latest| - 1 {
      assert places[m] in places;
    }
  }

  /** What a round adds to the retry count: a failure for every step that ran without success of its own, and one more if
      the last of the aggregate is not completed in the end. */
  lemma RetriesAre(w: World, latest: seq<Step>, selected: Step, b: Budgets, a: Answers, ps: seq<PreparedStep>, places: seq<nat>)
    requires RoundOf(w, latest, selected, b, a, ps, places)
    ensures var results := RoundResults(latest, ps, b, a);
            RetryFailures(ps, RoundOutcomes(ps, b, a), results)
            == OwnFailures(latest, selected, b, a)
               + if AggregateFails(latest, ReplaceSteps(latest, results), selected, b, a) then 1 else 0
  {
    var results := RoundResults(latest, ps, b, a);
    var after := ReplaceSteps(latest, results);
    FailuresAre(w, latest, selected, b, a, ps, places, RoundOutcomes(ps, b, a));
    LastSettled(w, latest, selected, b, a, ps, places);
  }

  lemma LastSettled(w: World, latest: seq<Step>, selected: Step, b: Budgets, a: Answers, ps: seq<PreparedStep>, places: seq<nat>)
    requires RoundOf(w, latest, selected, b, a, ps, places)
    ensures var results := RoundResults(latest, ps, b, a);
            AggregateFails(latest, ReplaceSteps(latest, results), selected, b, a) <==>
              LastAggregateIndex(ps).Some? && !results[LastAggregateIndex(ps).value].status.Completed?
  {
    var results := RoundResults(latest, ps, b, a);
    var after := ReplaceSteps(latest, results);
    forall m | 0 <= m < |ps| ensures places[m] < |latest| && latest[places[m]].stepID == results[m].stepID {
      ResultIs(w, latest, selected, b, a, ps, places, m);
    }
    ReplacedAtPlaces(latest, results, places);
    if LastAggregateIndex(ps).Some? {
      LastIsAt(w, latest, selected, b, a, ps, places, LastAggregateIndex(ps).value);
    }
    forall i: nat | i < |after| && LastOfAggregate(latest, selected, i, b, a)
      ensures LastAggregateIndex(ps).Some? && after[i] == results[LastAggregateIndex(ps).value]
    {
      var m := PlaceOf(latest, selected, b, a, ps, places, i);
      LastIsAt(w, latest, selected, b, a, ps, places, m);
    }
  }

  ghost predicate SessionLeft(w: World, v: World, latest: seq<Step>, after: seq<Step>, selected: Step, b: Budgets, a: Answers) {
    && v.session.phase == PhaseOf(VerdictOf(after, b)) && v.session.execution.Idle? && v.session.inFlightStep == ""
    && (forall i :: 0 <= i < |latest| && TakesPart(latest[i], selected, b, a) && latest[i].stepID != ""
                    && (forall j :: i < j < |latest| ==> !TakesPart(latest[j], selected, b, a)) ==>
          v.session.currentStep == latest[i].stepID)
    && v.session.runtimeStartedAt == (if w.session.runtimeStartedAt == 0 then a.now else w.session.runtimeStartedAt)
    && v.session.planRef == w.session.planRef && v.session.pendingApproval.None?
    && v.session.retryCount
       == w.session.retryCount + OwnFailures(latest, selected, b, a) + (if AggregateFails(latest, after, selected, b, a) then 1 else 0)
    && SameButWork(w.session, v.session)
  }

  lemma SessionOf(w: World, selected: Step, ps: seq<PreparedStep>, b: Budgets, a: Answers, results: seq<Step>)
    requires |ps| > 1 && w.session.pendingApproval.None? && results == RoundResults(LatestSteps(w.plans), ps, b, a)
    ensures var v, last := ExecuteRound(w, selected, ps, b, a), results[|results|-1].stepID;
            && v.session.phase == PhaseOf(VerdictOf(ReplaceSteps(LatestSteps(w.plans), results), b))
            && v.session.execution.Idle? && v.session.inFlightStep == "" && (last != "" ==> v.session.currentStep == last)
            && v.session.runtimeStartedAt == (if w.session.runtimeStartedAt == 0 then a.now else w.session.runtimeStartedAt)
            && v.session.planRef == w.session.planRef && v.session.pendingApproval.None?
            && v.session.retryCount == w.session.retryCount + RetryFailures(ps, RoundOutcomes(ps, b, a), results)
            && SameButWork(w.session, v.session)
  {
  }

  lemma LastTakesPart(w: World, latest: seq<Step>, selected: Step, b: Budgets, a: Answers, ps: seq<PreparedStep>, places: seq<nat>, i: nat)
    requires RoundOf(w, latest, selected, b, a, ps, places) && ps != [] && i < |latest| && TakesPart(latest[i], selected, b, a)
    requires forall j :: i < j < |latest| ==> !TakesPart(latest[j], selected, b, a)
    ensures latest[i] == ps[|ps|-1].step
  {
    var m := PlaceOf(latest, selected, b, a, ps, places, i);
    DeniedAt(w, latest, selected, b, a, ps, places, |ps| - 1);
  }

  lemma SessionIs(w: World, latest: seq<Step>, selected: Step, b: Budgets, a: Answers, ps: seq<PreparedStep>, places: seq<nat>)
    requires RoundOf(w, latest, selected, b, a, ps, places) && latest == LatestSteps(w.plans) && |ps| > 1
    requires w.session.pendingApproval.None?
    ensures var v, after := ExecuteRound(w, selected, ps, b, a), ReplaceSteps(latest, RoundResults(latest, ps, b, a));
            SessionLeft(w, v, latest, after, selected, b, a)
  {
    var v, results := ExecuteRound(w, selected, ps, b, a), RoundResults(latest, ps, b, a);
    SessionOf(w, selected, ps, b, a, results);
    RetriesAre(w, latest, selected, b, a, ps, places);
    ResultIs(w, latest, selected, b, a, ps, places, |ps| - 1);
    forall i | 0 <= i < |latest| && TakesPart(latest[i], selected, b, a) && latest[i].stepID != ""
               && (forall j :: i < j < |latest| ==> !TakesPart(latest[j], selected, b, a))
      ensures v.session.currentStep == latest[i].stepID
    {
      LastTakesPart(w, latest, selected, b, a, ps, places, i);
    }
  }

  /** The plans but for the latest one's steps and status, which is what the steps say. */
  ghost predicate LatestLeft(plans: seq<Plan>, after: seq<Plan>, b: Budgets)
    requires HasPlan(plans)
  {
    var n := |plans| - 1;
    && HasPlan(after) && |after| == |plans| && (forall k :: 0 <= k < n ==> after[k] == plans[k])
    && after[n] == plans[n].(steps := after[n].steps, status := after[n].status)
    && after[n].status == match VerdictOf(after[n].steps, b)
                          case Done => PlanCompleted
                          case GiveUp => PlanFailed
                          case GoOn => Active
  }

  /** A round that took place, on a well stored plan: every step that took part is an attempt on; it is completed only
      if its tool was invoked and its success is its own, or, for the one that settles the aggregate, the aggregate's
      and the tool's; denied steps have failed and were not invoked; all other steps, records and plans are as before. */
  lemma RoundLeaves(w: World, selected: Step, b: Budgets, a: Answers) returns (counted: seq<Step>)
    requires DriverBudget.LatestStored(w.plans) && TryFanoutRound(w, selected, b, a).RoundDone?
    ensures var v, latest := TryFanoutRound(w, selected, b, a).world, LatestSteps(w.plans);
            && LatestLeft(w.plans, v.plans, b) && |LatestSteps(v.plans)| == |latest|
            && Provisional(latest, counted, selected, b, a)
            && (forall i :: 0 <= i < |latest| ==> StepLeft(latest, counted, LatestSteps(v.plans), selected, i, b, a))
            && w.log <= v.log && NewsLeft(w, v.log[|w.log|..], latest, selected, b, a)
            && SessionLeft(w, v, latest, LatestSteps(v.plans), selected, b, a)
            && v.approvals == w.approvals && v.blocked == w.blocked
  {
    var latest := LatestSteps(w.plans);
    var ps := RoundDoneIs(w, selected, b, a);
    var places := TakePartPlaces(w, selected, b, a, ps);
    RoundKnown(w, selected, b, a, ps, places);
    counted := ReplaceSteps(latest, RoundOutcomes(ps, b, a));
    var v := ExecuteRound(w, selected, ps, b, a);
    RoundPlans(w, selected, b, a, ps);
    CountedIs(w, latest, selected, b, a, ps, places);
    PlanLeft(w, latest, selected, b, a, ps, places);
    DriverBudget.RoundLeaves(w, selected, ps, b, a);
    NewsIs(w, v.log[|w.log|..], latest, selected, b, a, ps, places);
    SessionIs(w, latest, selected, b, a, ps, places);
  }

  lemma RoundKnown(w: World, selected: Step, b: Budgets, a: Answers, ps: seq<PreparedStep>, places: seq<nat>)
    requires DriverBudget.LatestStored(w.plans) && PreparedAt(LatestSteps(w.plans), selected, b, a, ps, places)
    requires PrepareRound(w.approvals, RoundSteps(LatestSteps(w.plans), selected, b, a.systemNow), b, a) == Prepared(ps)
    ensures RoundOf(w, LatestSteps(w.plans), selected, b, a, ps, places)
  {
    PreparedWhen(w.approvals, RoundSteps(LatestSteps(w.plans), selected, b, a.systemNow), b, a);
    forall m | 0 <= m < |ps| ensures FromPolicy(w, ps[m], a) {
      assert ps[m] in ps;
    }
  }

  lemma OneLatestLeft(plans: seq<Plan>, steps: seq<Step>, b: Budgets)
    requires HasPlan(plans)
    ensures var n := |plans| - 1;
            var after := plans[n := WithSteps(plans[n], steps, b)];
            LatestLeft(plans, after, b) && LatestSteps(after) == steps
  {
  }

  lemma RoundPlans(w: World, selected: Step, b: Budgets, a: Answers, ps: seq<PreparedStep>)
    requires DriverBudget.LatestStored(w.plans) && |ps| > 1
    requires PrepareRound(w.approvals, RoundSteps(LatestSteps(w.plans), selected, b, a.systemNow), b, a) == Prepared(ps)
    ensures var v := ExecuteRound(w, selected, ps, b, a);
            && LatestLeft(w.plans, v.plans, b)
            && LatestSteps(v.plans) == ReplaceSteps(LatestSteps(w.plans), RoundResults(LatestSteps(w.plans), ps, b, a))
  {
    DriverBudget.RoundPrepared(w.approvals, LatestSteps(w.plans), selected, b, a);
    DriverBudget.RoundSpends(LatestSteps(w.plans), ps, b, a);
    DriverBudget.RoundLeaves(w, selected, ps, b, a);
    ResultsStored(w.plans, ExecuteRound(w, selected, ps, b, a).plans, RoundResults(LatestSteps(w.plans), ps, b, a), b);
  }

  lemma ResultsStored(plans: seq<Plan>, after: seq<Plan>, results: seq<Step>, b: Budgets)
    requires DriverBudget.LatestStored(plans) && results != [] && DriverBudget.SpendsEach(LatestSteps(plans), results, b)
    requires after == WriteSteps(plans, results, b)
    ensures LatestLeft(plans, after, b) && LatestSteps(after) == ReplaceSteps(LatestSteps(plans), results)
  {
    DriverBudget.WriteStepsIs(plans, results, b);
    OneLatestLeft(plans, ReplaceSteps(LatestSteps(plans), results), b);
  }

  /** A step of an aggregate that is completed by a round without a success of its own: exactly the one that settles
      the aggregate, when its tool reports an error and yet a good result, and the aggregate's verifier agrees. */
  lemma CompletedWithoutSuccess(w: World, selected: Step, b: Budgets, a: Answers, i: nat) returns (counted: seq<Step>)
    requires DriverBudget.LatestStored(w.plans) && TryFanoutRound(w, selected, b, a).RoundDone? && i < |LatestSteps(w.plans)|
    requires TakesPart(LatestSteps(w.plans)[i], selected, b, a)
    ensures var s := LatestSteps(w.plans)[i];
            var t := LatestSteps(TryFanoutRound(w, selected, b, a).world.plans);
            && Provisional(LatestSteps(w.plans), counted, selected, b, a) && i < |t|
            && (t[i].status.Completed? && !OwnSuccess(s, a) <==>
                  && Settles(LatestSteps(w.plans), counted, selected, i, b, a)
                  && a.toolFailed(s.stepID) && a.toolOK(s.stepID) && a.aggregateOK(s.stepID))
  {
    counted := RoundLeaves(w, selected, b, a);
    assert StepLeft(LatestSteps(w.plans), counted, LatestSteps(TryFanoutRound(w, selected, b, a).world.plans), selected, i, b, a);
  }
}
