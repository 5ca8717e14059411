/** What a fan-out round does, told by what can be seen of it from outside: when it takes place, whose tools are
    invoked and on whose word, and what becomes of every step of the plan. */
module RoundCalls {
  import opened PlanModel
  import opened Aggregates
  import opened PlanOutcome
  import opened StepSelection
  import opened SessionKernel
  import opened StepCalls
  import DriverBudget

  // ---- who takes part ----

  /** May run next to the selected step: of the same fan-out aggregate, waiting, or failed with attempts left and, by
      the system's clock, not held back. */
  predicate Member(s: Step, selected: Step, b: Budgets, systemNow: int) {
    && s.metadata.aggregateID != "" && s.metadata.aggregateID == selected.metadata.aggregateID
    && s.metadata.aggregateScope == "target_fanout"
    && (s.status == Unset || s.status == Pending || (s.status == Failed && !OutOfAttempts(s, b) && !HeldBack(s, systemNow)))
  }

  predicate TakesPart(s: Step, selected: Step, b: Budgets, a: Answers) {
    Member(s, selected, b, a.systemNow) && !HeldBack(s, a.now)
  }

  ghost predicate TwoMembers(latest: seq<Step>, selected: Step, b: Budgets, systemNow: int) {
    exists i, j :: 0 <= i < j < |latest| && Member(latest[i], selected, b, systemNow) && Member(latest[j], selected, b, systemNow)
  }

  ghost predicate TwoTakePart(latest: seq<Step>, selected: Step, b: Budgets, a: Answers) {
    exists i, j :: 0 <= i < j < |latest| && TakesPart(latest[i], selected, b, a) && TakesPart(latest[j], selected, b, a)
  }

  /** The selected step asks for company, and there is some. */
  ghost predicate Due(latest: seq<Step>, selected: Step, b: Budgets, systemNow: int) {
    && selected.metadata.aggregateID != "" && selected.metadata.aggregateScope == "target_fanout"
    && selected.metadata.maxConcurrency.Some? && selected.metadata.maxConcurrency.value > 1
    && TwoMembers(latest, selected, b, systemNow)
  }

  /** The policy has a question about the step that no standing approval answers. */
  ghost predicate Questioned(w: World, s: Step, a: Answers) {
    a.policy(s.stepID).Ask? && !HasStanding(w.approvals, a.scopeOf(s))
  }

  /** Nothing about this member stops the round. */
  ghost predicate Fit(w: World, s: Step, b: Budgets, a: Answers) {
    !OutOfAttempts(s, b) && (HeldBack(s, a.now) || (!a.stepRefused(s.stepID) && !Questioned(w, s, a)))
  }

  lemma MemberIs(s: Step, selected: Step, b: Budgets, systemNow: int)
    ensures InRound(s, selected, b, systemNow) <==> Member(s, selected, b, systemNow)
  {
    OutOfAttemptsIs(s, b);
  }

  lemma FitIs(w: World, s: Step, b: Budgets, a: Answers)
    ensures Preparable(w.approvals, s, b, a) <==> Fit(w, s, b, a)
  {
    OutOfAttemptsIs(s, b);
    FoundStands(w.approvals, a.scopeOf(s));
  }

  /** These are the places of `picked` in `steps`, in order. */
  ghost predicate PlacesOf(steps: seq<Step>, picked: seq<Step>, places: seq<nat>) {
    && |places| == |picked| && (forall m :: 0 <= m < |picked| ==> places[m] < |steps| && steps[places[m]] == picked[m])
    && (forall m, n :: 0 <= m < n < |places| ==> places[m] < places[n])
  }

  lemma OnePlaceMore(steps: seq<Step>, picked: seq<Step>, places: seq<nat>, first: nat)
    requires PlacesOf(steps, picked, places) && first < |steps| && forall i :: i in places ==> first < i
    ensures PlacesOf(steps, [steps[first]] + picked, [first] + places)
  {
    var more := [first] + places;
    forall m, n | 0 <= m < n < |more| ensures more[m] < more[n] {
      assert more[n] == places[n-1] && places[n-1] in places;
    }
  }

  /** The members from `first` on, by their places in the plan. */
  lemma {:induction false} MemberPlaces(latest: seq<Step>, first: nat, selected: Step, b: Budgets, systemNow: int) returns (places: seq<nat>)
    requires first <= |latest|
    ensures PlacesOf(latest, RoundSteps(latest[first..], selected, b, systemNow), places)
    ensures forall i :: i in places <==> first <= i < |latest| && Member(latest[i], selected, b, systemNow)
    decreases |latest| - first
  {
    if first == |latest| {
      places := [];
    } else {
      places := MemberPlaces(latest, first + 1, selected, b, systemNow);
      MemberIs(latest[first], selected, b, systemNow);
      assert latest[first..][1..] == latest[first+1..];
      var picked := RoundSteps(latest[first+1..], selected, b, systemNow);
      if Member(latest[first], selected, b, systemNow) {
        OnePlaceMore(latest, picked, places, first);
        places := [first] + places;
      } else {
        assert RoundSteps(latest[first..], selected, b, systemNow) == picked;
      }
    }
  }

  lemma TwoPlaces(latest: seq<Step>, selected: Step, b: Budgets, systemNow: int, places: seq<nat>)
    requires forall m, n :: 0 <= m < n < |places| ==> places[m] < places[n]
    requires forall i :: i in places <==> 0 <= i < |latest| && Member(latest[i], selected, b, systemNow)
    ensures |places| > 1 <==> TwoMembers(latest, selected, b, systemNow)
  {
    if |places| > 1 {
      assert places[0] in places && places[1] in places && places[0] < places[1];
    }
    if TwoMembers(latest, selected, b, systemNow) {
      var i, j :| 0 <= i < j < |latest| && Member(latest[i], selected, b, systemNow) && Member(latest[j], selected, b, systemNow);
      assert i in places && j in places;
    }
  }

  lemma DueIs(latest: seq<Step>, selected: Step, b: Budgets, systemNow: int)
    ensures FanoutRound(latest, selected, b, systemNow).Some? <==> Due(latest, selected, b, systemNow)
  {
    var places := MemberPlaces(latest, 0, selected, b, systemNow);
    assert latest[0..] == latest;
    TwoPlaces(latest, selected, b, systemNow, places);
  }

  // ---- what is prepared ----

  /** The steps that take part, by their places in the plan, as they are prepared. */
  ghost predicate PreparedAt(latest: seq<Step>, selected: Step, b: Budgets, a: Answers, ps: seq<PreparedStep>, places: seq<nat>) {
    && |places| == |ps|
    && (forall m :: 0 <= m < |ps| ==> places[m] < |latest| && latest[places[m]] == ps[m].step)
    && (forall m, n :: 0 <= m < n < |places| ==> places[m] < places[n])
    && (forall i :: i in places <==> 0 <= i < |latest| && TakesPart(latest[i], selected, b, a))
  }

  function StepsOf(ps: seq<PreparedStep>): (r: seq<Step>)
    ensures |r| == |ps| && forall m :: 0 <= m < |r| ==> r[m] == ps[m].step
  {
    seq(|ps|, m requires 0 <= m < |ps| => ps[m].step)
  }

  lemma PreparedOne(approvals: seq<Approval>, round: seq<Step>, b: Budgets, a: Answers)
    requires round != [] && PrepareRound(approvals, round, b, a).Prepared?
    ensures PrepareRound(approvals, round[1..], b, a).Prepared?
    ensures var rest := StepsOf(PrepareRound(approvals, round[1..], b, a).steps);
            StepsOf(PrepareRound(approvals, round, b, a).steps) == if HeldBack(round[0], a.now) then rest else [round[0]] + rest
  {
  }

  /** Of the members from `first` on, in their order, those not held back. */
  lemma {:induction false} PreparedPlaces(approvals: seq<Approval>, round: seq<Step>, first: nat, b: Budgets, a: Answers)
    returns (places: seq<nat>)
    requires first <= |round| && PrepareRound(approvals, round[first..], b, a).Prepared?
    ensures PlacesOf(round, StepsOf(PrepareRound(approvals, round[first..], b, a).steps), places)
    ensures forall i :: i in places <==> first <= i < |round| && !HeldBack(round[i], a.now)
    decreases |round| - first
  {
    if first == |round| {
      places := [];
    } else {
      PreparedOne(approvals, round[first..], b, a);
      assert round[first..][1..] == round[first+1..];
      places := PreparedPlaces(approvals, round, first + 1, b, a);
      if !HeldBack(round[first], a.now) {
        OnePlaceMore(round, StepsOf(PrepareRound(approvals, round[first+1..], b, a).steps), places, first);
        places := [first] + places;
      }
    }
  }

  lemma Composed(latest: seq<Step>, selected: Step, b: Budgets, a: Answers, round: seq<Step>, ps: seq<PreparedStep>,
                 outer: seq<nat>, inner: seq<nat>) returns (places: seq<nat>)
    requires PlacesOf(latest, round, outer) && PlacesOf(round, StepsOf(ps), inner)
    requires forall i :: i in outer <==> 0 <= i < |latest| && Member(latest[i], selected, b, a.systemNow)
    requires forall i :: i in inner <==> 0 <= i < |round| && !HeldBack(round[i], a.now)
    ensures PreparedAt(latest, selected, b, a, ps, places)
  {
    places := seq(|inner|, m requires 0 <= m < |inner| => outer[inner[m]]);
    forall i ensures i in places <==> 0 <= i < |latest| && TakesPart(latest[i], selected, b, a) {
      if i in places {
        var m :| 0 <= m < |inner| && places[m] == i;
        assert inner[m] in inner && outer[inner[m]] in outer;
      }
      if 0 <= i < |latest| && TakesPart(latest[i], selected, b, a) {
        assert i in outer;
        var n :| 0 <= n < |outer| && outer[n] == i;
        assert n in inner;
        var m :| 0 <= m < |inner| && inner[m] == n;
        assert places[m] == i;
      }
    }
  }

  lemma TakePartPlaces(w: World, selected: Step, b: Budgets, a: Answers, ps: seq<PreparedStep>) returns (places: seq<nat>)
    requires PrepareRound(w.approvals, RoundSteps(LatestSteps(w.plans), selected, b, a.systemNow), b, a) == Prepared(ps)
    ensures PreparedAt(LatestSteps(w.plans), selected, b, a, ps, places)
  {
    var latest := LatestSteps(w.plans);
    var round := RoundSteps(latest, selected, b, a.systemNow);
    assert latest[0..] == latest && round[0..] == round;
    var outer := MemberPlaces(latest, 0, selected, b, a.systemNow);
    var inner := PreparedPlaces(w.approvals, round, 0, b, a);
    places := Composed(latest, selected, b, a, round, ps, outer, inner);
  }

  lemma TwoIs(latest: seq<Step>, selected: Step, b: Budgets, a: Answers, ps: seq<PreparedStep>, places: seq<nat>)
    requires PreparedAt(latest, selected, b, a, ps, places)
    ensures |ps| > 1 <==> TwoTakePart(latest, selected, b, a)
  {
    if |ps| > 1 {
      assert places[0] in places && places[1] in places && places[0] < places[1];
    }
    if TwoTakePart(latest, selected, b, a) {
      var i, j :| 0 <= i < j < |latest| && TakesPart(latest[i], selected, b, a) && TakesPart(latest[j], selected, b, a);
      assert i in places && j in places;
    }
  }

  ghost predicate AllFit(w: World, selected: Step, b: Budgets, a: Answers) {
    var latest := LatestSteps(w.plans);
    forall i :: 0 <= i < |latest| && Member(latest[i], selected, b, a.systemNow) ==> Fit(w, latest[i], b, a)
  }

  /** All members fit: that is when the round is prepared. */
  lemma FitMembers(w: World, selected: Step, b: Budgets, a: Answers)
    ensures var latest := LatestSteps(w.plans);
            PrepareRound(w.approvals, RoundSteps(latest, selected, b, a.systemNow), b, a).Prepared? <==> AllFit(w, selected, b, a)
  {
    var latest := LatestSteps(w.plans);
    var round := RoundSteps(latest, selected, b, a.systemNow);
    PreparedWhen(w.approvals, round, b, a);
    RoundStepsAre(latest, selected, b, a.systemNow);
    forall s ensures InRound(s, selected, b, a.systemNow) <==> Member(s, selected, b, a.systemNow) {
      MemberIs(s, selected, b, a.systemNow);
    }
    forall s ensures Preparable(w.approvals, s, b, a) <==> Fit(w, s, b, a) {
      FitIs(w, s, b, a);
    }
    if AllFit(w, selected, b, a) {
      forall s | s in round ensures Fit(w, s, b, a) {
        assert s in latest && Member(s, selected, b, a.systemNow);
      }
    }
    if forall s :: s in round ==> Fit(w, s, b, a) {
      forall i | 0 <= i < |latest| && Member(latest[i], selected, b, a.systemNow) ensures Fit(w, latest[i], b, a) {
        assert latest[i] in latest && latest[i] in round;
      }
    }
  }

  lemma RoundGoes(w: World, selected: Step, b: Budgets, a: Answers)
    ensures var prepared := PrepareRound(w.approvals, RoundSteps(LatestSteps(w.plans), selected, b, a.systemNow), b, a);
            TryFanoutRound(w, selected, b, a).RoundDone? <==>
              && FanoutRound(LatestSteps(w.plans), selected, b, a.systemNow).Some? && MayWork(w.session, None, b, a.now)
              && prepared.Prepared? && |prepared.steps| > 1
  {
  }

  /** A round takes place exactly when it is due, the session may work, no member is in the way, and two take part. */
  lemma RoundTakesPlaceIff(w: World, selected: Step, b: Budgets, a: Answers)
    ensures var latest := LatestSteps(w.plans);
            TryFanoutRound(w, selected, b, a).RoundDone? <==>
              && Due(latest, selected, b, a.systemNow) && MayWork(w.session, None, b, a.now)
              && AllFit(w, selected, b, a) && TwoTakePart(latest, selected, b, a)
  {
    var latest := LatestSteps(w.plans);
    RoundGoes(w, selected, b, a);
    DueIs(latest, selected, b, a.systemNow);
    FitMembers(w, selected, b, a);
    PreparedTwo(w, selected, b, a);
  }

  lemma PreparedTwo(w: World, selected: Step, b: Budgets, a: Answers)
    ensures var latest := LatestSteps(w.plans);
            var prepared := PrepareRound(w.approvals, RoundSteps(latest, selected, b, a.systemNow), b, a);
            prepared.Prepared? ==> (|prepared.steps| > 1 <==> TwoTakePart(latest, selected, b, a))
  {
    var latest := LatestSteps(w.plans);
    var prepared := PrepareRound(w.approvals, RoundSteps(latest, selected, b, a.systemNow), b, a);
    if prepared.Prepared? {
      var places := TakePartPlaces(w, selected, b, a, prepared.steps);
      TwoIs(latest, selected, b, a, prepared.steps, places);
    }
  }

  /** The first member, in the order of the plan, that does not fit. */
  ghost predicate InTheWay(w: World, selected: Step, b: Budgets, a: Answers, i: nat) {
    var latest := LatestSteps(w.plans);
    && i < |latest| && Member(latest[i], selected, b, a.systemNow) && !Fit(w, latest[i], b, a)
    && forall j :: 0 <= j < i && Member(latest[j], selected, b, a.systemNow) ==> Fit(w, latest[j], b, a)
  }

  lemma FitsOn(w: World, round: seq<Step>, b: Budgets, a: Answers)
    requires round != [] && Preparable(w.approvals, round[0], b, a)
    ensures var rest := PrepareRound(w.approvals, round[1..], b, a);
            !rest.Prepared? ==> PrepareRound(w.approvals, round, b, a) == rest
  {
  }

  lemma {:induction false} FirstUnfit(w: World, latest: seq<Step>, selected: Step, b: Budgets, a: Answers, i: nat)
    requires i < |latest| && Member(latest[i], selected, b, a.systemNow) && !Fit(w, latest[i], b, a)
    requires forall j :: 0 <= j < i && Member(latest[j], selected, b, a.systemNow) ==> Fit(w, latest[j], b, a)
    ensures PrepareRound(w.approvals, RoundSteps(latest, selected, b, a.systemNow), b, a)
            == if OutOfAttempts(latest[i], b) then PreparationFailed(StepRetryBudgetExceeded)
               else if a.stepRefused(latest[i].stepID) then PreparationFailed(Refused)
               else NotHandled
  {
    var round := RoundSteps(latest, selected, b, a.systemNow);
    MemberIs(latest[0], selected, b, a.systemNow);
    FitIs(w, latest[0], b, a);
    OutOfAttemptsIs(latest[0], b);
    FoundStands(w.approvals, a.scopeOf(latest[0]));
    if i > 0 {
      FirstUnfit(w, latest[1..], selected, b, a, i - 1);
      var rest := RoundSteps(latest[1..], selected, b, a.systemNow);
      if Member(latest[0], selected, b, a.systemNow) {
        assert round[0] == latest[0] && round[1..] == rest;
        FitsOn(w, round, b, a);
      } else {
        assert round == rest;
      }
    }
  }

  /** When a round that is due faults instead: the session may not work, or a member in the way is out of attempts or
      cannot be read. A question the policy has, or too few that take part, calls the round off without a fault. */
  lemma RoundFaults(w: World, selected: Step, b: Budgets, a: Answers)
    ensures var r, s, due := TryFanoutRound(w, selected, b, a), w.session, Due(LatestSteps(w.plans), selected, b, a.systemNow);
            && (!due ==> r.RoundDeclined?)
            && (due && !MayWork(s, None, b, a.now) ==>
                  r == RoundFailed(if Over(s) then SessionTerminal else if s.execution.ExecutionBlocked? then SessionBlocked
                                   else if s.pendingApproval.Some? then SessionAwaitingApproval else RuntimeBudgetExceeded))
            && (forall i: nat :: due && MayWork(s, None, b, a.now) && InTheWay(w, selected, b, a, i) ==>
                  var member := LatestSteps(w.plans)[i];
                  r == if OutOfAttempts(member, b) then RoundFailed(StepRetryBudgetExceeded)
                       else if a.stepRefused(member.stepID) then RoundFailed(Refused)
                       else RoundDeclined)
            && (AllFit(w, selected, b, a) && !TwoTakePart(LatestSteps(w.plans), selected, b, a) && MayWork(s, None, b, a.now) ==>
                  r.RoundDeclined?)
  {
    FitMembers(w, selected, b, a);
    PreparedTwo(w, selected, b, a);
    DueIs(LatestSteps(w.plans), selected, b, a.systemNow);
    forall i: nat | Due(LatestSteps(w.plans), selected, b, a.systemNow) && MayWork(w.session, None, b, a.now)
                    && InTheWay(w, selected, b, a, i)
      ensures var member := LatestSteps(w.plans)[i];
              TryFanoutRound(w, selected, b, a)
              == if OutOfAttempts(member, b) then RoundFailed(StepRetryBudgetExceeded)
                 else if a.stepRefused(member.stepID) then RoundFailed(Refused)
                 else RoundDeclined
    {
      FirstUnfit(w, LatestSteps(w.plans), selected, b, a, i);
    }
  }
}
