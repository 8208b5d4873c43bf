/** The iterative inclusive clustering (doIterativeInclusiveClustering): a
    bisection over the radius R that looks for the radius at which inclusive
    clustering, followed by an energy cut, yields the requested number of
    jets. The clustering at a given radius is the abstract function jetsAt. */
module IterativeSearch {
  import opened Results
  import opened Numbers
  import opened JetAlgorithms
  import opened Jets

  type PositiveReal = r: real | r > 0.0 witness 1.0

  /** pi/4 (M_PI_4), the starting radius; its value is left abstract. The
      radius domain of the clustering families is (0, pi/2], that is
      (0, 2 * QuarterPi]. */
  const QuarterPi: PositiveReal

  /** ITERATIVE_INCLUSIVE_MAX_ITERATIONS */
  const MaxIterations: nat := 20

  /** The radius step in force during iteration i (0-based): it starts at
      half the starting radius and halves after every iteration, whichever
      way the radius moved. */
  function StepAt(i: nat): (d: real)
    ensures 0.0 < d <= QuarterPi / 2.0
  {
    if i == 0 then QuarterPi / 2.0 else StepAt(i - 1) / 2.0
  }

  /** Step-size law in closed form: the step of iteration i is
      (pi/4) / 2^(i+1). */
  lemma {:induction false} StepClosedForm(i: nat)
    ensures StepAt(i) * (Pow2(i + 1) as real) == QuarterPi
  {
    if i > 0 {
      StepClosedForm(i - 1);
      var p := Pow2(i) as real;
      assert Pow2(i + 1) as real == 2.0 * p;
      calc {
        StepAt(i) * (Pow2(i + 1) as real);
        (StepAt(i - 1) / 2.0) * (2.0 * p);
        StepAt(i - 1) * p;
      }
    }
  }

  /** The inclusive jets of iteration i's clustering that pass the energy cut. */
  function SurvivorsAt(jetsAt: real -> seq<PseudoJet>, target: nat, minE: real, i: nat): seq<PseudoJet> {
    AboveEnergy(jetsAt(RadiusAt(jetsAt, target, minE, i)), minE)
  }

  /** The radius used in iteration i. Too few surviving jets shrink the
      radius by the current step, too many grow it; once the count matches
      the search stops, and the trajectory is taken to stay put. */
  function RadiusAt(jetsAt: real -> seq<PseudoJet>, target: nat, minE: real, i: nat): real
    decreases i
  {
    if i == 0 then QuarterPi
    else
      var prev := RadiusAt(jetsAt, target, minE, i - 1);
      var count := |AboveEnergy(jetsAt(prev), minE)|;
      if count < target then prev - StepAt(i - 1)
      else if count > target then prev + StepAt(i - 1)
      else prev
  }

  /** The steps form a geometric series whose sum stays below pi/4, so the
      radius stays strictly inside (0, pi/2) at every iteration, and even
      within the step size of either end. */
  lemma {:induction false} RadiusBounds(jetsAt: real -> seq<PseudoJet>, target: nat, minE: real, i: nat)
    ensures 2.0 * StepAt(i) <= RadiusAt(jetsAt, target, minE, i) <= 2.0 * QuarterPi - 2.0 * StepAt(i)
    ensures 0.0 < RadiusAt(jetsAt, target, minE, i) < 2.0 * QuarterPi
  {
    if i > 0 {
      RadiusBounds(jetsAt, target, minE, i - 1);
    }
  }

  predicate Matches(jetsAt: real -> seq<PseudoJet>, target: nat, minE: real, i: nat) {
    |SurvivorsAt(jetsAt, target, minE, i)| == target
  }

  /** The first iteration, from i on and within the budget, whose surviving
      jet count is the requested one. */
  function FirstMatch(jetsAt: real -> seq<PseudoJet>, target: nat, minE: real, i: nat): (r: Option<nat>)
    requires i <= MaxIterations
    ensures r.Some? ==> i <= r.value < MaxIterations && Matches(jetsAt, target, minE, r.value)
    ensures r.Some? ==> forall k :: i <= k < r.value ==> !Matches(jetsAt, target, minE, k)
    ensures r.None? ==> forall k :: i <= k < MaxIterations ==> !Matches(jetsAt, target, minE, k)
    decreases MaxIterations - i
  {
    if i == MaxIterations then None
    else if Matches(jetsAt, target, minE, i) then Some(i)
    else FirstMatch(jetsAt, target, minE, i + 1)
  }

  /** What the search returns: the survivors of the first matching
      iteration, or the skip exception when no iteration within the budget
      matches. A list of the wrong length is never returned. */
  function SearchOutcome(jetsAt: real -> seq<PseudoJet>, target: nat, minE: real): (r: Result<seq<PseudoJet>>)
    ensures r.Success? <==> exists i :: 0 <= i < MaxIterations && Matches(jetsAt, target, minE, i)
    ensures r.Success? ==> |r.value| == target && forall j :: 0 <= j < |r.value| ==> r.value[j].e > minE
    ensures r.Success? ==> exists i :: 0 <= i < MaxIterations && r.value == SurvivorsAt(jetsAt, target, minE, i)
                                      && forall k :: 0 <= k < i ==> !Matches(jetsAt, target, minE, k)
    ensures r.Failure? ==> r.error == SkippedFixedNrJet
  {
    match FirstMatch(jetsAt, target, minE, 0)
    case Some(i) => Success(SurvivorsAt(jetsAt, target, minE, i))
    case None => Failure(SkippedFixedNrJet)
  }

  /** The search returns the survivors of the first matching iteration. */
  lemma OutcomeAtFirstMatch(jetsAt: real -> seq<PseudoJet>, target: nat, minE: real, i: nat)
    requires i < MaxIterations && Matches(jetsAt, target, minE, i)
    requires forall k :: 0 <= k < i ==> !Matches(jetsAt, target, minE, k)
    ensures SearchOutcome(jetsAt, target, minE) == Success(SurvivorsAt(jetsAt, target, minE, i))
  {
    var m := FirstMatch(jetsAt, target, minE, 0);
    assert m.Some? && m.value == i;
  }

  /** The search fails with the skip exception when no iteration matches. */
  lemma OutcomeWhenNoneMatches(jetsAt: real -> seq<PseudoJet>, target: nat, minE: real)
    requires forall k :: 0 <= k < MaxIterations ==> !Matches(jetsAt, target, minE, k)
    ensures SearchOutcome(jetsAt, target, minE) == Failure(SkippedFixedNrJet)
  {
  }

  /** A match found in the last iteration of the budget still succeeds. */
  lemma LastIterationStillSucceeds(jetsAt: real -> seq<PseudoJet>, target: nat, minE: real)
    requires forall k :: 0 <= k < MaxIterations - 1 ==> !Matches(jetsAt, target, minE, k)
    requires Matches(jetsAt, target, minE, MaxIterations - 1)
    ensures SearchOutcome(jetsAt, target, minE) == Success(SurvivorsAt(jetsAt, target, minE, MaxIterations - 1))
  {
    OutcomeAtFirstMatch(jetsAt, target, minE, MaxIterations - 1);
  }

  /** The clustering at radius R: inclusive jets without a transverse
      momentum floor, for the definition rebuilt at R. */
  function InclusiveAt(engine: Engine, def: JetDefinition, pjList: seq<PseudoJet>): real -> seq<PseudoJet>
    requires def.IterationCapable()
  {
    R => engine.inclusiveJets(WithRadius(def, R), pjList, 0.0)
  }

  /** One round that does not match moves the trajectory on: the radius
      by the current step in the direction the count asks for, and the step
      to half its size. */
  lemma RoundAdvances(jetsAt: real -> seq<PseudoJet>, target: nat, minE: real, i: nat, kept: seq<PseudoJet>)
    requires kept == AboveEnergy(jetsAt(RadiusAt(jetsAt, target, minE, i)), minE)
    ensures kept == SurvivorsAt(jetsAt, target, minE, i)
    ensures |kept| < target ==> RadiusAt(jetsAt, target, minE, i + 1) == RadiusAt(jetsAt, target, minE, i) - StepAt(i)
    ensures |kept| > target ==> RadiusAt(jetsAt, target, minE, i + 1) == RadiusAt(jetsAt, target, minE, i) + StepAt(i)
    ensures |kept| != target ==> !Matches(jetsAt, target, minE, i)
    ensures StepAt(i + 1) == StepAt(i) / 2.0
  {
  }

  /** No round before round i matched the requested count. */
  predicate NoMatchBefore(jetsAt: real -> seq<PseudoJet>, target: nat, minE: real, i: nat)
    decreases i
  {
    i == 0 || (NoMatchBefore(jetsAt, target, minE, i - 1) && !Matches(jetsAt, target, minE, i - 1))
  }

  lemma {:induction false} NoMatchBeforeAll(jetsAt: real -> seq<PseudoJet>, target: nat, minE: real, i: nat)
    requires NoMatchBefore(jetsAt, target, minE, i)
    ensures forall k :: 0 <= k < i ==> !Matches(jetsAt, target, minE, k)
  {
    if i > 0 { NoMatchBeforeAll(jetsAt, target, minE, i - 1); }
  }

  /** The loop of doIterativeInclusiveClustering: at most MaxIterations
      rounds of clustering at radius R (jetsAt(R) rebuilds the definition at
      R and clusters), energy cut and comparison, leaving the loop early
      (`break`) on a matching count. Returns the index of the round it
      stopped in, or MaxIterations when no round matched. */
  method SearchRounds(jetsAt: real -> seq<PseudoJet>, target: nat, minE: real)
    returns (iIter: nat, jetsReturn: seq<PseudoJet>)
    ensures iIter <= MaxIterations
    ensures forall k :: 0 <= k < iIter ==> !Matches(jetsAt, target, minE, k)
    ensures iIter < MaxIterations ==> && Matches(jetsAt, target, minE, iIter)
                                      && jetsReturn == SurvivorsAt(jetsAt, target, minE, iIter)
  {
    var R: real := QuarterPi;
    var RDiff := R / 2.0;
    jetsReturn := [];
    iIter := 0;
    while iIter < MaxIterations
      invariant 0 <= iIter <= MaxIterations
      invariant R == RadiusAt(jetsAt, target, minE, iIter)
      invariant RDiff == StepAt(iIter)
      invariant NoMatchBefore(jetsAt, target, minE, iIter)
      decreases MaxIterations - iIter
    {
      var jets := jetsAt(R);
      jetsReturn := KeepAboveEnergy(jets, minE);
      RoundAdvances(jetsAt, target, minE, iIter, jetsReturn);
      var nJets := |jetsReturn|;
      if nJets == target {
        break;
      }
      if nJets < target {
        R := R - RDiff;
      } else {
        R := R + RDiff;
      }
      RDiff := RDiff / 2.0;
      iIter := iIter + 1;
    }
    NoMatchBeforeAll(jetsAt, target, minE, iIter);
  }

  /** doIterativeInclusiveClustering: run the rounds, and throw the skip
      exception when all of them were used up without a match. Also returns
      how many rounds ran. */
  method DoIterativeInclusiveClustering(engine: Engine, def: JetDefinition, pjList: seq<PseudoJet>,
                                        target: nat, minE: real)
    returns (r: Result<seq<PseudoJet>>, rounds: nat)
    requires def.IterationCapable()
    ensures r == SearchOutcome(InclusiveAt(engine, def, pjList), target, minE)
    ensures 1 <= rounds <= MaxIterations
    ensures r.Success? ==> r.value == SurvivorsAt(InclusiveAt(engine, def, pjList), target, minE, rounds - 1)
    ensures r.Failure? ==> rounds == MaxIterations
  {
    var iIter, jetsReturn := SearchRounds(InclusiveAt(engine, def, pjList), target, minE);
    if iIter == MaxIterations {
      OutcomeWhenNoneMatches(InclusiveAt(engine, def, pjList), target, minE);
      return Failure(SkippedFixedNrJet), MaxIterations;
    }
    OutcomeAtFirstMatch(InclusiveAt(engine, def, pjList), target, minE, iIter);
    r, rounds := Success(jetsReturn), iIter + 1;
  }
}
