/** Four-vectors, the clustering engine seen from outside, and the energy
    filter of the iterative search. */
module Jets {
  import opened JetAlgorithms

  /** A four-vector with the index of the input particle it came from (the
      engine's user index). Jets returned by the engine are four-vectors too. */
  datatype PseudoJet = PseudoJet(px: real, py: real, pz: real, e: real, userIndex: int)

  /** A reconstructed particle as far as the conversion reads it. */
  datatype RecParticle = RecParticle(momentum: (real, real, real), energy: real)

  /** The clustering engine, a black box: each query builds a cluster
      sequence from the input list and a jet definition and asks it for
      inclusive jets above a transverse-momentum floor, for exactly n
      exclusive jets, or for exclusive jets at a merging-scale cut. */
  datatype Engine = Engine(
    inclusiveJets: (JetDefinition, seq<PseudoJet>, real) -> seq<PseudoJet>,
    exclusiveJets: (JetDefinition, seq<PseudoJet>, int) -> seq<PseudoJet>,
    exclusiveJetsYCut: (JetDefinition, seq<PseudoJet>, real) -> seq<PseudoJet>)

  /** convertFromRecParticle: particle i becomes a four-vector tagged with
      user index i, so every jet constituent can be traced to its particle. */
  function ConvertFromRecParticle(particles: seq<RecParticle>): (r: seq<PseudoJet>)
    ensures |r| == |particles|
    ensures forall i :: 0 <= i < |r| ==>
              r[i].userIndex == i && r[i].e == particles[i].energy
              && (r[i].px, r[i].py, r[i].pz) == particles[i].momentum
    ensures forall i, j :: 0 <= i < |r| && 0 <= j < |r| && r[i].userIndex == r[j].userIndex ==> i == j
  {
    seq(|particles|, i requires 0 <= i < |particles| =>
      PseudoJet(particles[i].momentum.0, particles[i].momentum.1, particles[i].momentum.2, particles[i].energy, i))
  }

  /** The jets with energy strictly above minE, in their original order. */
  function AboveEnergy(jets: seq<PseudoJet>, minE: real): (r: seq<PseudoJet>)
    ensures |r| <= |jets|
    ensures forall j :: 0 <= j < |r| ==> r[j].e > minE
  {
    if |jets| == 0 then []
    else
      var last := jets[|jets| - 1];
      AboveEnergy(jets[..|jets| - 1], minE) + (if last.e > minE then [last] else [])
  }

  /** s is obtained from t by deleting elements (greedy match from the end). */
  predicate IsSubsequence(s: seq<PseudoJet>, t: seq<PseudoJet>)
    decreases |t|
  {
    if |s| == 0 then true
    else if |t| == 0 then false
    else if s[|s| - 1] == t[|t| - 1] then IsSubsequence(s[..|s| - 1], t[..|t| - 1])
    else IsSubsequence(s, t[..|t| - 1])
  }

  /** The filter keeps the order of the jets it keeps. */
  lemma {:induction false} AboveEnergyKeepsOrder(jets: seq<PseudoJet>, minE: real)
    ensures IsSubsequence(AboveEnergy(jets, minE), jets)
    decreases |jets|
  {
    if |jets| > 0 {
      var init := jets[..|jets| - 1];
      var last := jets[|jets| - 1];
      AboveEnergyKeepsOrder(init, minE);
      if last.e > minE {
        var r := AboveEnergy(jets, minE);
        assert r[..|r| - 1] == AboveEnergy(init, minE);
      } else {
        SubsequenceOfLonger(AboveEnergy(init, minE), init, last);
        assert init + [last] == jets;
        assert AboveEnergy(jets, minE) == AboveEnergy(init, minE);
      }
    }
  }

  /** The filter keeps every jet above the threshold as often as it occurs
      and keeps nothing else. */
  lemma {:induction false} AboveEnergyKeepsExactly(jets: seq<PseudoJet>, minE: real)
    ensures forall x :: multiset(AboveEnergy(jets, minE))[x] == if x.e > minE then multiset(jets)[x] else 0
    decreases |jets|
  {
    if |jets| > 0 {
      var init := jets[..|jets| - 1];
      var last := jets[|jets| - 1];
      AboveEnergyKeepsExactly(init, minE);
      assert jets == init + [last];
      assert multiset(jets) == multiset(init) + multiset{last};
      var kept := AboveEnergy(init, minE);
      if last.e > minE {
        assert multiset(AboveEnergy(jets, minE)) == multiset(kept) + multiset{last};
      } else {
        assert AboveEnergy(jets, minE) == kept;
      }
    }
  }

  lemma {:induction false} SubsequenceOfLonger(s: seq<PseudoJet>, t: seq<PseudoJet>, x: PseudoJet)
    requires IsSubsequence(s, t)
    ensures IsSubsequence(s, t + [x])
    decreases |t|, 2
  {
    if |s| > 0 {
      assert (t + [x])[..|t|] == t;
      if s[|s| - 1] == x {
        SubsequencePrefix(s, t);
      }
    }
  }

  lemma {:induction false} SubsequencePrefix(s: seq<PseudoJet>, t: seq<PseudoJet>)
    requires |s| > 0 && IsSubsequence(s, t)
    ensures IsSubsequence(s[..|s| - 1], t)
    decreases |t|, 1
  {
    assert |t| > 0;
    assert t[..|t| - 1] + [t[|t| - 1]] == t;
    if s[|s| - 1] != t[|t| - 1] {
      SubsequencePrefix(s, t[..|t| - 1]);
    }
    SubsequenceOfLonger(s[..|s| - 1], t[..|t| - 1], t[|t| - 1]);
  }

  /** The counting loop of the iterative search: one pass over the jets that
      pushes every jet with energy above minE onto the returned list. */
  method KeepAboveEnergy(jets: seq<PseudoJet>, minE: real) returns (kept: seq<PseudoJet>)
    ensures kept == AboveEnergy(jets, minE)
  {
    kept := [];
    var j := 0;
    while j < |jets|
      invariant 0 <= j <= |jets|
      invariant kept == AboveEnergy(jets[..j], minE)
    {
      assert jets[..j + 1][..j] == jets[..j];
      if jets[j].e > minE {
        kept := kept + [jets[j]];
      }
      j := j + 1;
    }
    assert jets[..|jets|] == jets;
  }
}
