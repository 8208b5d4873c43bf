/** The adapter itself: initialisation from the three steering parameters
    (init) and the per-event dispatch on the clustering mode (clusterJets). */
module FastJetUtil {
  import opened Results
  import opened Numbers
  import opened ClusterModes
  import opened RecoSchemes
  import opened JetAlgorithms
  import opened Jets
  import opened IterativeSearch

  /** The state init leaves behind: the algorithm name, its jet definition,
      the recombination scheme and the clustering mode. */
  datatype Config = Config(algoName: string, definition: JetDefinition, scheme: RecoScheme, mode: ClusterMode) {

    /** The configuration agrees with one entry of the support table. */
    predicate AgreesWith(e: Entry) {
      && e.name == algoName
      && definition.Family() == e.family
      && |definition.params| == e.nrParams
      && mode.Flag() in e.supported
    }

    predicate Valid() {
      exists k :: 0 <= k < |SupportTable| && AgreesWith(SupportTable[k])
    }
  }

  /** init: the strategy is fixed, then the recombination scheme, the
      clustering mode and the algorithm are parsed in that order, so the
      first of them that is malformed decides the error. */
  function Init(algoTokens: seq<string>, schemeName: string, modeTokens: seq<string>,
                atof: string -> real, atoi: string -> Int32): (r: Result<Config>)
    ensures ParseRecoScheme(schemeName).Failure? ==> r == Failure(UnknownRecoScheme)
    ensures ParseRecoScheme(schemeName).Success? && ParseClusterMode(modeTokens, atof, atoi).Failure?
            ==> r == Failure(ParseClusterMode(modeTokens, atof, atoi).error)
    ensures r.Failure? ==> r.error.IsConfigError()
    ensures r.Success? ==> r.value.Valid()
    ensures r.Success? ==> && ParseRecoScheme(schemeName) == Success(r.value.scheme)
                           && ParseClusterMode(modeTokens, atof, atoi) == Success(r.value.mode)
                           && InitJetAlgo(algoTokens, r.value.mode.Flag(), atof, r.value.scheme)
                              == Success(r.value.definition)
  {
    var scheme :- ParseRecoScheme(schemeName);
    var mode :- ParseClusterMode(modeTokens, atof, atoi);
    var definition :- InitJetAlgo(algoTokens, mode.Flag(), atof, scheme);
    SelectedEntry(algoTokens, mode.Flag(), atof, scheme);
    var config := Config(algoTokens[0], definition, scheme, mode);
    assert exists k :: 0 <= k < |SupportTable| && config.AgreesWith(SupportTable[k]);
    Success(config)
  }

  /** With a valid scheme and mode, an algorithm named in the table, given
      exactly its parameter count and run in a mode it supports, is
      selected with its own family. */
  lemma SupportedCombinationSelected(k: nat, params: seq<string>, schemeName: string, modeTokens: seq<string>,
                                     atof: string -> real, atoi: string -> Int32)
    requires k < |SupportTable| && |params| == SupportTable[k].nrParams
    requires ParseRecoScheme(schemeName).Success?
    requires ParseClusterMode(modeTokens, atof, atoi).Success?
    requires ParseClusterMode(modeTokens, atof, atoi).value.Flag() in SupportTable[k].supported
    ensures Init([SupportTable[k].name] + params, schemeName, modeTokens, atof, atoi).Success?
    ensures Init([SupportTable[k].name] + params, schemeName, modeTokens, atof, atoi).value.definition.Family()
            == SupportTable[k].family
  {
    var mode := ParseClusterMode(modeTokens, atof, atoi).value;
    InitJetAlgoByTable([SupportTable[k].name] + params, mode.Flag(), atof, ParseRecoScheme(schemeName).value);
  }

  /** Giving a table algorithm more or fewer parameters than it takes is a
      parameter-count error, whatever the mode. */
  lemma WrongParameterCountRejected(k: nat, params: seq<string>, schemeName: string, modeTokens: seq<string>,
                                    atof: string -> real, atoi: string -> Int32)
    requires k < |SupportTable| && |params| != SupportTable[k].nrParams
    requires ParseRecoScheme(schemeName).Success?
    requires ParseClusterMode(modeTokens, atof, atoi).Success?
    ensures Init([SupportTable[k].name] + params, schemeName, modeTokens, atof, atoi) == Failure(WrongParameterCount)
  {
    var mode := ParseClusterMode(modeTokens, atof, atoi).value;
    InitJetAlgoByTable([SupportTable[k].name] + params, mode.Flag(), atof, ParseRecoScheme(schemeName).value);
  }

  /** A table algorithm given the right parameter count but run in a mode
      it does not support is a mode error. */
  lemma UnsupportedModeRejected(k: nat, params: seq<string>, schemeName: string, modeTokens: seq<string>,
                                atof: string -> real, atoi: string -> Int32)
    requires k < |SupportTable| && |params| == SupportTable[k].nrParams
    requires ParseRecoScheme(schemeName).Success?
    requires ParseClusterMode(modeTokens, atof, atoi).Success?
    requires ParseClusterMode(modeTokens, atof, atoi).value.Flag() !in SupportTable[k].supported
    ensures Init([SupportTable[k].name] + params, schemeName, modeTokens, atof, atoi) == Failure(ModeNotSupported)
  {
    var mode := ParseClusterMode(modeTokens, atof, atoi).value;
    InitJetAlgoByTable([SupportTable[k].name] + params, mode.Flag(), atof, ParseRecoScheme(schemeName).value);
  }

  /** A name that is not in the table is an unknown algorithm. */
  lemma UnknownNameRejected(algoTokens: seq<string>, schemeName: string, modeTokens: seq<string>,
                            atof: string -> real, atoi: string -> Int32)
    requires |algoTokens| >= 1
    requires forall k :: 0 <= k < |SupportTable| ==> SupportTable[k].name != algoTokens[0]
    requires ParseRecoScheme(schemeName).Success?
    requires ParseClusterMode(modeTokens, atof, atoi).Success?
    ensures Init(algoTokens, schemeName, modeTokens, atof, atoi) == Failure(UnknownAlgorithm)
  {
    var mode := ParseClusterMode(modeTokens, atof, atoi).value;
    InitJetAlgoByTable(algoTokens, mode.Flag(), atof, ParseRecoScheme(schemeName).value);
  }

  /** clusterJets: one engine query chosen by the mode. The two modes that ask
      for a fixed number of jets first compare the particle count with the
      requested count (cast back to `int`) and skip the event when there are
      too few particles; the iterative mode then runs the radius search. */
  method ClusterJets(engine: Engine, config: Config, pjList: seq<PseudoJet>, nParticles: nat)
    returns (r: Result<seq<PseudoJet>>)
    requires config.Valid()
    ensures r.Failure? ==> r.error == SkippedFixedNrJet
    ensures match config.mode
      case Inclusive(minPt) =>
        r == Success(engine.inclusiveJets(config.definition, pjList, minPt))
      case ExclusiveYCut(yCut) =>
        r == Success(engine.exclusiveJetsYCut(config.definition, pjList, yCut))
      case ExclusiveNJets(n) =>
        if nParticles < ToSigned(n) then r == Failure(SkippedFixedNrJet)
        else r == Success(engine.exclusiveJets(config.definition, pjList, ToSigned(n)))
      case InclusiveIterativeNJets(n, minE) =>
        if nParticles < ToSigned(n) then r == Failure(SkippedFixedNrJet)
        else && config.definition.IterationCapable()
             && r == SearchOutcome(InclusiveAt(engine, config.definition, pjList), n, minE as real)
             && (r.Success? ==> |r.value| == n && forall j :: 0 <= j < |r.value| ==> r.value[j].e > minE as real)
  {
    var def := config.definition;
    match config.mode {
      case Inclusive(minPt) =>
        r := Success(engine.inclusiveJets(def, pjList, minPt));
      case ExclusiveYCut(yCut) =>
        r := Success(engine.exclusiveJetsYCut(def, pjList, yCut));
      case ExclusiveNJets(n) =>
        if nParticles < ToSigned(n) {
          r := Failure(SkippedFixedNrJet);
        } else {
          r := Success(engine.exclusiveJets(def, pjList, ToSigned(n)));
        }
      case InclusiveIterativeNJets(n, minE) =>
        if nParticles < ToSigned(n) {
          r := Failure(SkippedFixedNrJet);
        } else {
          var k :| 0 <= k < |SupportTable| && config.AgreesWith(SupportTable[k]);
          IterativeFamilies(k);
          var rounds;
          r, rounds := DoIterativeInclusiveClustering(engine, def, pjList, n, minE as real);
        }
    }
  }
}
