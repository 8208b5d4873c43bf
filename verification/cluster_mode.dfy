/** The clustering mode: which query the adapter puts to the clustering engine,
    parsed from the `clusteringMode` token list (FastJetUtil.h initClusterMode). */
module ClusterModes {
  import opened Results
  import opened Numbers

  /** The mode flags of EClusterMode. The supported-mode bit masks of the
      algorithm table are modelled as sets of these flags. */
  datatype ModeFlag = NONE | FJInclusive | FJExclusiveNJets | FJExclusiveYCut | OwnInclusiveIteration

  /** A parsed clustering mode together with the numbers it carries. The
      requested number of jets is stored `unsigned`, as the adapter stores it;
      the energy threshold comes from `atoi`, so it is a whole number. */
  datatype ClusterMode =
    | Inclusive(minPt: real)
    | InclusiveIterativeNJets(nJets: UInt32, minE: Int32)
    | ExclusiveNJets(nJets: UInt32)
    | ExclusiveYCut(yCut: real)
  {
    function Flag(): ModeFlag {
      match this
      case Inclusive(_) => FJInclusive
      case InclusiveIterativeNJets(_, _) => OwnInclusiveIteration
      case ExclusiveNJets(_) => FJExclusiveNJets
      case ExclusiveYCut(_) => FJExclusiveYCut
    }
  }

  /** The keyword that selects each mode, and the length of its token list
      (keyword included). This table is the reference the parser is proved
      against. */
  const ModeArity: map<string, nat> :=
    map["Inclusive" := 2, "InclusiveIterativeNJets" := 3, "ExclusiveNJets" := 2, "ExclusiveYCut" := 2]

  function ModeName(f: ModeFlag): string {
    match f
    case NONE => "NONE"
    case FJInclusive => "Inclusive"
    case OwnInclusiveIteration => "InclusiveIterativeNJets"
    case FJExclusiveNJets => "ExclusiveNJets"
    case FJExclusiveYCut => "ExclusiveYCut"
  }

  /** initClusterMode: the first token names the mode, the rest are its
      parameters; `atof` and `atoi` are the C library conversions. */
  function ParseClusterMode(tokens: seq<string>, atof: string -> real, atoi: string -> Int32): (r: Result<ClusterMode>)
    ensures |tokens| == 0 ==> r == Failure(NoClusterMode)
    ensures r.Success? ==> r.value.Flag() != NONE && ModeName(r.value.Flag()) == tokens[0]
    ensures r.Success? ==> match r.value
                           case Inclusive(minPt) => |tokens| == 2 && minPt == atof(tokens[1])
                           case InclusiveIterativeNJets(n, minE) =>
                             |tokens| == 3 && n == ToUnsigned(atoi(tokens[1])) && minE == atoi(tokens[2])
                           case ExclusiveNJets(n) => |tokens| == 2 && n == ToUnsigned(atoi(tokens[1]))
                           case ExclusiveYCut(yCut) => |tokens| == 2 && yCut == atof(tokens[1])
    ensures r.Failure? ==> r.error in {NoClusterMode, WrongModeParameters, UnknownClusterMode}
  {
    if |tokens| == 0 then Failure(NoClusterMode)
    else
      var name := tokens[0];
      if name == "Inclusive" then
        if |tokens| != 2 then Failure(WrongModeParameters)
        else Success(Inclusive(atof(tokens[1])))
      else if name == "InclusiveIterativeNJets" then
        if |tokens| != 3 then Failure(WrongModeParameters)
        else Success(InclusiveIterativeNJets(ToUnsigned(atoi(tokens[1])), atoi(tokens[2])))
      else if name == "ExclusiveNJets" then
        if |tokens| != 2 then Failure(WrongModeParameters)
        else Success(ExclusiveNJets(ToUnsigned(atoi(tokens[1]))))
      else if name == "ExclusiveYCut" then
        if |tokens| != 2 then Failure(WrongModeParameters)
        else Success(ExclusiveYCut(atof(tokens[1])))
      else
        Failure(UnknownClusterMode)
  }

  /** The parser accepts exactly the token lists whose keyword is in the arity
      table and whose length is the keyword's arity; it reports a known
      keyword with the wrong arity and an unknown keyword as different errors. */
  lemma ParseClusterModeAccepts(tokens: seq<string>, atof: string -> real, atoi: string -> Int32)
    ensures ParseClusterMode(tokens, atof, atoi).Success?
            <==> |tokens| >= 1 && tokens[0] in ModeArity && |tokens| == ModeArity[tokens[0]]
    ensures |tokens| >= 1 && tokens[0] in ModeArity && |tokens| != ModeArity[tokens[0]]
            ==> ParseClusterMode(tokens, atof, atoi) == Failure(WrongModeParameters)
    ensures |tokens| >= 1 && tokens[0] !in ModeArity
            ==> ParseClusterMode(tokens, atof, atoi) == Failure(UnknownClusterMode)
  {
  }
}
