/** The jet algorithm: the support table of algorithm families, the check made
    against each table entry (isJetAlgo) and the selection that walks the
    table (initJetAlgo). */
module JetAlgorithms {
  import opened Results
  import opened ClusterModes
  import opened RecoSchemes

  /** The built-in clustering algorithms of the engine that the table uses. */
  datatype Algorithm =
    | Kt | Cambridge | Antikt | Genkt | CambridgeForPassive | GenktForPassive | EeKt | EeGenkt

  /** The plugin algorithms, which are built through their own constructors. */
  datatype Plugin = SISCone | SISConeSpherical | Valencia

  datatype Family = Native(algorithm: Algorithm) | PluginFamily(plugin: Plugin)

  /** The clustering strategy is fixed to `Best` (initStrategy). */
  datatype Strategy = Best

  /** An engine jet definition. A built-in algorithm carries its numeric
      parameters, the recombination scheme and the strategy; a plugin is
      built from its numeric parameters alone. */
  datatype JetDefinition =
    | NativeDef(algorithm: Algorithm, params: seq<real>, scheme: RecoScheme, strategy: Strategy)
    | PluginDef(plugin: Plugin, params: seq<real>)
  {
    function Family(): Family {
      match this
      case NativeDef(a, _, _, _) => Native(a)
      case PluginDef(p, _) => PluginFamily(p)
    }

    /** The definitions the iterative search knows how to rebuild at a new
        radius: every built-in algorithm, and the two SISCone plugins with
        their radius and overlap threshold. */
    predicate IterationCapable() {
      NativeDef? || (plugin != Valencia && |params| == 2)
    }
  }

  /** The per-iteration definition of the iterative search: the same family
      with radius R. A built-in algorithm keeps the scheme and strategy but
      carries R as its only parameter (a second parameter, such as the
      exponent of genkt_algorithm, is not passed on); a SISCone plugin keeps
      its overlap threshold. */
  function WithRadius(def: JetDefinition, R: real): (d: JetDefinition)
    requires def.IterationCapable()
    ensures d.Family() == def.Family() && d.IterationCapable()
    ensures |d.params| >= 1 && d.params[0] == R
    ensures d.PluginDef? ==> d.params[1..] == def.params[1..]
    ensures d.NativeDef? ==> |d.params| == 1 && d.scheme == def.scheme && d.strategy == def.strategy
  {
    match def
    case NativeDef(a, _, sc, st) => NativeDef(a, [R], sc, st)
    case PluginDef(p, ps) => PluginDef(p, [R, ps[1]])
  }

  /** One row of the support table: the algorithm's steering name, its family,
      the number of numeric parameters it takes and the clustering modes it
      supports. */
  datatype Entry = Entry(name: string, family: Family, nrParams: nat, supported: set<ModeFlag>)

  const AllModes: set<ModeFlag> := {FJInclusive, FJExclusiveNJets, FJExclusiveYCut, OwnInclusiveIteration}
  const InclusiveModes: set<ModeFlag> := {FJInclusive, OwnInclusiveIteration}
  const ExclusiveModes: set<ModeFlag> := {FJExclusiveNJets, FJExclusiveYCut}

  /** The support table, in the order initJetAlgo consults it. */
  const SupportTable: seq<Entry> := [
    Entry("kt_algorithm", Native(Kt), 1, AllModes),
    Entry("cambridge_algorithm", Native(Cambridge), 1, AllModes),
    Entry("antikt_algorithm", Native(Antikt), 1, InclusiveModes),
    Entry("genkt_algorithm", Native(Genkt), 2, AllModes),
    Entry("cambridge_for_passive_algorithm", Native(CambridgeForPassive), 1, AllModes),
    Entry("genkt_for_passive_algorithm", Native(GenktForPassive), 1, InclusiveModes),
    Entry("ee_kt_algorithm", Native(EeKt), 0, ExclusiveModes),
    Entry("ee_genkt_algorithm", Native(EeGenkt), 1, ExclusiveModes),
    Entry("SISConePlugin", PluginFamily(SISCone), 2, InclusiveModes),
    Entry("SISConeSphericalPlugin", PluginFamily(SISConeSpherical), 2, InclusiveModes),
    Entry("ValenciaPlugin", PluginFamily(Valencia), 3, ExclusiveModes)
  ]

  /** isJetAlgo: a name mismatch answers false without error; on a name match
      the parameter count is checked first and the active mode second. */
  function IsJetAlgo(e: Entry, tokens: seq<string>, mode: ModeFlag): (r: Result<bool>)
    requires |tokens| >= 1
    ensures r == Success(true) <==> tokens[0] == e.name && |tokens| - 1 == e.nrParams && mode in e.supported
    ensures r == Success(false) <==> tokens[0] != e.name
    ensures tokens[0] == e.name && |tokens| - 1 != e.nrParams ==> r == Failure(WrongParameterCount)
    ensures tokens[0] == e.name && |tokens| - 1 == e.nrParams && mode !in e.supported
            ==> r == Failure(ModeNotSupported)
  {
    if tokens[0] != e.name then Success(false)
    else if |tokens| - 1 != e.nrParams then Failure(WrongParameterCount)
    else if mode !in e.supported then Failure(ModeNotSupported)
    else Success(true)
  }

  /** The jet definition built for a matching entry from the numeric
      parameters that follow the name. */
  function Build(e: Entry, tokens: seq<string>, atof: string -> real, scheme: RecoScheme): (d: JetDefinition)
    requires |tokens| == e.nrParams + 1
    ensures d.Family() == e.family
    ensures d.NativeDef? <==> e.family.Native?
    ensures d.NativeDef? ==> d.scheme == scheme && d.strategy == Best
    ensures |d.params| == e.nrParams
    ensures forall i :: 0 <= i < e.nrParams ==> d.params[i] == atof(tokens[i + 1])
  {
    var ps := seq(e.nrParams, i requires 0 <= i < e.nrParams => atof(tokens[i + 1]));
    match e.family
    case Native(a) => NativeDef(a, ps, scheme, Best)
    case PluginFamily(p) => PluginDef(p, ps)
  }

  /** The walk of initJetAlgo over a table from entry i on: every entry is
      consulted in turn, an exception ends the walk, and an entry that
      answers true builds the definition. */
  function SelectFrom(table: seq<Entry>, i: nat, tokens: seq<string>, mode: ModeFlag, atof: string -> real,
                      scheme: RecoScheme, acc: Option<JetDefinition>): (r: Result<JetDefinition>)
    requires i <= |table| && |tokens| >= 1
    ensures r.Failure? ==> r.error in {WrongParameterCount, ModeNotSupported, UnknownAlgorithm}
    decreases |table| - i
  {
    if i == |table| then
      if acc.None? then Failure(UnknownAlgorithm) else Success(acc.value)
    else
      var e := table[i];
      var matched :- IsJetAlgo(e, tokens, mode);
      SelectFrom(table, i + 1, tokens, mode, atof, scheme, if matched then Some(Build(e, tokens, atof, scheme)) else acc)
  }

  /** initJetAlgo, given the already parsed mode and scheme. */
  function InitJetAlgo(tokens: seq<string>, mode: ModeFlag, atof: string -> real, scheme: RecoScheme): (r: Result<JetDefinition>)
    ensures |tokens| == 0 ==> r == Failure(NoAlgorithm)
    ensures r.Failure? ==> r.error in {NoAlgorithm, WrongParameterCount, ModeNotSupported, UnknownAlgorithm}
  {
    if |tokens| < 1 then Failure(NoAlgorithm)
    else SelectFrom(SupportTable, 0, tokens, mode, atof, scheme, None)
  }

  /** The verdict of the one table entry whose name was given. */
  function EntryVerdict(e: Entry, tokens: seq<string>, mode: ModeFlag, atof: string -> real, scheme: RecoScheme): Result<JetDefinition>
  {
    if |tokens| != e.nrParams + 1 then Failure(WrongParameterCount)
    else if mode !in e.supported then Failure(ModeNotSupported)
    else Success(Build(e, tokens, atof, scheme))
  }

  /** No two entries of the support table share a name. */
  lemma TableNamesDistinct()
    ensures forall i, j :: 0 <= i < j < |SupportTable| ==> SupportTable[i].name != SupportTable[j].name
  {
  }

  lemma {:induction false} SelectFromNoMatch(table: seq<Entry>, i: nat, tokens: seq<string>, mode: ModeFlag,
                                             atof: string -> real, scheme: RecoScheme, acc: Option<JetDefinition>)
    requires i <= |table| && |tokens| >= 1
    requires forall k :: i <= k < |table| ==> table[k].name != tokens[0]
    ensures SelectFrom(table, i, tokens, mode, atof, scheme, acc)
            == if acc.None? then Failure(UnknownAlgorithm) else Success(acc.value)
    decreases |table| - i
  {
    if i < |table| {
      SelectFromNoMatch(table, i + 1, tokens, mode, atof, scheme, acc);
    }
  }

  lemma {:induction false} SelectFromMatch(table: seq<Entry>, i: nat, k: nat, tokens: seq<string>, mode: ModeFlag,
                                           atof: string -> real, scheme: RecoScheme, acc: Option<JetDefinition>)
    requires i <= k < |table| && |tokens| >= 1
    requires table[k].name == tokens[0]
    requires forall j :: i <= j < |table| && j != k ==> table[j].name != tokens[0]
    ensures SelectFrom(table, i, tokens, mode, atof, scheme, acc) == EntryVerdict(table[k], tokens, mode, atof, scheme)
    decreases k - i
  {
    if i < k {
      SelectFromMatch(table, i + 1, k, tokens, mode, atof, scheme, acc);
    } else {
      var e := table[k];
      if |tokens| == e.nrParams + 1 && mode in e.supported {
        SelectFromNoMatch(table, k + 1, tokens, mode, atof, scheme, Some(Build(e, tokens, atof, scheme)));
      }
    }
  }

  /** The selection is a table lookup by name: a name that no entry carries is
      an unknown algorithm, and otherwise the outcome is decided by that one
      entry, checking the parameter count before the mode. */
  lemma InitJetAlgoByTable(tokens: seq<string>, mode: ModeFlag, atof: string -> real, scheme: RecoScheme)
    requires |tokens| >= 1
    ensures (forall k :: 0 <= k < |SupportTable| ==> SupportTable[k].name != tokens[0])
            ==> InitJetAlgo(tokens, mode, atof, scheme) == Failure(UnknownAlgorithm)
    ensures forall k | 0 <= k < |SupportTable| && SupportTable[k].name == tokens[0] ::
              InitJetAlgo(tokens, mode, atof, scheme) == EntryVerdict(SupportTable[k], tokens, mode, atof, scheme)
  {
    if k :| 0 <= k < |SupportTable| && SupportTable[k].name == tokens[0] {
      TableNamesDistinct();
      assert forall j :: 0 <= j < |SupportTable| && j != k ==> SupportTable[j].name != tokens[0] by {
        forall j | 0 <= j < |SupportTable| && j != k
          ensures SupportTable[j].name != tokens[0]
        {
          if j < k {
            assert SupportTable[j].name != SupportTable[k].name;
          } else {
            assert SupportTable[k].name != SupportTable[j].name;
          }
        }
      }
      SelectFromMatch(SupportTable, 0, k, tokens, mode, atof, scheme, None);
    } else {
      SelectFromNoMatch(SupportTable, 0, tokens, mode, atof, scheme, None);
    }
  }

  /** Every algorithm that supports the iterative mode can be rebuilt at a new
      radius: it is a built-in algorithm or a SISCone plugin with a radius and
      an overlap threshold. Valencia, the one plugin without such a pair, is
      exclusive-only. */
  lemma IterativeFamilies(k: nat)
    requires k < |SupportTable| && OwnInclusiveIteration in SupportTable[k].supported
    ensures SupportTable[k].family.Native?
            || (SupportTable[k].family.plugin != Valencia && SupportTable[k].nrParams == 2)
  {
  }

  /** A successful selection names a table entry, was given that entry's
      parameter count, runs in a mode the entry supports, and built its
      definition from the given parameters. */
  lemma SelectedEntry(tokens: seq<string>, mode: ModeFlag, atof: string -> real, scheme: RecoScheme)
    requires InitJetAlgo(tokens, mode, atof, scheme).Success?
    ensures |tokens| >= 1
    ensures exists k :: 0 <= k < |SupportTable| && SupportTable[k].name == tokens[0]
                        && |tokens| == SupportTable[k].nrParams + 1 && mode in SupportTable[k].supported
                        && InitJetAlgo(tokens, mode, atof, scheme).value == Build(SupportTable[k], tokens, atof, scheme)
  {
    InitJetAlgoByTable(tokens, mode, atof, scheme);
  }
}
