/** The recombination scheme: the rule used when two particles are merged
    (FastJetUtil.h initRecoScheme). */
module RecoSchemes {
  import opened Results

  datatype RecoScheme = EScheme | PtScheme | Pt2Scheme | EtScheme | Et2Scheme | BIptScheme | BIpt2Scheme

  /** The steering-file name of each scheme. */
  function SchemeName(s: RecoScheme): string {
    match s
    case EScheme => "E_scheme"
    case PtScheme => "pt_scheme"
    case Pt2Scheme => "pt2_scheme"
    case EtScheme => "Et_scheme"
    case Et2Scheme => "Et2_scheme"
    case BIptScheme => "BIpt_scheme"
    case BIpt2Scheme => "BIpt2_scheme"
  }

  /** initRecoScheme: a chain of exact string comparisons; anything else is an
      unknown-scheme error. */
  function ParseRecoScheme(name: string): (r: Result<RecoScheme>)
    ensures r.Success? ==> SchemeName(r.value) == name
    ensures r.Failure? ==> r.error == UnknownRecoScheme
  {
    if name == "E_scheme" then Success(EScheme)
    else if name == "pt_scheme" then Success(PtScheme)
    else if name == "pt2_scheme" then Success(Pt2Scheme)
    else if name == "Et_scheme" then Success(EtScheme)
    else if name == "Et2_scheme" then Success(Et2Scheme)
    else if name == "BIpt_scheme" then Success(BIptScheme)
    else if name == "BIpt2_scheme" then Success(BIpt2Scheme)
    else Failure(UnknownRecoScheme)
  }

  /** Every scheme's name parses back to that scheme, so distinct schemes have
      distinct names; together with the contract of ParseRecoScheme this makes
      the accepted names exactly the seven scheme names. */
  lemma {:induction false} RecoSchemeRoundTrip(s: RecoScheme)
    ensures ParseRecoScheme(SchemeName(s)) == Success(s)
  {
    match s
    case EScheme =>
    case PtScheme =>
    case Pt2Scheme =>
    case EtScheme =>
    case Et2Scheme =>
    case BIptScheme =>
    case BIpt2Scheme =>
  }

  /** A name is accepted iff it is the name of some scheme. */
  lemma RecoSchemeAcceptedIff(name: string)
    ensures ParseRecoScheme(name).Success? <==> exists s: RecoScheme :: SchemeName(s) == name
  {
    if s: RecoScheme :| SchemeName(s) == name {
      RecoSchemeRoundTrip(s);
    }
  }
}
