/** The read-only fiscal rules store: NCM classifications, PIS/COFINS
    situation codes and rates, CFOP scopes, state ICMS overrides and legal
    citations. A missing key is an absent result, never an error; only a
    malformed query (an unsupported regime name) fails with a named error. */
module FiscalRepository {
  import opened Wrappers
  import opened Text
  import opened Money

  datatype NcmRule = NcmRule(ncm: string, description: string, sugarFamily: bool, keywords: seq<string>)

  datatype SituationType = Tributada | Monofasica | AliquotaZero | Isenta | SemIncidencia | Suspensao | Outras {
    function Name(): string {
      match this
      case Tributada => "TRIBUTADA"
      case Monofasica => "MONOFASICA"
      case AliquotaZero => "ALIQUOTA_ZERO"
      case Isenta => "ISENTA"
      case SemIncidencia => "SEM_INCIDENCIA"
      case Suspensao => "SUSPENSAO"
      case Outras => "OUTRAS"
    }
  }

  datatype CstRule = CstRule(cst: string, description: string, situationType: SituationType)

  /** STANDARD is the non-cumulative regime, CUMULATIVE the cumulative one. */
  datatype Regime = Standard | Cumulative

  datatype Rates = Rates(pis: Rate, cofins: Rate)

  datatype OperationScope = Interno | Interestadual {
    function Name(): string {
      match this
      case Interno => "INTERNO"
      case Interestadual => "INTERESTADUAL"
    }
  }

  datatype CfopRule = CfopRule(cfop: string, description: string, scope: OperationScope, commonForSugar: bool)

  datatype LegalScope = Federal | Estadual

  datatype LegalRef = LegalRef(code: string, title: string, citation: string, scope: LegalScope, taxes: set<string>)

  datatype RepoError = UnsupportedRegime(name: string) | RuleNotFound(cst: string, regime: Regime)

  /** The tables, loaded once and never written. `stateRules` maps a state
      code to its ICMS rate overrides per NCM. */
  datatype Repository = Repository(
    ncmRules: map<string, NcmRule>,
    cstRules: map<string, CstRule>,
    rates: map<(string, Regime), Rates>,
    cfopRules: map<string, CfopRule>,
    stateRules: map<string, map<string, Rate>>,
    legalRefs: map<string, LegalRef>)

  /** No Brazilian ICMS rate exceeds 20%. */
  const MAX_ICMS_RATE: Rate := 2000

  /** Every record is stored under its own code, codes have their canonical
      digit length, rates exist only for known CSTs, and ICMS overrides are
      at most 20%. */
  ghost predicate Valid(repo: Repository) {
    && (forall k :: k in repo.ncmRules ==> repo.ncmRules[k].ncm == k && IsDigitCode(k, 8))
    && (forall k :: k in repo.cstRules ==> repo.cstRules[k].cst == k && IsDigitCode(k, 2))
    && (forall k :: k in repo.cfopRules ==> repo.cfopRules[k].cfop == k && IsDigitCode(k, 4))
    && (forall key :: key in repo.rates ==> key.0 in repo.cstRules)
    && (forall uf, ncm :: uf in repo.stateRules && ncm in repo.stateRules[uf] ==>
          repo.stateRules[uf][ncm] <= MAX_ICMS_RATE)
    && (forall k :: k in repo.legalRefs ==> repo.legalRefs[k].code == k)
  }

  // ---------------------------------------------------------------- NCM

  function GetNcmRule(repo: Repository, ncm: string): (r: Option<NcmRule>)
    ensures r.Some? <==> ncm in repo.ncmRules
    ensures r.Some? && Valid(repo) ==> r.value.ncm == ncm
  {
    if ncm in repo.ncmRules then Some(repo.ncmRules[ncm]) else None
  }

  function ValidateNcmExists(repo: Repository, ncm: string): (b: bool)
    ensures b <==> GetNcmRule(repo, ncm).Some?
  {
    ncm in repo.ncmRules
  }

  /** The NCM codes of the sugar/ethanol product family. */
  function GetAllSugarNcms(repo: Repository): (codes: set<string>)
    ensures forall c :: c in codes <==> c in repo.ncmRules && repo.ncmRules[c].sugarFamily
    ensures Valid(repo) ==> forall c :: c in codes ==> IsDigitCode(c, 8)
  {
    set c | c in repo.ncmRules && repo.ncmRules[c].sugarFamily
  }

  function GetNcmKeywords(repo: Repository, ncm: string): (kws: seq<string>)
    ensures ncm !in repo.ncmRules ==> kws == []
    ensures ncm in repo.ncmRules ==> kws == repo.ncmRules[ncm].keywords
  {
    match GetNcmRule(repo, ncm)
    case Some(rule) => rule.keywords
    case None => []
  }

  // ---------------------------------------------------------------- PIS/COFINS

  function GetPisCofinsRule(repo: Repository, cst: string): (r: Option<CstRule>)
    ensures r.Some? <==> cst in repo.cstRules
    ensures r.Some? && Valid(repo) ==> r.value.cst == cst
  {
    if cst in repo.cstRules then Some(repo.cstRules[cst]) else None
  }

  function GetValidCsts(repo: Repository): (csts: set<string>)
    ensures forall c :: c in csts <==> GetPisCofinsRule(repo, c).Some?
  {
    repo.cstRules.Keys
  }

  function IsCstValid(repo: Repository, cst: string): (b: bool)
    ensures b <==> cst in GetValidCsts(repo)
  {
    cst in repo.cstRules
  }

  function ParseRegime(name: string): (r: Result<Regime, RepoError>)
    ensures r.Success? <==> name == "STANDARD" || name == "CUMULATIVE"
    ensures r.Failure? ==> r.error == UnsupportedRegime(name)
  {
    if name == "STANDARD" then Success(Standard)
    else if name == "CUMULATIVE" then Success(Cumulative)
    else Failure(UnsupportedRegime(name))
  }

  /** Expected PIS and COFINS rates of a CST under a named regime. */
  function GetPisCofinsRates(repo: Repository, cst: string, regime: string): (r: Result<Rates, RepoError>)
    ensures ParseRegime(regime).Failure? ==> r == Failure(UnsupportedRegime(regime))
    ensures ParseRegime(regime).Success? ==>
      var reg := ParseRegime(regime).value;
      && (r.Success? <==> (cst, reg) in repo.rates)
      && (r.Success? ==> r.value == repo.rates[(cst, reg)])
      && (r.Failure? ==> r.error == RuleNotFound(cst, reg))
    ensures r.Success? && Valid(repo) ==> IsCstValid(repo, cst)
  {
    match ParseRegime(regime)
    case Failure(e) => Failure(e)
    case Success(reg) =>
      if (cst, reg) in repo.rates then Success(repo.rates[(cst, reg)])
      else Failure(RuleNotFound(cst, reg))
  }

  // ---------------------------------------------------------------- CFOP

  function GetCfopRule(repo: Repository, cfop: string): (r: Option<CfopRule>)
    ensures r.Some? <==> cfop in repo.cfopRules
    ensures r.Some? && Valid(repo) ==> r.value.cfop == cfop
  {
    if cfop in repo.cfopRules then Some(repo.cfopRules[cfop]) else None
  }

  function GetCfopsByScope(repo: Repository, scope: OperationScope): (codes: set<string>)
    ensures forall c :: c in codes <==> GetCfopRule(repo, c).Some? && GetCfopRule(repo, c).value.scope == scope
  {
    set c | c in repo.cfopRules && repo.cfopRules[c].scope == scope
  }

  function GetSugarCfops(repo: Repository): (codes: set<string>)
    ensures forall c :: c in codes <==> c in repo.cfopRules && repo.cfopRules[c].commonForSugar
  {
    set c | c in repo.cfopRules && repo.cfopRules[c].commonForSugar
  }

  /** The scope an operation between two states needs. */
  function ScopeFor(isInterstate: bool): OperationScope {
    if isInterstate then Interestadual else Interno
  }

  /** True exactly when the CFOP is registered with the scope the operation has. */
  function ValidateCfopScope(repo: Repository, cfop: string, isInterstate: bool): (ok: bool)
    ensures ok <==> cfop in repo.cfopRules && repo.cfopRules[cfop].scope == ScopeFor(isInterstate)
    ensures ok ==> cfop in GetCfopsByScope(repo, ScopeFor(isInterstate))
    ensures ok ==> cfop !in GetCfopsByScope(repo, ScopeFor(!isInterstate))
  {
    match GetCfopRule(repo, cfop)
    case None => false
    case Some(rule) =>
      if isInterstate then rule.scope == Interestadual else rule.scope == Interno
  }

  // ---------------------------------------------------------------- state rules

  /** The ICMS overrides registered for a state, by NCM (empty when none). */
  function GetStateRules(repo: Repository, uf: string): (rules: map<string, Rate>)
    ensures uf !in repo.stateRules ==> rules == map[]
    ensures uf in repo.stateRules ==> rules == repo.stateRules[uf]
  {
    if uf in repo.stateRules then repo.stateRules[uf] else map[]
  }

  function HasStateRules(repo: Repository, uf: string): (b: bool)
    ensures b <==> |GetStateRules(repo, uf)| > 0
  {
    uf in repo.stateRules && |repo.stateRules[uf]| > 0
  }

  /** A state-specific ICMS rate for an NCM, if one is registered; always within 0..20%. */
  function GetStateIcmsRate(repo: Repository, uf: string, ncm: string): (r: Option<Rate>)
    ensures r.Some? <==> ncm in GetStateRules(repo, uf)
    ensures r.Some? && Valid(repo) ==> r.value <= MAX_ICMS_RATE
  {
    var rules := GetStateRules(repo, uf);
    if ncm in rules then Some(rules[ncm]) else None
  }

  // ---------------------------------------------------------------- legal references

  function GetLegalReference(repo: Repository, code: string): (r: Option<LegalRef>)
    ensures r.Some? <==> code in repo.legalRefs
    ensures r.Some? && Valid(repo) ==> r.value.code == code
  {
    if code in repo.legalRefs then Some(repo.legalRefs[code]) else None
  }

  /** A citation line naming the law and its subject. */
  function FormatLegalCitation(repo: Repository, code: string): (r: Option<string>)
    ensures r.Some? <==> code in repo.legalRefs
    ensures r.Some? ==> Contains(r.value, repo.legalRefs[code].citation)
    ensures r.Some? ==> Contains(r.value, repo.legalRefs[code].title)
  {
    match GetLegalReference(repo, code)
    case None => None
    case Some(ref) =>
      var line := ref.citation + " - " + ref.title;
      ContainsSelf(ref.citation);
      ContainsInLeft(ref.citation, " - " + ref.title, ref.citation);
      assert line == ref.citation + (" - " + ref.title);
      ContainsSelf(ref.title);
      ContainsInRight(ref.citation + " - ", ref.title, ref.title);
      Some(line)
  }

  function GetAllLegalReferences(repo: Repository): (refs: set<LegalRef>)
    ensures forall ref :: ref in refs <==> exists k :: k in repo.legalRefs && repo.legalRefs[k] == ref
    ensures Valid(repo) ==> forall ref :: ref in refs ==> ref.code in repo.legalRefs
  {
    repo.legalRefs.Values
  }

  function GetLegalReferencesByScope(repo: Repository, scope: LegalScope): (refs: set<LegalRef>)
    ensures forall ref :: ref in refs <==> ref in GetAllLegalReferences(repo) && ref.scope == scope
  {
    set ref | ref in repo.legalRefs.Values && ref.scope == scope
  }

  function GetLegalReferencesByTax(repo: Repository, tax: string): (refs: set<LegalRef>)
    ensures forall ref :: ref in refs <==> ref in GetAllLegalReferences(repo) && tax in ref.taxes
  {
    set ref | ref in repo.legalRefs.Values && tax in ref.taxes
  }

  /** References whose code, title or citation contains `text`. */
  function SearchLegalReferences(repo: Repository, text: string): (refs: set<LegalRef>)
    ensures forall ref :: ref in refs <==>
      ref in GetAllLegalReferences(repo)
      && (Contains(ref.code, text) || Contains(ref.title, text) || Contains(ref.citation, text))
  {
    set ref | ref in repo.legalRefs.Values
      && (Contains(ref.code, text) || Contains(ref.title, text) || Contains(ref.citation, text))
  }

  // ---------------------------------------------------------------- composite probe

  datatype ConfigIssue = UnknownNcm(ncm: string) | InvalidPisCst(cst: string)
                       | InvalidCofinsCst(cst: string) | UnknownCfop(cfop: string)

  datatype TaxConfiguration = TaxConfiguration(
    valid: bool, errors: seq<ConfigIssue>,
    ncmInfo: Option<NcmRule>, pisInfo: Option<CstRule>,
    cofinsInfo: Option<CstRule>, cfopInfo: Option<CfopRule>)

  /** Quick sanity probe of an (NCM, PIS CST, COFINS CST, CFOP) combination:
      valid exactly when all four are registered, one issue per unknown code. */
  function ValidateTaxConfiguration(repo: Repository, ncm: string, pisCst: string, cofinsCst: string, cfop: string)
    : (r: TaxConfiguration)
    ensures r.valid <==> r.errors == []
    ensures r.valid <==> (ValidateNcmExists(repo, ncm) && IsCstValid(repo, pisCst)
                          && IsCstValid(repo, cofinsCst) && cfop in repo.cfopRules)
    ensures UnknownNcm(ncm) in r.errors <==> !ValidateNcmExists(repo, ncm)
    ensures InvalidPisCst(pisCst) in r.errors <==> !IsCstValid(repo, pisCst)
    ensures InvalidCofinsCst(cofinsCst) in r.errors <==> !IsCstValid(repo, cofinsCst)
    ensures UnknownCfop(cfop) in r.errors <==> cfop !in repo.cfopRules
    ensures |r.errors| <= 4
    ensures r.ncmInfo.Some? <==> ValidateNcmExists(repo, ncm)
    ensures r.pisInfo.Some? <==> IsCstValid(repo, pisCst)
  {
    var issues :=
      (if ValidateNcmExists(repo, ncm) then [] else [UnknownNcm(ncm)])
      + (if IsCstValid(repo, pisCst) then [] else [InvalidPisCst(pisCst)])
      + (if IsCstValid(repo, cofinsCst) then [] else [InvalidCofinsCst(cofinsCst)])
      + (if cfop in repo.cfopRules then [] else [UnknownCfop(cfop)]);
    TaxConfiguration(issues == [], issues,
      GetNcmRule(repo, ncm), GetPisCofinsRule(repo, pisCst),
      GetPisCofinsRule(repo, cofinsCst), GetCfopRule(repo, cfop))
  }
}
