/** The four federal rule checkers. Each is a pure function of an item (or
    the whole invoice) and the rules store, returning a fresh sequence of
    errors; none of them fails or writes anything. Every check is a
    sequence of single-rule checks, each yielding at most one error with
    one fixed code; the lemmas below state which rule fires when. */
module FederalValidators {
  import opened Wrappers
  import opened Text
  import opened Money
  import opened Entities
  import opened FiscalRepository

  const NCM_LENGTH: nat := 8
  const CFOP_LENGTH: nat := 4

  /** The regime the PIS/COFINS checker compares against. */
  const DEFAULT_REGIME: string := "STANDARD"

  /** The legal basis each rule family cites. */
  function LegalReferenceFor(c: Category): Option<string> {
    match c
    case NcmRules => Some("Tabela NCM/TIPI")
    case PisRules => Some("Lei 10.637/2002")
    case CofinsRules => Some("Lei 10.833/2003")
    case _ => None
  }

  function LegalArticleFor(c: Category): Option<string> {
    match c
    case PisRules => Some("Art. 2º")
    case CofinsRules => Some("Art. 2º")
    case _ => None
  }

  /** A finding with the legal basis of its rule family and no correction attached. */
  function Finding(code: ErrorCode, severity: Severity, field: string, message: string,
                   actual: Shown, expected: Shown, itemNumero: Option<nat>, impact: Option<Cents>)
    : ValidationError
  {
    ValidationError(code, field, message, severity, actual, expected,
      LegalReferenceFor(code.Category()), LegalArticleFor(code.Category()),
      itemNumero, impact, None, false, None)
  }

  /** `errs` is the outcome of one rule: empty, or one error with that rule's code and severity. */
  predicate OneRule(errs: seq<ValidationError>, code: ErrorCode, severity: Severity, itemNumero: Option<nat>) {
    && |errs| <= 1
    && forall e :: e in errs ==> e.code == code && e.severity == severity && e.itemNumero == itemNumero
  }

  /** Which code a one-rule outcome carries. */
  lemma OneRuleCodes(errs: seq<ValidationError>, code: ErrorCode, severity: Severity, itemNumero: Option<nat>, c: ErrorCode)
    requires OneRule(errs, code, severity, itemNumero)
    ensures HasCode(errs, c) <==> errs != [] && c == code
  {
    HasCodeOfUniform(errs, code, c);
  }

  // ================================================================ NCM

  /** The item's description mentions one of the rule's keywords, or the rule lists none. */
  predicate DescriptionMatches(descricao: string, keywords: seq<string>) {
    keywords == [] || exists k | k in keywords :: Contains(descricao, k)
  }

  /** Sector rule: a well-formed NCM must belong to the sugar and ethanol sector. */
  function NcmSectorCheck(repo: Repository, item: InvoiceItem): (errs: seq<ValidationError>)
    ensures OneRule(errs, Ncm002, Error, Some(item.numeroItem))
    ensures errs != [] <==> item.ncm !in GetAllSugarNcms(repo)
  {
    if item.ncm in GetAllSugarNcms(repo) then []
    else [Finding(Ncm002, Error, "ncm", "NCM não pertence ao setor de açúcar/etanol",
                  Literal(item.ncm), Literal("NCM do setor sucroalcooleiro"), Some(item.numeroItem), None)]
  }

  /** Description rule: a registered NCM's keywords should appear in the description. */
  function NcmDescriptionCheck(repo: Repository, item: InvoiceItem): (errs: seq<ValidationError>)
    ensures OneRule(errs, Ncm003, Warning, Some(item.numeroItem))
    ensures errs != [] <==>
      ValidateNcmExists(repo, item.ncm) && !DescriptionMatches(item.descricao, GetNcmKeywords(repo, item.ncm))
  {
    match GetNcmRule(repo, item.ncm)
    case None => []
    case Some(rule) =>
      if DescriptionMatches(item.descricao, rule.keywords) then []
      else [Finding(Ncm003, Warning, "descricao", "Descrição pode não corresponder ao NCM",
                    Literal(item.descricao), Literal(rule.description), Some(item.numeroItem), None)]
  }

  /** Format first (an invalid code stops here), then sector membership,
      then whether the description fits the registered classification. */
  function ValidateNcm(repo: Repository, item: InvoiceItem, inv: Invoice): (errs: seq<ValidationError>)
    ensures forall e :: e in errs ==> e.code.Category() == NcmRules && e.itemNumero == Some(item.numeroItem)
    ensures |errs| <= 2
  {
    if !IsDigitCode(item.ncm, NCM_LENGTH) then
      [Finding(Ncm001, Critical, "ncm", "NCM deve ter 8 dígitos numéricos",
               Literal(item.ncm), Literal("8 dígitos"), Some(item.numeroItem), None)]
    else
      NcmSectorCheck(repo, item) + NcmDescriptionCheck(repo, item)
  }

  /** A malformed NCM yields exactly one critical NCM_001 and nothing else. */
  lemma NcmFormatShortCircuits(repo: Repository, item: InvoiceItem, inv: Invoice)
    requires !IsDigitCode(item.ncm, NCM_LENGTH)
    ensures |ValidateNcm(repo, item, inv)| == 1
    ensures ValidateNcm(repo, item, inv)[0].code == Ncm001
    ensures ValidateNcm(repo, item, inv)[0].severity == Critical
  {
  }

  /** For a well-formed NCM: NCM_002 exactly when outside the sector, NCM_003
      exactly when the description misses the registered keywords, and
      nothing is critical. */
  lemma NcmRulesFire(repo: Repository, item: InvoiceItem, inv: Invoice)
    requires IsDigitCode(item.ncm, NCM_LENGTH)
    ensures !HasCode(ValidateNcm(repo, item, inv), Ncm001)
    ensures HasCode(ValidateNcm(repo, item, inv), Ncm002) <==> item.ncm !in GetAllSugarNcms(repo)
    ensures HasCode(ValidateNcm(repo, item, inv), Ncm003) <==>
      ValidateNcmExists(repo, item.ncm) && !DescriptionMatches(item.descricao, GetNcmKeywords(repo, item.ncm))
    ensures forall e :: e in ValidateNcm(repo, item, inv) ==> e.severity != Critical
  {
    var sector, description := NcmSectorCheck(repo, item), NcmDescriptionCheck(repo, item);
    assert ValidateNcm(repo, item, inv) == sector + description;
    forall c | c in {Ncm001, Ncm002, Ncm003}
      ensures HasCode(sector + description, c) <==>
        (sector != [] && c == Ncm002) || (description != [] && c == Ncm003)
    {
      HasCodeConcat(sector, description, c);
      OneRuleCodes(sector, Ncm002, Error, Some(item.numeroItem), c);
      OneRuleCodes(description, Ncm003, Warning, Some(item.numeroItem), c);
    }
  }

  // ================================================================ PIS / COFINS

  /** The two contributions share one set of rules. */
  datatype Tax = Pis | Cofins {
    function Cst(t: TaxItem): string {
      if this == Pis then t.pisCst else t.cofinsCst
    }
    function DeclaredRate(t: TaxItem): Rate {
      if this == Pis then t.pisAliquota else t.cofinsAliquota
    }
    function Base(t: TaxItem): Cents {
      if this == Pis then t.pisBase else t.cofinsBase
    }
    function DeclaredValue(t: TaxItem): Cents {
      if this == Pis then t.pisValor else t.cofinsValor
    }
    function Rules(): Category {
      if this == Pis then PisRules else CofinsRules
    }
    function CstCode(): ErrorCode {
      if this == Pis then Pis001 else Cofins001
    }
    function RateCode(): ErrorCode {
      if this == Pis then Pis002 else Cofins002
    }
    function ValueCode(): ErrorCode {
      if this == Pis then Pis003 else Cofins003
    }
    function FieldPrefix(): string {
      if this == Pis then "pis" else "cofins"
    }
  }

  /** The registered rate of this contribution for a CST under the default regime. */
  function ExpectedRate(repo: Repository, tax: Tax, cst: string): (r: Option<Rate>)
    ensures r.Some? <==> GetPisCofinsRates(repo, cst, DEFAULT_REGIME).Success?
    ensures r.Some? ==> r.value == (if tax == Pis then GetPisCofinsRates(repo, cst, DEFAULT_REGIME).value.pis
                                    else GetPisCofinsRates(repo, cst, DEFAULT_REGIME).value.cofins)
  {
    match GetPisCofinsRates(repo, cst, DEFAULT_REGIME)
    case Success(rates) => Some(if tax == Pis then rates.pis else rates.cofins)
    case Failure(_) => None
  }

  /** The declared rate differs from the registered one (checked only for a valid CST). */
  predicate RateDiverges(repo: Repository, tax: Tax, t: TaxItem) {
    && IsCstValid(repo, tax.Cst(t))
    && ExpectedRate(repo, tax, tax.Cst(t)).Some?
    && tax.DeclaredRate(t) != ExpectedRate(repo, tax, tax.Cst(t)).value
  }

  /** The declared value is off by more than the tolerance from base x declared rate (checked only for a valid CST). */
  predicate ValueDiverges(repo: Repository, tax: Tax, t: TaxItem) {
    && IsCstValid(repo, tax.Cst(t))
    && Diverges(tax.DeclaredValue(t), TaxValue(tax.Base(t), tax.DeclaredRate(t)))
  }

  /** CST rule: the contribution's CST must be registered. */
  function CstCheck(repo: Repository, tax: Tax, item: InvoiceItem): (errs: seq<ValidationError>)
    ensures OneRule(errs, tax.CstCode(), Critical, Some(item.numeroItem))
    ensures errs != [] <==> !IsCstValid(repo, tax.Cst(item.impostos))
  {
    var cst := tax.Cst(item.impostos);
    if IsCstValid(repo, cst) then []
    else [Finding(tax.CstCode(), Critical, tax.FieldPrefix() + "_cst", "CST inválido",
                  Literal(cst), Literal("CST válido"), Some(item.numeroItem), None)]
  }

  /** Rate rule: the declared rate against the registered one; a CST
      without registered rates is not checked. The impact is the rate
      difference applied to the base; the fix is the registered rate. */
  function RateCheck(repo: Repository, tax: Tax, item: InvoiceItem): (errs: seq<ValidationError>)
    ensures OneRule(errs, tax.RateCode(), Critical, Some(item.numeroItem))
    ensures errs != [] <==>
      ExpectedRate(repo, tax, tax.Cst(item.impostos)).Some?
      && tax.DeclaredRate(item.impostos) != ExpectedRate(repo, tax, tax.Cst(item.impostos)).value
    ensures errs != [] ==>
      && errs[0].financialImpact == Some(RateImpact(tax.DeclaredRate(item.impostos),
                                                    ExpectedRate(repo, tax, tax.Cst(item.impostos)).value,
                                                    tax.Base(item.impostos)))
      && errs[0].correctedValue == Some(Decimal(ExpectedRate(repo, tax, tax.Cst(item.impostos)).value))
  {
    var t := item.impostos;
    match ExpectedRate(repo, tax, tax.Cst(t))
    case None => []
    case Some(expected) =>
      if tax.DeclaredRate(t) == expected then []
      else
        [Finding(tax.RateCode(), Critical, tax.FieldPrefix() + "_aliquota", "Alíquota incorreta",
                 Decimal(tax.DeclaredRate(t)), Decimal(expected), Some(item.numeroItem),
                 Some(RateImpact(tax.DeclaredRate(t), expected, tax.Base(t))))
          .(suggestion := Some(Phrase("Corrigir alíquota para ", expected, "%")),
            canAutoCorrect := true, correctedValue := Some(Decimal(expected)))]
  }

  /** Value rule: the declared value against base x declared rate, within the tolerance. */
  function ValueCheck(tax: Tax, item: InvoiceItem): (errs: seq<ValidationError>)
    ensures OneRule(errs, tax.ValueCode(), Error, Some(item.numeroItem))
    ensures errs != [] <==>
      Diverges(tax.DeclaredValue(item.impostos), TaxValue(tax.Base(item.impostos), tax.DeclaredRate(item.impostos)))
    ensures errs != [] ==>
      errs[0].financialImpact == Some(Diff(tax.DeclaredValue(item.impostos),
                                           TaxValue(tax.Base(item.impostos), tax.DeclaredRate(item.impostos))))
  {
    var t := item.impostos;
    var computed := TaxValue(tax.Base(t), tax.DeclaredRate(t));
    if Diverges(tax.DeclaredValue(t), computed) then
      [Finding(tax.ValueCode(), Error, tax.FieldPrefix() + "_valor", "Valor calculado incorretamente",
               Decimal(tax.DeclaredValue(t)), Decimal(computed), Some(item.numeroItem),
               Some(Diff(tax.DeclaredValue(t), computed)))
        .(canAutoCorrect := true, correctedValue := Some(Decimal(computed)))]
    else []
  }

  /** One contribution's checks: an invalid CST is reported alone; otherwise
      the rate and the value are checked independently. */
  function ValidateTax(repo: Repository, tax: Tax, item: InvoiceItem): (errs: seq<ValidationError>)
    ensures forall e :: e in errs ==> e.code.Category() == tax.Rules() && e.itemNumero == Some(item.numeroItem)
    ensures |errs| <= 2
  {
    if !IsCstValid(repo, tax.Cst(item.impostos)) then CstCheck(repo, tax, item)
    else RateCheck(repo, tax, item) + ValueCheck(tax, item)
  }

  /** An invalid CST is the only finding for its contribution. */
  lemma TaxCstShortCircuits(repo: Repository, tax: Tax, item: InvoiceItem)
    requires !IsCstValid(repo, tax.Cst(item.impostos))
    ensures |ValidateTax(repo, tax, item)| == 1
    ensures ValidateTax(repo, tax, item)[0].code == tax.CstCode()
    ensures ValidateTax(repo, tax, item)[0].severity == Critical
  {
    assert CstCheck(repo, tax, item)[0] in CstCheck(repo, tax, item);
  }

  /** Each of a contribution's three rules fires exactly under its own condition. */
  lemma TaxRulesFire(repo: Repository, tax: Tax, item: InvoiceItem)
    ensures HasCode(ValidateTax(repo, tax, item), tax.CstCode()) <==> !IsCstValid(repo, tax.Cst(item.impostos))
    ensures HasCode(ValidateTax(repo, tax, item), tax.RateCode()) <==> RateDiverges(repo, tax, item.impostos)
    ensures HasCode(ValidateTax(repo, tax, item), tax.ValueCode()) <==> ValueDiverges(repo, tax, item.impostos)
  {
    var cst, rate, value := CstCheck(repo, tax, item), RateCheck(repo, tax, item), ValueCheck(tax, item);
    forall c | c in {tax.CstCode(), tax.RateCode(), tax.ValueCode()}
      ensures HasCode(cst, c) <==> cst != [] && c == tax.CstCode()
      ensures HasCode(rate + value, c) <==>
        (rate != [] && c == tax.RateCode()) || (value != [] && c == tax.ValueCode())
    {
      OneRuleCodes(cst, tax.CstCode(), Critical, Some(item.numeroItem), c);
      HasCodeConcat(rate, value, c);
      OneRuleCodes(rate, tax.RateCode(), Critical, Some(item.numeroItem), c);
      OneRuleCodes(value, tax.ValueCode(), Error, Some(item.numeroItem), c);
    }
  }

  /** A declared rate equal to the registered one never raises the rate rule. */
  lemma MatchingRateNeverFlagged(repo: Repository, tax: Tax, item: InvoiceItem)
    requires GetPisCofinsRates(repo, tax.Cst(item.impostos), DEFAULT_REGIME).Success?
    requires tax.DeclaredRate(item.impostos) ==
      (if tax == Pis then GetPisCofinsRates(repo, tax.Cst(item.impostos), DEFAULT_REGIME).value.pis
       else GetPisCofinsRates(repo, tax.Cst(item.impostos), DEFAULT_REGIME).value.cofins)
    ensures !HasCode(ValidateTax(repo, tax, item), tax.RateCode())
  {
    TaxRulesFire(repo, tax, item);
  }

  /** The PIS and COFINS CSTs are both registered and the rules table puts
      them under different situation types (01 TRIBUTADA against 06
      ALIQUOTA_ZERO, say); two CSTs of one situation type (01 and 02) agree. */
  predicate CstsDiverge(repo: Repository, t: TaxItem) {
    var pis, cofins := GetPisCofinsRule(repo, t.pisCst), GetPisCofinsRule(repo, t.cofinsCst);
    pis.Some? && cofins.Some? && pis.value.situationType != cofins.value.situationType
  }

  /** Cross-check rule: PIS and COFINS should fall under the same situation type.
      The expected value shown is the PIS CST repeated, since COFINS should
      follow the PIS CST. */
  function CstDivergenceCheck(repo: Repository, item: InvoiceItem): (errs: seq<ValidationError>)
    ensures OneRule(errs, PisCofins001, Warning, Some(item.numeroItem))
    ensures errs != [] <==> CstsDiverge(repo, item.impostos)
  {
    var t := item.impostos;
    if !CstsDiverge(repo, t) then []
    else [Finding(PisCofins001, Warning, "cst", "CST de PIS e COFINS divergentes",
                  Literal(t.pisCst + "/" + t.cofinsCst), Literal(t.pisCst + "/" + t.pisCst), Some(item.numeroItem), None)]
  }

  /** PIS checks, then COFINS checks, then the CST divergence warning. */
  function ValidatePisCofins(repo: Repository, item: InvoiceItem, inv: Invoice): (errs: seq<ValidationError>)
    ensures forall e :: e in errs ==>
      e.code.Category() in {PisRules, CofinsRules, PisCofinsRules} && e.itemNumero == Some(item.numeroItem)
    ensures |errs| <= 5
  {
    ValidateTax(repo, Pis, item) + ValidateTax(repo, Cofins, item) + CstDivergenceCheck(repo, item)
  }

  /** Within the combined PIS/COFINS outcome, each contribution's three
      codes are raised exactly under that contribution's rule conditions. */
  lemma PisCofinsRulesFire(repo: Repository, tax: Tax, item: InvoiceItem, inv: Invoice)
    ensures HasCode(ValidatePisCofins(repo, item, inv), tax.CstCode()) <==> !IsCstValid(repo, tax.Cst(item.impostos))
    ensures HasCode(ValidatePisCofins(repo, item, inv), tax.RateCode()) <==> RateDiverges(repo, tax, item.impostos)
    ensures HasCode(ValidatePisCofins(repo, item, inv), tax.ValueCode()) <==> ValueDiverges(repo, tax, item.impostos)
  {
    TaxRulesFire(repo, tax, item);
    TaxCodeInCombined(repo, tax, item, inv, tax.CstCode());
    TaxCodeInCombined(repo, tax, item, inv, tax.RateCode());
    TaxCodeInCombined(repo, tax, item, inv, tax.ValueCode());
  }

  /** A contribution's own code is in the combined outcome exactly when that contribution's checks raised it. */
  lemma TaxCodeInCombined(repo: Repository, tax: Tax, item: InvoiceItem, inv: Invoice, c: ErrorCode)
    requires c.Category() == tax.Rules()
    ensures HasCode(ValidatePisCofins(repo, item, inv), c) <==> HasCode(ValidateTax(repo, tax, item), c)
  {
    PisCofinsCodes(repo, item, inv, c);
  }

  /** PISCOFINS_001 is raised exactly when the two CSTs' situation types differ. */
  lemma CstDivergenceFires(repo: Repository, item: InvoiceItem, inv: Invoice)
    ensures HasCode(ValidatePisCofins(repo, item, inv), PisCofins001) <==> CstsDiverge(repo, item.impostos)
  {
    PisCofinsCodes(repo, item, inv, PisCofins001);
  }

  /** A code is in the combined outcome exactly when its own part raised it. */
  lemma PisCofinsCodes(repo: Repository, item: InvoiceItem, inv: Invoice, c: ErrorCode)
    ensures HasCode(ValidatePisCofins(repo, item, inv), c) <==>
      || (c.Category() == PisRules && HasCode(ValidateTax(repo, Pis, item), c))
      || (c.Category() == CofinsRules && HasCode(ValidateTax(repo, Cofins, item), c))
      || (c == PisCofins001 && CstsDiverge(repo, item.impostos))
  {
    var pis, cofins, cross := ValidateTax(repo, Pis, item), ValidateTax(repo, Cofins, item), CstDivergenceCheck(repo, item);
    HasCodeConcat(pis + cofins, cross, c);
    HasCodeConcat(pis, cofins, c);
    OneRuleCodes(cross, PisCofins001, Warning, Some(item.numeroItem), c);
    if HasCode(pis, c) {
      HasCodeCategory(pis, PisRules, c);
    }
    if HasCode(cofins, c) {
      HasCodeCategory(cofins, CofinsRules, c);
    }
  }

  // ================================================================ CFOP

  /** Format first, then registration, then whether the registered scope
      matches the origin/destination states; the first failing rule is the
      only error. */
  function ValidateCfop(repo: Repository, item: InvoiceItem, inv: Invoice): (errs: seq<ValidationError>)
    ensures forall e :: e in errs ==>
      e.code.Category() == CfopRules && e.severity == Critical && e.itemNumero == Some(item.numeroItem)
    ensures |errs| <= 1
    ensures errs == [] <==>
      IsDigitCode(item.cfop, CFOP_LENGTH) && ValidateCfopScope(repo, item.cfop, inv.IsInterstate())
  {
    var no := Some(item.numeroItem);
    if !IsDigitCode(item.cfop, CFOP_LENGTH) then
      [Finding(Cfop001, Critical, "cfop", "CFOP deve ter 4 dígitos numéricos", Literal(item.cfop), Literal("4 dígitos"), no, None)]
    else
      match GetCfopRule(repo, item.cfop)
      case None =>
        [Finding(Cfop002, Critical, "cfop", "CFOP não cadastrado", Literal(item.cfop), Literal("CFOP cadastrado"), no, None)]
      case Some(rule) =>
        if rule.scope == Interno && inv.IsInterstate() then
          [Finding(Cfop003, Critical, "cfop", "CFOP interno em operação interestadual",
                   Literal(item.cfop), Literal("CFOP interestadual (6xxx)"), no, None)]
        else if rule.scope == Interestadual && !inv.IsInterstate() then
          [Finding(Cfop004, Critical, "cfop", "CFOP interestadual em operação interna",
                   Literal(item.cfop), Literal("CFOP interno (5xxx)"), no, None)]
        else []
  }

  /** The single CFOP error names the first rule that fails. */
  lemma CfopRulesFire(repo: Repository, item: InvoiceItem, inv: Invoice)
    ensures HasCode(ValidateCfop(repo, item, inv), Cfop001) <==> !IsDigitCode(item.cfop, CFOP_LENGTH)
    ensures HasCode(ValidateCfop(repo, item, inv), Cfop002) <==>
      IsDigitCode(item.cfop, CFOP_LENGTH) && item.cfop !in repo.cfopRules
    ensures HasCode(ValidateCfop(repo, item, inv), Cfop003) <==>
      && IsDigitCode(item.cfop, CFOP_LENGTH) && item.cfop in repo.cfopRules
      && repo.cfopRules[item.cfop].scope == Interno && inv.IsInterstate()
    ensures HasCode(ValidateCfop(repo, item, inv), Cfop004) <==>
      && IsDigitCode(item.cfop, CFOP_LENGTH) && item.cfop in repo.cfopRules
      && repo.cfopRules[item.cfop].scope == Interestadual && !inv.IsInterstate()
  {
    var errs := ValidateCfop(repo, item, inv);
    if errs != [] {
      assert errs[0] in errs;
      forall c ensures HasCode(errs, c) <==> c == errs[0].code {
        HasCodeOfUniform(errs, errs[0].code, c);
      }
    }
  }

  // ================================================================ Totals

  /** The per-item amounts the invoice totals aggregate. */
  datatype Amount = ValorTotal | PisValor | CofinsValor {
    function Of(item: InvoiceItem): Cents {
      match this
      case ValorTotal => item.valorTotal
      case PisValor => item.impostos.pisValor
      case CofinsValor => item.impostos.cofinsValor
    }
  }

  /** The sum of one amount over the items. */
  function Sum(items: seq<InvoiceItem>, a: Amount): Cents {
    if items == [] then 0 else Sum(items[..|items| - 1], a) + a.Of(items[|items| - 1])
  }

  /** Summing over two runs of items adds up. */
  lemma {:induction false} SumAppend(xs: seq<InvoiceItem>, ys: seq<InvoiceItem>, a: Amount)
    ensures Sum(xs + ys, a) == Sum(xs, a) + Sum(ys, a)
  {
    if ys == [] {
      assert xs + ys == xs;
    } else {
      var zs := xs + ys;
      assert zs[..|zs| - 1] == xs + ys[..|ys| - 1];
      assert zs[|zs| - 1] == ys[|ys| - 1];
      SumAppend(xs, ys[..|ys| - 1], a);
    }
  }

  /** A single reconciliation: one error, carrying the difference, when
      computed and declared differ by more than the tolerance. */
  function Reconcile(code: ErrorCode, severity: Severity, field: string, message: string,
                     computed: Cents, declared: Cents): (errs: seq<ValidationError>)
    ensures OneRule(errs, code, severity, None)
    ensures errs != [] <==> Diverges(computed, declared)
    ensures forall e :: e in errs ==> e.financialImpact == Some(Diff(computed, declared))
    ensures code.Category() == TotalRules ==> TotalsFindings(errs)
  {
    if Diverges(computed, declared) then
      [Finding(code, severity, field, message, Decimal(declared), Decimal(computed),
               None, Some(Diff(computed, declared)))]
    else []
  }

  function ProductsCheck(inv: Invoice): (errs: seq<ValidationError>)
    ensures OneRule(errs, Total001, Critical, None)
    ensures errs != [] <==> Diverges(Sum(inv.items, ValorTotal), inv.totais.valorProdutos)
    ensures forall e :: e in errs ==> e.financialImpact == Some(Diff(Sum(inv.items, ValorTotal), inv.totais.valorProdutos))
    ensures TotalsFindings(errs)
  {
    Reconcile(Total001, Critical, "valor_produtos", "Valor total dos produtos divergente",
              Sum(inv.items, ValorTotal), inv.totais.valorProdutos)
  }

  function PisTotalCheck(inv: Invoice): (errs: seq<ValidationError>)
    ensures OneRule(errs, Total003, Error, None)
    ensures errs != [] <==> Diverges(Sum(inv.items, PisValor), inv.totais.valorPis)
    ensures forall e :: e in errs ==> e.financialImpact == Some(Diff(Sum(inv.items, PisValor), inv.totais.valorPis))
    ensures TotalsFindings(errs)
  {
    Reconcile(Total003, Error, "valor_pis", "Total de PIS divergente",
              Sum(inv.items, PisValor), inv.totais.valorPis)
  }

  function CofinsTotalCheck(inv: Invoice): (errs: seq<ValidationError>)
    ensures OneRule(errs, Total004, Error, None)
    ensures errs != [] <==> Diverges(Sum(inv.items, CofinsValor), inv.totais.valorCofins)
    ensures forall e :: e in errs ==> e.financialImpact == Some(Diff(Sum(inv.items, CofinsValor), inv.totais.valorCofins))
    ensures TotalsFindings(errs)
  {
    Reconcile(Total004, Error, "valor_cofins", "Total de COFINS divergente",
              Sum(inv.items, CofinsValor), inv.totais.valorCofins)
  }

  /** Products, PIS and COFINS totals are each reconciled with the item
      sums, independently; every error is invoice-level and carries a
      difference above the tolerance. */
  function ValidateTotals(inv: Invoice): (errs: seq<ValidationError>)
    ensures forall e :: e in errs ==>
      && e.code.Category() == TotalRules && e.itemNumero == None
      && e.financialImpact.Some? && e.financialImpact.value > TOLERANCE_CENTS
  {
    var products, pis, cofins := ProductsCheck(inv), PisTotalCheck(inv), CofinsTotalCheck(inv);
    TotalsFindingsConcat(products, pis, cofins);
    products + pis + cofins
  }

  /** `errs` holds only invoice-level TOTAL findings above the tolerance. */
  predicate TotalsFindings(errs: seq<ValidationError>) {
    forall e :: e in errs ==>
      && e.code.Category() == TotalRules && e.itemNumero == None
      && e.financialImpact.Some? && e.financialImpact.value > TOLERANCE_CENTS
  }

  lemma TotalsFindingsConcat(a: seq<ValidationError>, b: seq<ValidationError>, c: seq<ValidationError>)
    requires TotalsFindings(a) && TotalsFindings(b) && TotalsFindings(c)
    ensures TotalsFindings(a + b + c)
  {
  }

  /** Each total's code is raised exactly when that total diverges from the
      item sum, the products mismatch is the only critical one, and it
      carries the full difference. */
  lemma TotalsRulesFire(inv: Invoice)
    ensures HasCode(ValidateTotals(inv), Total001) <==> Diverges(Sum(inv.items, ValorTotal), inv.totais.valorProdutos)
    ensures HasCode(ValidateTotals(inv), Total003) <==> Diverges(Sum(inv.items, PisValor), inv.totais.valorPis)
    ensures HasCode(ValidateTotals(inv), Total004) <==> Diverges(Sum(inv.items, CofinsValor), inv.totais.valorCofins)
    ensures forall e :: e in ValidateTotals(inv) ==> (e.severity == Critical <==> e.code == Total001)
    ensures forall e :: e in ValidateTotals(inv) && e.code == Total001 ==>
      e.financialImpact == Some(Diff(Sum(inv.items, ValorTotal), inv.totais.valorProdutos))
  {
    var products, pis, cofins := ProductsCheck(inv), PisTotalCheck(inv), CofinsTotalCheck(inv);
    forall c | c in {Total001, Total003, Total004}
      ensures HasCode(products + pis + cofins, c) <==>
        (products != [] && c == Total001) || (pis != [] && c == Total003) || (cofins != [] && c == Total004)
    {
      HasCodeConcat(products + pis, cofins, c);
      HasCodeConcat(products, pis, c);
      OneRuleCodes(products, Total001, Critical, None, c);
      OneRuleCodes(pis, Total003, Error, None, c);
      OneRuleCodes(cofins, Total004, Error, None, c);
    }
  }

  /** One error per diverging total. */
  lemma TotalsCount(inv: Invoice)
    ensures |ValidateTotals(inv)| ==
      (if Diverges(Sum(inv.items, ValorTotal), inv.totais.valorProdutos) then 1 else 0)
      + (if Diverges(Sum(inv.items, PisValor), inv.totais.valorPis) then 1 else 0)
      + (if Diverges(Sum(inv.items, CofinsValor), inv.totais.valorCofins) then 1 else 0)
  {
  }
}
