/** The invoice entity graph the validators read, and the error value they
    produce. Everything here is an immutable value. */
module Entities {
  import opened Wrappers
  import opened Text
  import opened Money

  /** Audit urgency of a finding, most urgent first. */
  datatype Severity = Critical | Error | Warning {
    function Name(): string {
      match this
      case Critical => "CRITICAL"
      case Error => "ERROR"
      case Warning => "WARNING"
    }

    /** Higher is more urgent. */
    function Urgency(): nat {
      match this
      case Critical => 3
      case Error => 2
      case Warning => 1
    }
  }

  /** The rule family an error code belongs to; its prefix groups errors in reports. */
  datatype Category = NcmRules | PisRules | CofinsRules | PisCofinsRules | CfopRules | TotalRules {
    function Prefix(): (p: string)
      ensures p != [] && '_' !in p
    {
      match this
      case NcmRules => "NCM"
      case PisRules => "PIS"
      case CofinsRules => "COFINS"
      case PisCofinsRules => "PISCOFINS"
      case CfopRules => "CFOP"
      case TotalRules => "TOTAL"
    }
  }

  /** The closed set of error codes the validators emit. */
  datatype ErrorCode =
    | Ncm001 | Ncm002 | Ncm003
    | Pis001 | Pis002 | Pis003
    | Cofins001 | Cofins002 | Cofins003
    | PisCofins001
    | Cfop001 | Cfop002 | Cfop003 | Cfop004
    | Total001 | Total003 | Total004
  {
    function Category(): Category {
      match this
      case Ncm001 | Ncm002 | Ncm003 => NcmRules
      case Pis001 | Pis002 | Pis003 => PisRules
      case Cofins001 | Cofins002 | Cofins003 => CofinsRules
      case PisCofins001 => PisCofinsRules
      case Cfop001 | Cfop002 | Cfop003 | Cfop004 => CfopRules
      case Total001 | Total003 | Total004 => TotalRules
    }

    function Number(): (n: nat)
      ensures 1 <= n <= 4
    {
      match this
      case Ncm001 | Pis001 | Cofins001 | PisCofins001 | Cfop001 | Total001 => 1
      case Ncm002 | Pis002 | Cofins002 | Cfop002 => 2
      case Ncm003 | Pis003 | Cofins003 | Cfop003 | Total003 => 3
      case Cfop004 | Total004 => 4
    }

    /** The stable string identifier, e.g. "PIS_002". */
    function Name(): string {
      Category().Prefix() + "_" + "00" + [DigitChar(Number())]
    }
  }

  /** The report groups an error under the part of its code before the
      first underscore: that part is exactly the code's category prefix. */
  lemma NamePrefixIsCategory(c: ErrorCode)
    ensures PrefixBeforeUnderscore(c.Name()) == c.Category().Prefix()
  {
    var p, rest := c.Category().Prefix(), "00" + [DigitChar(c.Number())];
    assert c.Name() == p + "_" + rest;
    PrefixOfJoined(p, rest);
  }

  /** Distinct codes have distinct names. */
  lemma NameInjective(a: ErrorCode, b: ErrorCode)
    requires a.Name() == b.Name()
    ensures a == b
  {
    NamePrefixIsCategory(a);
    NamePrefixIsCategory(b);
    var n := a.Name();
    assert n[|n| - 1] == DigitChar(a.Number()) && n[|n| - 1] == DigitChar(b.Number());
    assert a.Number() == DigitValue(n[|n| - 1]) == b.Number();
  }

  /** A value as a finding shows it: a literal text, an amount (or rate)
      printed with two decimals, or a phrase around such an amount. The
      rendering happens only when the finding is displayed. */
  datatype Shown = Literal(text: string) | Decimal(units: nat) | Phrase(lead: string, units: nat, tail: string) {
    function Text(): string {
      match this
      case Literal(t) => t
      case Decimal(u) => FormatCents(u)
      case Phrase(l, u, t) => l + FormatCents(u) + t
    }
  }

  /** One discrepancy found by a validator; never changed after creation. */
  datatype ValidationError = ValidationError(
    code: ErrorCode,
    field: string,
    message: string,
    severity: Severity,
    actualValue: Shown,
    expectedValue: Shown,
    legalReference: Option<string>,
    legalArticle: Option<string>,
    itemNumero: Option<nat>,
    financialImpact: Option<Cents>,
    suggestion: Option<Shown>,
    canAutoCorrect: bool,
    correctedValue: Option<Shown>)

  datatype Company = Company(cnpj: string, razaoSocial: string, uf: string)

  /** Per-item taxation: CSTs, rates, bases and declared values. */
  datatype TaxItem = TaxItem(
    pisCst: string, pisAliquota: Rate, pisBase: Cents, pisValor: Cents,
    cofinsCst: string, cofinsAliquota: Rate, cofinsBase: Cents, cofinsValor: Cents,
    icmsAliquota: Rate, icmsValor: Cents)

  /** One invoice line; `quantidade` is in ten-thousandths of the unit. */
  datatype InvoiceItem = InvoiceItem(
    numeroItem: nat, codigoProduto: string, descricao: string,
    ncm: string, cfop: string, unidade: string,
    quantidade: nat, valorUnitario: Cents, valorTotal: Cents,
    impostos: TaxItem)

  datatype InvoiceTotals = InvoiceTotals(
    valorProdutos: Cents, valorTotalNota: Cents,
    valorPis: Cents, valorCofins: Cents, valorIcms: Cents)

  /** An NF-e as ingestion delivers it; the access key is an opaque digit string. */
  datatype Invoice = Invoice(
    chaveAcesso: string, numero: string, serie: string, dataEmissao: string,
    emitente: Company, destinatario: Company,
    cfopNota: string, naturezaOperacao: string,
    ufOrigem: string, ufDestino: string,
    items: seq<InvoiceItem>, totais: InvoiceTotals)
  {
    /** Origin and destination states differ. */
    predicate IsInterstate() {
      ufOrigem != ufDestino
    }
  }

  /** Some error in `errs` carries code `c`. */
  predicate HasCode(errs: seq<ValidationError>, c: ErrorCode) {
    exists e :: e in errs && e.code == c
  }

  /** When every error of `errs` has code `code`, a code occurs in it exactly when it is `code` and `errs` is non-empty. */
  lemma HasCodeOfUniform(errs: seq<ValidationError>, code: ErrorCode, c: ErrorCode)
    requires forall e :: e in errs ==> e.code == code
    ensures HasCode(errs, c) <==> errs != [] && c == code
  {
    if errs != [] && c == code {
      assert errs[0] in errs;
    }
  }

  /** A code found among errors of a single category belongs to that category. */
  lemma HasCodeCategory(errs: seq<ValidationError>, cat: Category, c: ErrorCode)
    requires forall e :: e in errs ==> e.code.Category() == cat
    requires HasCode(errs, c)
    ensures c.Category() == cat
  {
    var e :| e in errs && e.code == c;
  }

  /** A code occurs in a concatenation exactly when it occurs in one of the parts. */
  lemma HasCodeConcat(a: seq<ValidationError>, b: seq<ValidationError>, c: ErrorCode)
    ensures HasCode(a + b, c) <==> HasCode(a, c) || HasCode(b, c)
  {
    if HasCode(a + b, c) {
      var e :| e in a + b && e.code == c;
      assert e in a || e in b;
    }
    if HasCode(a, c) {
      var e :| e in a && e.code == c;
      assert e in a + b;
    }
    if HasCode(b, c) {
      var e :| e in b && e.code == c;
      assert e in a + b;
    }
  }

  /** The errors of `errs` with severity `s`, in order. */
  function WithSeverity(errs: seq<ValidationError>, s: Severity): (r: seq<ValidationError>)
    ensures forall e :: e in r <==> e in errs && e.severity == s
    ensures |r| <= |errs|
  {
    if errs == [] then []
    else WithSeverity(errs[..|errs| - 1], s)
         + (if errs[|errs| - 1].severity == s then [errs[|errs| - 1]] else [])
  }
}
