/** Audit reports over an invoice and its accumulated errors: a structured
    summary and a narrative markdown document. Both are pure functions of
    the invoice and the error list. */
module ReportGenerator {
  import opened Wrappers
  import opened Text
  import opened Money
  import opened Entities

  const DEFAULT_VERSION: string := "1.0.0"
  const VALIDATOR_NAME: string := "FiscoLayer NF-e Validator"

  // ================================================================ formatting

  /** "12345678000190" becomes "12.345.678/0001-90"; any other length is shown as given. */
  function FormatCnpj(cnpj: string): (f: string)
    ensures |cnpj| == 14 ==> |f| == 18 && f[2] == '.' && f[6] == '.' && f[10] == '/' && f[15] == '-'
    ensures |cnpj| != 14 ==> f == cnpj
  {
    if |cnpj| == 14 then
      cnpj[..2] + "." + cnpj[2..5] + "." + cnpj[5..8] + "/" + cnpj[8..12] + "-" + cnpj[12..]
    else cnpj
  }

  /** The digits of a masked CNPJ, masks removed. */
  function UnmaskCnpj(f: string): string
    requires |f| == 18
  {
    f[..2] + f[3..6] + f[7..10] + f[11..15] + f[16..]
  }

  /** Masking loses nothing: removing the mask gives back the fourteen characters. */
  lemma CnpjMaskRoundTrip(cnpj: string)
    requires |cnpj| == 14
    ensures UnmaskCnpj(FormatCnpj(cnpj)) == cnpj
  {
    var f := FormatCnpj(cnpj);
    assert f[..2] == cnpj[..2] && f[3..6] == cnpj[2..5] && f[7..10] == cnpj[5..8];
    assert f[11..15] == cnpj[8..12] && f[16..] == cnpj[12..];
    assert cnpj == cnpj[..2] + cnpj[2..5] + cnpj[5..8] + cnpj[8..12] + cnpj[12..];
  }

  /** "17011100" becomes "1701.11.00"; any other length is shown as given. */
  function FormatNcm(ncm: string): (f: string)
    ensures |ncm| == 8 ==> |f| == 10 && f[4] == '.' && f[7] == '.'
    ensures |ncm| != 8 ==> f == ncm
  {
    if |ncm| == 8 then ncm[..4] + "." + ncm[4..6] + "." + ncm[6..] else ncm
  }

  function UnmaskNcm(f: string): string
    requires |f| == 10
  {
    f[..4] + f[5..7] + f[8..]
  }

  /** Removing the dots of a formatted NCM gives back the code. */
  lemma NcmMaskRoundTrip(ncm: string)
    requires |ncm| == 8
    ensures UnmaskNcm(FormatNcm(ncm)) == ncm
  {
    var f := FormatNcm(ncm);
    assert f[..4] == ncm[..4] && f[5..7] == ncm[4..6] && f[8..] == ncm[6..];
    assert ncm == ncm[..4] + ncm[4..6] + ncm[6..];
  }

  // ================================================================ summary arithmetic

  /** The monetary impact of an error, zero when it has none. */
  function ImpactOf(e: ValidationError): Cents {
    if e.financialImpact.Some? then e.financialImpact.value else 0
  }

  /** The summed monetary impact of the errors; no single error's impact exceeds it. */
  function TotalImpact(errs: seq<ValidationError>): (t: Cents)
    ensures forall i :: 0 <= i < |errs| ==> ImpactOf(errs[i]) <= t
  {
    if errs == [] then 0
    else
      assert forall i :: 0 <= i < |errs| - 1 ==> errs[..|errs| - 1][i] == errs[i];
      TotalImpact(errs[..|errs| - 1]) + ImpactOf(errs[|errs| - 1])
  }

  /** The total is positive exactly when some error carries a positive impact. */
  lemma {:induction false} TotalImpactPositive(errs: seq<ValidationError>)
    ensures TotalImpact(errs) > 0 <==> exists e :: e in errs && ImpactOf(e) > 0
  {
    if errs != [] {
      var init, last := errs[..|errs| - 1], errs[|errs| - 1];
      TotalImpactPositive(init);
      assert forall e :: e in errs <==> e in init || e == last;
    }
  }

  /** Impacts add up over concatenated error lists. */
  lemma {:induction false} TotalImpactAppend(xs: seq<ValidationError>, ys: seq<ValidationError>)
    ensures TotalImpact(xs + ys) == TotalImpact(xs) + TotalImpact(ys)
  {
    if ys == [] {
      assert xs + ys == xs;
    } else {
      var zs := xs + ys;
      assert zs[..|zs| - 1] == xs + ys[..|ys| - 1];
      TotalImpactAppend(xs, ys[..|ys| - 1]);
    }
  }

  /** Some error has severity `sev` exactly when the filter for it is non-empty. */
  lemma SeverityPresent(errs: seq<ValidationError>, sev: Severity)
    ensures |WithSeverity(errs, sev)| > 0 <==> exists e :: e in errs && e.severity == sev
  {
    var r := WithSeverity(errs, sev);
    if |r| > 0 {
      assert r[0] in r;
    }
  }

  /** Filtering by severity splits the list: the three counts add up to its length. */
  lemma {:induction false} SeverityCountsAddUp(errs: seq<ValidationError>)
    ensures |WithSeverity(errs, Critical)| + |WithSeverity(errs, Error)| + |WithSeverity(errs, Warning)| == |errs|
  {
    if errs != [] {
      SeverityCountsAddUp(errs[..|errs| - 1]);
    }
  }

  /** Filtering by severity splits the impact too: the three subtotals add up to the total. */
  lemma {:induction false} SeverityImpactsAddUp(errs: seq<ValidationError>)
    ensures TotalImpact(WithSeverity(errs, Critical)) + TotalImpact(WithSeverity(errs, Error))
            + TotalImpact(WithSeverity(errs, Warning)) == TotalImpact(errs)
  {
    if errs != [] {
      var init, last := errs[..|errs| - 1], errs[|errs| - 1];
      SeverityImpactsAddUp(init);
      var single := [last];
      TotalImpactAppend(WithSeverity(init, Critical), if last.severity == Critical then single else []);
      TotalImpactAppend(WithSeverity(init, Error), if last.severity == Error then single else []);
      TotalImpactAppend(WithSeverity(init, Warning), if last.severity == Warning then single else []);
      assert single[..0] == [];
    }
  }

  // ================================================================ grouping

  /** The group an error belongs to: the part of its code before the first underscore. */
  function ErrorType(e: ValidationError): string {
    PrefixBeforeUnderscore(e.code.Name())
  }

  /** The errors of `errs` of type `t`, in order. */
  function WithType(errs: seq<ValidationError>, t: string): (r: seq<ValidationError>)
    ensures forall e :: e in r <==> e in errs && ErrorType(e) == t
    ensures |r| <= |errs|
  {
    if errs == [] then []
    else WithType(errs[..|errs| - 1], t)
         + (if ErrorType(errs[|errs| - 1]) == t then [errs[|errs| - 1]] else [])
  }

  /** The errors grouped by type; every group is non-empty and keeps list order. */
  function GroupErrorsByType(errs: seq<ValidationError>): (g: map<string, seq<ValidationError>>)
    ensures forall t :: t in g <==> exists e :: e in errs && ErrorType(e) == t
    ensures forall t :: t in g ==> g[t] == WithType(errs, t) && g[t] != []
  {
    map t | t in (set e | e in errs :: ErrorType(e)) :: WithType(errs, t)
  }

  /** Groups are named after rule families: the type of an error is its category's prefix. */
  lemma ErrorTypeIsCategory(e: ValidationError)
    ensures ErrorType(e) == e.code.Category().Prefix()
  {
    NamePrefixIsCategory(e.code);
  }

  // ================================================================ legal references

  datatype LegalEntry = LegalEntry(reference: string, article: Option<string>)

  /** Whether `refs` already lists `reference`. */
  predicate Lists(refs: seq<LegalEntry>, reference: string) {
    exists x :: x in refs && x.reference == reference
  }

  /** The legal references the errors cite, each once, in order of first
      citation, with the article of that first citation. */
  function ExtractLegalReferences(errs: seq<ValidationError>): (r: seq<LegalEntry>)
    ensures forall i, j :: 0 <= i < j < |r| ==> r[i].reference != r[j].reference
    ensures forall x :: x in r ==> exists e :: e in errs && e.legalReference == Some(x.reference)
    ensures forall e :: e in errs && e.legalReference.Some? ==> Lists(r, e.legalReference.value)
  {
    if errs == [] then []
    else
      var acc, last := ExtractLegalReferences(errs[..|errs| - 1]), errs[|errs| - 1];
      assert forall e :: e in errs ==> e in errs[..|errs| - 1] || e == last;
      match last.legalReference
      case None => acc
      case Some(ref) =>
        if Lists(acc, ref) then acc
        else
          var r := acc + [LegalEntry(ref, last.legalArticle)];
          assert r[|acc|].reference == ref;
          r
  }

  // ================================================================ structured summary

  datatype Metadata = Metadata(reportVersion: string, validator: string)

  datatype OperationKind = Interna | Interestadual {
    function Name(): string {
      match this
      case Interna => "INTERNA"
      case Interestadual => "INTERESTADUAL"
    }
  }

  datatype PartyInfo = PartyInfo(cnpj: string, cnpjFormatado: string, razaoSocial: string, uf: string)

  datatype OperationInfo = OperationInfo(tipo: OperationKind, cfop: string, natureza: string,
                                         ufOrigem: string, ufDestino: string)

  datatype NfeInfo = NfeInfo(chaveAcesso: string, numero: string, serie: string, dataEmissao: string,
                             emitente: PartyInfo, destinatario: PartyInfo, operacao: OperationInfo,
                             valorTotal: Cents)

  datatype SeverityCounts = SeverityCounts(critical: nat, error: nat, warning: nat)

  datatype ImpactSummary = ImpactSummary(total: Cents, critical: Cents, error: Cents, warning: Cents)

  datatype ValidationSummary = ValidationSummary(totalErrors: nat, bySeverity: SeverityCounts,
                                                 financialImpact: ImpactSummary)

  /** One error as the report lists it: plain text and numbers only. */
  datatype ErrorEntry = ErrorEntry(code: string, field: string, message: string, severity: string,
                                   actualValue: string, expectedValue: string, itemNumero: Option<nat>,
                                   financialImpact: Option<Cents>, legalReference: Option<string>,
                                   suggestion: Option<string>)

  datatype ItemAnalysis = ItemAnalysis(numeroItem: nat, descricao: string, ncm: string, ncmFormatado: string,
                                       cfop: string, valorTotal: Cents, errorCount: nat)

  datatype JsonReport = JsonReport(
    metadata: Metadata,
    nfeInfo: NfeInfo,
    validationSummary: ValidationSummary,
    errors: seq<ErrorEntry>,
    errorsByType: map<string, seq<ErrorEntry>>,
    itemsAnalysis: seq<ItemAnalysis>,
    recommendations: seq<string>,
    legalReferences: seq<LegalEntry>)

  function Party(c: Company): PartyInfo {
    PartyInfo(c.cnpj, FormatCnpj(c.cnpj), c.razaoSocial, c.uf)
  }

  /** The invoice's identity, parties and kind of operation. */
  function NfeInfoOf(inv: Invoice): (n: NfeInfo)
    ensures n.chaveAcesso == inv.chaveAcesso && n.numero == inv.numero
    ensures n.emitente.cnpj == inv.emitente.cnpj && n.destinatario.razaoSocial == inv.destinatario.razaoSocial
    ensures n.operacao.tipo == Interna <==> inv.ufOrigem == inv.ufDestino
  {
    NfeInfo(inv.chaveAcesso, inv.numero, inv.serie, inv.dataEmissao,
            Party(inv.emitente), Party(inv.destinatario),
            OperationInfo(if inv.ufOrigem == inv.ufDestino then Interna else Interestadual,
                          inv.cfopNota, inv.naturezaOperacao, inv.ufOrigem, inv.ufDestino),
            inv.totais.valorTotalNota)
  }

  /** Counts and impacts of the errors, overall and by severity. */
  function Summarize(errs: seq<ValidationError>): (s: ValidationSummary)
    ensures s.totalErrors == |errs|
    ensures s.bySeverity == SeverityCounts(|WithSeverity(errs, Critical)|, |WithSeverity(errs, Error)|,
                                           |WithSeverity(errs, Warning)|)
    ensures s.financialImpact == ImpactSummary(TotalImpact(errs), TotalImpact(WithSeverity(errs, Critical)),
                                               TotalImpact(WithSeverity(errs, Error)),
                                               TotalImpact(WithSeverity(errs, Warning)))
    ensures s.bySeverity.critical > 0 <==> exists e :: e in errs && e.severity == Critical
    ensures s.bySeverity.error > 0 <==> exists e :: e in errs && e.severity == Error
    ensures s.bySeverity.warning > 0 <==> exists e :: e in errs && e.severity == Warning
    ensures s.bySeverity.critical + s.bySeverity.error + s.bySeverity.warning == s.totalErrors
    ensures s.financialImpact.critical + s.financialImpact.error + s.financialImpact.warning
            == s.financialImpact.total
    ensures s.financialImpact.total > 0 <==> exists e :: e in errs && ImpactOf(e) > 0
  {
    SeverityCountsAddUp(errs);
    SeverityImpactsAddUp(errs);
    TotalImpactPositive(errs);
    SeverityPresent(errs, Critical);
    SeverityPresent(errs, Error);
    SeverityPresent(errs, Warning);
    ValidationSummary(
      |errs|,
      SeverityCounts(|WithSeverity(errs, Critical)|, |WithSeverity(errs, Error)|, |WithSeverity(errs, Warning)|),
      ImpactSummary(TotalImpact(errs), TotalImpact(WithSeverity(errs, Critical)),
                    TotalImpact(WithSeverity(errs, Error)), TotalImpact(WithSeverity(errs, Warning))))
  }

  function Entry(e: ValidationError): (x: ErrorEntry)
    ensures x.code == e.code.Name() && x.message == e.message && x.severity == e.severity.Name()
    ensures x.financialImpact == e.financialImpact
  {
    ErrorEntry(e.code.Name(), e.field, e.message, e.severity.Name(),
               e.actualValue.Text(), e.expectedValue.Text(), e.itemNumero, e.financialImpact,
               e.legalReference, if e.suggestion.Some? then Some(e.suggestion.value.Text()) else None)
  }

  /** The report's error list: one entry per error, in order. */
  function Entries(errs: seq<ValidationError>): (r: seq<ErrorEntry>)
    ensures |r| == |errs| && forall i :: 0 <= i < |errs| ==> r[i] == Entry(errs[i])
  {
    seq(|errs|, i requires 0 <= i < |errs| => Entry(errs[i]))
  }

  /** The errors attached to item `n`, in order. */
  function ErrorsOfItem(errs: seq<ValidationError>, n: nat): (r: seq<ValidationError>)
    ensures forall e :: e in r <==> e in errs && e.itemNumero == Some(n)
    ensures |r| <= |errs|
  {
    if errs == [] then []
    else ErrorsOfItem(errs[..|errs| - 1], n)
         + (if errs[|errs| - 1].itemNumero == Some(n) then [errs[|errs| - 1]] else [])
  }

  /** One item as the report analyses it: its identity, its NCM in the
      dotted mask, and the number of errors that name it. */
  function AnalyzeItem(item: InvoiceItem, errs: seq<ValidationError>): (a: ItemAnalysis)
    ensures a.numeroItem == item.numeroItem && a.descricao == item.descricao && a.valorTotal == item.valorTotal
    ensures a.ncmFormatado == FormatNcm(item.ncm)
    ensures a.errorCount == |ErrorsOfItem(errs, item.numeroItem)| <= |errs|
    ensures a.errorCount == 0 <==> forall e :: e in errs ==> e.itemNumero != Some(item.numeroItem)
  {
    var mine := ErrorsOfItem(errs, item.numeroItem);
    assert mine != [] ==> mine[0] in mine;
    ItemAnalysis(item.numeroItem, item.descricao, item.ncm, FormatNcm(item.ncm), item.cfop,
                 item.valorTotal, |ErrorsOfItem(errs, item.numeroItem)|)
  }

  /** The suggestions the errors carry, in order. */
  function Recommendations(errs: seq<ValidationError>): (r: seq<string>)
    ensures |r| <= |errs|
  {
    if errs == [] then []
    else
      var last := errs[|errs| - 1];
      Recommendations(errs[..|errs| - 1]) + (if last.suggestion.Some? then [last.suggestion.value.Text()] else [])
  }

  /** The report's errors grouped by type, each group listed as entries. */
  function EntriesByType(errs: seq<ValidationError>): (g: map<string, seq<ErrorEntry>>)
    ensures forall t :: t in g <==> exists e :: e in errs && ErrorType(e) == t
    ensures forall t :: t in g ==> g[t] == Entries(WithType(errs, t))
  {
    var groups := GroupErrorsByType(errs);
    map t | t in groups :: Entries(groups[t])
  }

  /** One analysis per item, in item order. */
  function ItemsAnalysis(inv: Invoice, errs: seq<ValidationError>): (r: seq<ItemAnalysis>)
    ensures |r| == |inv.items| && forall i :: 0 <= i < |inv.items| ==> r[i] == AnalyzeItem(inv.items[i], errs)
  {
    seq(|inv.items|, i requires 0 <= i < |inv.items| => AnalyzeItem(inv.items[i], errs))
  }

  /** A report generator, configured by the version it stamps on reports. */
  datatype Generator = Generator(version: string) {

    function GenerateJsonReport(inv: Invoice, errs: seq<ValidationError>): (r: JsonReport)
      ensures r.metadata.reportVersion == version
      ensures r.nfeInfo == NfeInfoOf(inv)
      ensures r.validationSummary == Summarize(errs)
      ensures r.errors == Entries(errs)
      ensures r.errorsByType == EntriesByType(errs)
      ensures r.itemsAnalysis == ItemsAnalysis(inv, errs)
      ensures r.recommendations == Recommendations(errs)
      ensures r.legalReferences == ExtractLegalReferences(errs)
    {
      JsonReport(Metadata(version, VALIDATOR_NAME), NfeInfoOf(inv), Summarize(errs), Entries(errs),
                 EntriesByType(errs), ItemsAnalysis(inv, errs), Recommendations(errs),
                 ExtractLegalReferences(errs))
    }
  }

  function DefaultGenerator(): Generator {
    Generator(DEFAULT_VERSION)
  }

  // ================================================================ narrative document

  const TITLE: string := "RELATÓRIO DE AUDITORIA FISCAL"
  const HEADER: string := "# \U{1F4CB} " + TITLE
  const TOTAL_LABEL: string := "Total de Problemas Encontrados:** "

  function SeverityLabel(s: Severity): string {
    match s
    case Critical => "CRÍTICO"
    case Error => "ERRO"
    case Warning => "AVISO"
  }

  function HeaderParts(inv: Invoice): seq<string> {
    [HEADER, "\n\n",
     "## Dados da NF-e\n\n",
     "- **Chave de Acesso:** ", inv.chaveAcesso, "\n",
     "- **Número:** ", inv.numero, "\n",
     "- **Emitente:** ", inv.emitente.razaoSocial, " (", FormatCnpj(inv.emitente.cnpj), ")\n",
     "- **Destinatário:** ", inv.destinatario.razaoSocial, " (", FormatCnpj(inv.destinatario.cnpj), ")\n\n"]
  }

  function SummaryParts(s: ValidationSummary): seq<string> {
    ["## Resumo\n\n",
     "- **", TOTAL_LABEL + NatToString(s.totalErrors), "\n",
     "- **Críticos:** ", NatToString(s.bySeverity.critical), "\n",
     "- **Erros:** ", NatToString(s.bySeverity.error), "\n",
     "- **Avisos:** ", NatToString(s.bySeverity.warning), "\n\n",
     "## Impacto Financeiro\n\n",
     "- **Total:** ", "R$ " + FormatCents(s.financialImpact.total), "\n\n"]
  }

  function ErrorParts(e: ValidationError): seq<string> {
    ["### ", e.code.Name(), " - ", e.message, "\n",
     "- **Severidade:** ", SeverityLabel(e.severity), "\n",
     "- **Campo:** ", e.field, "\n",
     "- **Valor Encontrado:** ", e.actualValue.Text(), "\n",
     "- **Valor Esperado:** ", e.expectedValue.Text(), "\n",
     if e.financialImpact.Some? then "- **Impacto:** R$ " + FormatCents(e.financialImpact.value) + "\n" else "",
     if e.legalReference.Some? then "- **Base Legal:** " + e.legalReference.value + "\n" else "",
     "\n"]
  }

  function ErrorBlocks(errs: seq<ValidationError>): seq<string> {
    seq(|errs|, i requires 0 <= i < |errs| => Concat(ErrorParts(errs[i])))
  }

  function ItemParts(item: InvoiceItem, errs: seq<ValidationError>): seq<string> {
    ["### ", "Item " + NatToString(item.numeroItem), " - ", item.descricao, "\n",
     "- **NCM:** ", FormatNcm(item.ncm), "\n",
     "- **CFOP:** ", item.cfop, "\n",
     "- **Valor Total:** R$ ", FormatCents(item.valorTotal), "\n",
     "- **Problemas:** ", NatToString(|ErrorsOfItem(errs, item.numeroItem)|), "\n\n"]
  }

  function ItemBlocks(inv: Invoice, errs: seq<ValidationError>): seq<string> {
    seq(|inv.items|, i requires 0 <= i < |inv.items| => Concat(ItemParts(inv.items[i], errs)))
  }

  function LegalLines(refs: seq<LegalEntry>): seq<string> {
    seq(|refs|, i requires 0 <= i < |refs| => "- " + refs[i].reference + "\n")
  }

  /** The narrative report laid out from its pieces: header and invoice
      data, summary and financial impact, one block per error, one block
      per item, and one line per legal reference. */
  function Document(header: seq<string>, summary: seq<string>, errorBlocks: seq<string>,
                    itemBlocks: seq<string>, legalLines: seq<string>): string {
    Concat([Concat(header), Concat(summary),
            "## Problemas Encontrados\n\n" + Concat(errorBlocks),
            "## Itens\n\n" + Concat(itemBlocks),
            "## Referências Legais\n\n" + Concat(legalLines)])
  }

  /** The narrative audit report of an invoice and its errors: titled, and
      naming the invoice by its access key. */
  function GenerateMarkdownReport(inv: Invoice, errs: seq<ValidationError>): (md: string)
    ensures Contains(md, TITLE) && Contains(md, inv.chaveAcesso)
  {
    var h, s, eb, ib, ll := HeaderParts(inv), SummaryParts(Summarize(errs)), ErrorBlocks(errs),
                            ItemBlocks(inv, errs), LegalLines(ExtractLegalReferences(errs));
    HeaderShows(inv);
    InDocumentHeader(h, s, eb, ib, ll, TITLE);
    InDocumentHeader(h, s, eb, ib, ll, inv.chaveAcesso);
    Document(h, s, eb, ib, ll)
  }

  /** Text found in the header appears in the document. */
  lemma InDocumentHeader(h: seq<string>, s: seq<string>, eb: seq<string>, ib: seq<string>, ll: seq<string>,
                         t: string)
    requires Contains(Concat(h), t)
    ensures Contains(Document(h, s, eb, ib, ll), t)
  {
    var sections := [Concat(h), Concat(s), "## Problemas Encontrados\n\n" + Concat(eb),
                     "## Itens\n\n" + Concat(ib), "## Referências Legais\n\n" + Concat(ll)];
    ContainsInConcat(sections, 0, t);
  }

  /** Text found in the summary appears in the document. */
  lemma InDocumentSummary(h: seq<string>, s: seq<string>, eb: seq<string>, ib: seq<string>, ll: seq<string>,
                          t: string)
    requires Contains(Concat(s), t)
    ensures Contains(Document(h, s, eb, ib, ll), t)
  {
    var sections := [Concat(h), Concat(s), "## Problemas Encontrados\n\n" + Concat(eb),
                     "## Itens\n\n" + Concat(ib), "## Referências Legais\n\n" + Concat(ll)];
    ContainsInConcat(sections, 1, t);
  }

  /** Every error block appears in the document. */
  lemma InDocumentErrors(h: seq<string>, s: seq<string>, eb: seq<string>, ib: seq<string>, ll: seq<string>,
                         i: nat, t: string)
    requires i < |eb| && Contains(eb[i], t)
    ensures Contains(Document(h, s, eb, ib, ll), t)
  {
    ContainsInConcat(eb, i, t);
    ContainsInRight("## Problemas Encontrados\n\n", Concat(eb), t);
    var sections := [Concat(h), Concat(s), "## Problemas Encontrados\n\n" + Concat(eb),
                     "## Itens\n\n" + Concat(ib), "## Referências Legais\n\n" + Concat(ll)];
    ContainsInConcat(sections, 2, t);
  }

  /** Every item block appears in the document. */
  lemma InDocumentItems(h: seq<string>, s: seq<string>, eb: seq<string>, ib: seq<string>, ll: seq<string>,
                        i: nat, t: string)
    requires i < |ib| && Contains(ib[i], t)
    ensures Contains(Document(h, s, eb, ib, ll), t)
  {
    ContainsInConcat(ib, i, t);
    ContainsInRight("## Itens\n\n", Concat(ib), t);
    var sections := [Concat(h), Concat(s), "## Problemas Encontrados\n\n" + Concat(eb),
                     "## Itens\n\n" + Concat(ib), "## Referências Legais\n\n" + Concat(ll)];
    ContainsInConcat(sections, 3, t);
  }

  /** Every legal-reference line appears in the document. */
  lemma InDocumentLegal(h: seq<string>, s: seq<string>, eb: seq<string>, ib: seq<string>, ll: seq<string>,
                        i: nat, t: string)
    requires i < |ll| && Contains(ll[i], t)
    ensures Contains(Document(h, s, eb, ib, ll), t)
  {
    ContainsInConcat(ll, i, t);
    ContainsInRight("## Referências Legais\n\n", Concat(ll), t);
    var sections := [Concat(h), Concat(s), "## Problemas Encontrados\n\n" + Concat(eb),
                     "## Itens\n\n" + Concat(ib), "## Referências Legais\n\n" + Concat(ll)];
    ContainsInConcat(sections, 4, t);
  }

  /** The header shows the title, the access key and both parties' names. */
  lemma HeaderShows(inv: Invoice)
    ensures Contains(Concat(HeaderParts(inv)), HEADER)
    ensures Contains(Concat(HeaderParts(inv)), TITLE)
    ensures Contains(Concat(HeaderParts(inv)), inv.chaveAcesso)
    ensures Contains(Concat(HeaderParts(inv)), inv.emitente.razaoSocial)
    ensures Contains(Concat(HeaderParts(inv)), inv.destinatario.razaoSocial)
  {
    var h := HeaderParts(inv);
    ContainsPiece(h, 0);
    ContainsSelf(TITLE);
    ContainsInRight("# \U{1F4CB} ", TITLE, TITLE);
    ContainsInConcat(h, 0, TITLE);
    ContainsPiece(h, 4);
    ContainsPiece(h, 10);
    ContainsPiece(h, 15);
  }

  /** The document opens with the audit title and shows the invoice's key and both parties. */
  lemma MarkdownIdentifiesInvoice(inv: Invoice, errs: seq<ValidationError>)
    ensures Contains(GenerateMarkdownReport(inv, errs), HEADER)
    ensures Contains(GenerateMarkdownReport(inv, errs), TITLE)
    ensures Contains(GenerateMarkdownReport(inv, errs), inv.chaveAcesso)
    ensures Contains(GenerateMarkdownReport(inv, errs), inv.emitente.razaoSocial)
    ensures Contains(GenerateMarkdownReport(inv, errs), inv.destinatario.razaoSocial)
  {
    var h, s, eb, ib, ll := HeaderParts(inv), SummaryParts(Summarize(errs)), ErrorBlocks(errs),
                            ItemBlocks(inv, errs), LegalLines(ExtractLegalReferences(errs));
    HeaderShows(inv);
    InDocumentHeader(h, s, eb, ib, ll, HEADER);
    InDocumentHeader(h, s, eb, ib, ll, TITLE);
    InDocumentHeader(h, s, eb, ib, ll, inv.chaveAcesso);
    InDocumentHeader(h, s, eb, ib, ll, inv.emitente.razaoSocial);
    InDocumentHeader(h, s, eb, ib, ll, inv.destinatario.razaoSocial);
  }

  /** The summary shows the error count after its label and the total impact in reais. */
  lemma SummaryShows(summary: ValidationSummary)
    ensures Contains(Concat(SummaryParts(summary)), TOTAL_LABEL + NatToString(summary.totalErrors))
    ensures Contains(Concat(SummaryParts(summary)), "R$ " + FormatCents(summary.financialImpact.total))
  {
    var sp := SummaryParts(summary);
    ContainsPiece(sp, 2);
    ContainsPiece(sp, 15);
  }

  /** The document states the error count and the total impact of the summary. */
  lemma MarkdownShowsSummary(inv: Invoice, errs: seq<ValidationError>)
    ensures Contains(GenerateMarkdownReport(inv, errs), TOTAL_LABEL + NatToString(Summarize(errs).totalErrors))
    ensures Contains(GenerateMarkdownReport(inv, errs), "R$ " + FormatCents(Summarize(errs).financialImpact.total))
  {
    var summary := Summarize(errs);
    var h, s, eb, ib, ll := HeaderParts(inv), SummaryParts(summary), ErrorBlocks(errs),
                            ItemBlocks(inv, errs), LegalLines(ExtractLegalReferences(errs));
    SummaryShows(summary);
    InDocumentSummary(h, s, eb, ib, ll, TOTAL_LABEL + NatToString(summary.totalErrors));
    InDocumentSummary(h, s, eb, ib, ll, "R$ " + FormatCents(summary.financialImpact.total));
  }

  /** The document states the same error count and total impact as the structured report. */
  lemma MarkdownAgreesWithSummary(g: Generator, inv: Invoice, errs: seq<ValidationError>)
    ensures Contains(GenerateMarkdownReport(inv, errs),
                     TOTAL_LABEL + NatToString(g.GenerateJsonReport(inv, errs).validationSummary.totalErrors))
    ensures Contains(GenerateMarkdownReport(inv, errs),
                     "R$ " + FormatCents(g.GenerateJsonReport(inv, errs).validationSummary.financialImpact.total))
  {
    MarkdownShowsSummary(inv, errs);
  }

  /** An error's block shows its code, its message and its severity. */
  lemma ErrorBlockShows(e: ValidationError)
    ensures Contains(Concat(ErrorParts(e)), e.code.Name())
    ensures Contains(Concat(ErrorParts(e)), e.message)
    ensures Contains(Concat(ErrorParts(e)), SeverityLabel(e.severity))
  {
    var parts := ErrorParts(e);
    ContainsPiece(parts, 1);
    ContainsPiece(parts, 3);
    ContainsPiece(parts, 6);
  }

  /** The `i`-th error appears with its code, its message and its severity. */
  lemma ErrorShown(inv: Invoice, errs: seq<ValidationError>, i: nat)
    requires i < |errs|
    ensures Contains(GenerateMarkdownReport(inv, errs), errs[i].code.Name())
    ensures Contains(GenerateMarkdownReport(inv, errs), errs[i].message)
    ensures Contains(GenerateMarkdownReport(inv, errs), SeverityLabel(errs[i].severity))
  {
    var h, s, eb, ib, ll := HeaderParts(inv), SummaryParts(Summarize(errs)), ErrorBlocks(errs),
                            ItemBlocks(inv, errs), LegalLines(ExtractLegalReferences(errs));
    ErrorBlockShows(errs[i]);
    InDocumentErrors(h, s, eb, ib, ll, i, errs[i].code.Name());
    InDocumentErrors(h, s, eb, ib, ll, i, errs[i].message);
    InDocumentErrors(h, s, eb, ib, ll, i, SeverityLabel(errs[i].severity));
  }

  /** An error's block shows its monetary impact in reais, for an error that has one. */
  lemma ErrorBlockShowsImpact(e: ValidationError)
    requires e.financialImpact.Some?
    ensures Contains(Concat(ErrorParts(e)), "R$ " + FormatCents(e.financialImpact.value))
  {
    var parts, t := ErrorParts(e), "R$ " + FormatCents(e.financialImpact.value);
    LineShows("- **Impacto:** ", t);
    assert parts[17] == "- **Impacto:** " + t + "\n";
    ContainsInConcat(parts, 17, t);
  }

  /** An error's block shows its legal basis, for an error that cites one. */
  lemma ErrorBlockShowsBasis(e: ValidationError)
    requires e.legalReference.Some?
    ensures Contains(Concat(ErrorParts(e)), e.legalReference.value)
  {
    var parts, t := ErrorParts(e), e.legalReference.value;
    LineShows("- **Base Legal:** ", t);
    assert parts[18] == "- **Base Legal:** " + t + "\n";
    ContainsInConcat(parts, 18, t);
  }

  /** A labelled line shows its value. */
  lemma LineShows(lead: string, t: string)
    ensures Contains(lead + t + "\n", t)
  {
    ContainsSelf(t);
    ContainsInRight(lead, t, t);
    ContainsInLeft(lead + t, "\n", t);
  }

  /** The `i`-th error's monetary impact and legal basis appear, when it has them. */
  lemma ErrorImpactAndBasisShown(inv: Invoice, errs: seq<ValidationError>, i: nat)
    requires i < |errs|
    ensures errs[i].financialImpact.Some? ==>
      Contains(GenerateMarkdownReport(inv, errs), "R$ " + FormatCents(errs[i].financialImpact.value))
    ensures errs[i].legalReference.Some? ==>
      Contains(GenerateMarkdownReport(inv, errs), errs[i].legalReference.value)
  {
    var h, s, eb, ib, ll := HeaderParts(inv), SummaryParts(Summarize(errs)), ErrorBlocks(errs),
                            ItemBlocks(inv, errs), LegalLines(ExtractLegalReferences(errs));
    if errs[i].financialImpact.Some? {
      ErrorBlockShowsImpact(errs[i]);
      InDocumentErrors(h, s, eb, ib, ll, i, "R$ " + FormatCents(errs[i].financialImpact.value));
    }
    if errs[i].legalReference.Some? {
      ErrorBlockShowsBasis(errs[i]);
      InDocumentErrors(h, s, eb, ib, ll, i, errs[i].legalReference.value);
    }
  }

  /** Each legal reference the errors cite has its own line in the closing section. */
  lemma LegalReferenceListed(inv: Invoice, errs: seq<ValidationError>, k: nat)
    requires k < |ExtractLegalReferences(errs)|
    ensures Contains(GenerateMarkdownReport(inv, errs), "- " + ExtractLegalReferences(errs)[k].reference + "\n")
  {
    var refs := ExtractLegalReferences(errs);
    var h, s, eb, ib, ll := HeaderParts(inv), SummaryParts(Summarize(errs)), ErrorBlocks(errs),
                            ItemBlocks(inv, errs), LegalLines(refs);
    ContainsSelf(ll[k]);
    InDocumentLegal(h, s, eb, ib, ll, k, ll[k]);
  }

  /** Every error appears with its code, its message and its severity. */
  lemma MarkdownListsErrors(inv: Invoice, errs: seq<ValidationError>)
    ensures forall e :: e in errs ==>
      && Contains(GenerateMarkdownReport(inv, errs), e.code.Name())
      && Contains(GenerateMarkdownReport(inv, errs), e.message)
      && Contains(GenerateMarkdownReport(inv, errs), SeverityLabel(e.severity))
  {
    forall e | e in errs
      ensures Contains(GenerateMarkdownReport(inv, errs), e.code.Name())
      ensures Contains(GenerateMarkdownReport(inv, errs), e.message)
      ensures Contains(GenerateMarkdownReport(inv, errs), SeverityLabel(e.severity))
    {
      var i :| 0 <= i < |errs| && errs[i] == e;
      ErrorShown(inv, errs, i);
    }
  }

  /** An item's block shows its number, its description and its formatted NCM. */
  lemma ItemBlockShows(item: InvoiceItem, errs: seq<ValidationError>)
    ensures Contains(Concat(ItemParts(item, errs)), "Item " + NatToString(item.numeroItem))
    ensures Contains(Concat(ItemParts(item, errs)), item.descricao)
    ensures Contains(Concat(ItemParts(item, errs)), FormatNcm(item.ncm))
  {
    var parts := ItemParts(item, errs);
    ContainsPiece(parts, 1);
    ContainsPiece(parts, 3);
    ContainsPiece(parts, 6);
  }

  /** The `i`-th item appears by number, with its description and its formatted NCM. */
  lemma ItemShown(inv: Invoice, errs: seq<ValidationError>, i: nat)
    requires i < |inv.items|
    ensures Contains(GenerateMarkdownReport(inv, errs), "Item " + NatToString(inv.items[i].numeroItem))
    ensures Contains(GenerateMarkdownReport(inv, errs), inv.items[i].descricao)
    ensures Contains(GenerateMarkdownReport(inv, errs), FormatNcm(inv.items[i].ncm))
  {
    var h, s, eb, ib, ll := HeaderParts(inv), SummaryParts(Summarize(errs)), ErrorBlocks(errs),
                            ItemBlocks(inv, errs), LegalLines(ExtractLegalReferences(errs));
    var item := inv.items[i];
    ItemBlockShows(item, errs);
    InDocumentItems(h, s, eb, ib, ll, i, "Item " + NatToString(item.numeroItem));
    InDocumentItems(h, s, eb, ib, ll, i, item.descricao);
    InDocumentItems(h, s, eb, ib, ll, i, FormatNcm(item.ncm));
  }
  /** Every item appears by number, with its description and its formatted NCM. */
  lemma MarkdownListsItems(inv: Invoice, errs: seq<ValidationError>)
    ensures forall item :: item in inv.items ==>
      && Contains(GenerateMarkdownReport(inv, errs), "Item " + NatToString(item.numeroItem))
      && Contains(GenerateMarkdownReport(inv, errs), item.descricao)
      && Contains(GenerateMarkdownReport(inv, errs), FormatNcm(item.ncm))
  {
    forall item | item in inv.items
      ensures Contains(GenerateMarkdownReport(inv, errs), "Item " + NatToString(item.numeroItem))
      ensures Contains(GenerateMarkdownReport(inv, errs), item.descricao)
      ensures Contains(GenerateMarkdownReport(inv, errs), FormatNcm(item.ncm))
    {
      var i :| 0 <= i < |inv.items| && inv.items[i] == item;
      ItemShown(inv, errs, i);
    }
  }
}
