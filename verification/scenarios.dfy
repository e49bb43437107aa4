/** The repository's own fixtures replayed against the model: a sale of
    1000 kg of crystal sugar at R$ 3.50 from a São Paulo mill, to a buyer
    in São Paulo (internal) or Pernambuco (interstate), and the variations
    of it the tests make. Each lemma states the outcome the tests expect. */
module Scenarios {
  import opened Wrappers
  import opened Text
  import opened Money
  import opened Entities
  import opened FiscalRepository
  import opened FiscalTables
  import opened FederalValidators
  import opened ValidationFlow
  import opened ReportGenerator
  import opened CsvParser

  /** CST 01 at 1.65% / 7.60% on a R$ 3500.00 base, values 57.75 / 266.00. */
  const SugarTaxes: TaxItem := TaxItem("01", 165, 350000, 5775, "01", 760, 350000, 26600, 1200, 42000)

  /** 1000 kg (in ten-thousandths) at R$ 3.50, NCM 1701.11.00, CFOP 5101. */
  const SugarItem: InvoiceItem :=
    InvoiceItem(1, "ACU001", "AÇÚCAR CRISTAL", "17011100", "5101", "KG", 10000000, 350, 350000, SugarTaxes)

  /** The declared totals of the validator fixtures: R$ 1000.00, PIS 16.50, COFINS 76.00. */
  const FixtureTotals: InvoiceTotals := InvoiceTotals(100000, 100000, 1650, 7600, 12000)

  /** A sale from São Paulo to `ufDestino`. */
  function Sale(ufDestino: string, items: seq<InvoiceItem>, totais: InvoiceTotals): Invoice {
    Invoice("35230100000001000000550010000000011000000011", "1", "1", "2023-01-01",
            Company("12345678000190", "USINA TESTE", "SP"),
            Company("98765432000199", "COMPRADOR TESTE", ufDestino),
            "5101", "VENDA", "SP", ufDestino, items, totais)
  }

  function InternalSale(): Invoice {
    Sale("SP", [], FixtureTotals)
  }

  function InterstateSale(): Invoice {
    Sale("PE", [], FixtureTotals)
  }

  /** The rules the fixtures rely on: the sugar NCM with its keywords, CSTs
      01 and 06 with their STANDARD rates, CST 99 and NCM 12345678 unknown,
      5101 internal and 6101 interstate. */
  predicate RegistersSugarRules(repo: Repository) {
    && "17011100" in repo.ncmRules && repo.ncmRules["17011100"].sugarFamily
    && repo.ncmRules["17011100"].keywords == ["AÇÚCAR", "ACUCAR"]
    && "12345678" !in repo.ncmRules
    && "01" in repo.cstRules && "06" in repo.cstRules && "99" !in repo.cstRules
    && repo.cstRules["01"].situationType == Tributada && repo.cstRules["06"].situationType == AliquotaZero
    && ("01", Standard) in repo.rates && repo.rates[("01", Standard)] == Rates(165, 760)
    && ("06", Standard) in repo.rates && repo.rates[("06", Standard)] == Rates(0, 0)
    && "5101" in repo.cfopRules && repo.cfopRules["5101"].scope == Interno
    && "6101" in repo.cfopRules && repo.cfopRules["6101"].scope == OperationScope.Interestadual
  }

  /** The shipped tables are such a repository. */
  lemma TablesRegisterSugarRules()
    ensures RegistersSugarRules(Tables())
  {
    NcmTableFacts();
    CstTableFacts();
    CfopTableFacts();
  }

  lemma NcmTableFacts()
    ensures "17011100" in Tables().ncmRules && Tables().ncmRules["17011100"].sugarFamily
    ensures Tables().ncmRules["17011100"].keywords == ["AÇÚCAR", "ACUCAR"]
    ensures "12345678" !in Tables().ncmRules
  {
  }

  lemma CstTableFacts()
    ensures "01" in Tables().cstRules && "06" in Tables().cstRules && "99" !in Tables().cstRules
    ensures Tables().cstRules["01"].situationType == Tributada && Tables().cstRules["06"].situationType == AliquotaZero
    ensures ("01", Standard) in Tables().rates && Tables().rates[("01", Standard)] == Rates(165, 760)
    ensures ("06", Standard) in Tables().rates && Tables().rates[("06", Standard)] == Rates(0, 0)
  {
  }

  lemma CfopTableFacts()
    ensures "5101" in Tables().cfopRules && Tables().cfopRules["5101"].scope == Interno
    ensures "6101" in Tables().cfopRules && Tables().cfopRules["6101"].scope == OperationScope.Interestadual
  {
  }

  // ================================================================ NCM

  /** The sugar item passes every NCM rule: its description names the product. */
  lemma SugarItemNcmClean(repo: Repository)
    requires RegistersSugarRules(repo)
    ensures ValidateNcm(repo, SugarItem, InternalSale()) == []
  {
    assert IsDigitCode(SugarItem.ncm, NCM_LENGTH);
    assert OccursAt(SugarItem.descricao, "AÇÚCAR", 0);
    assert Contains(SugarItem.descricao, "AÇÚCAR");
    assert "AÇÚCAR" in repo.ncmRules["17011100"].keywords;
    assert DescriptionMatches(SugarItem.descricao, repo.ncmRules["17011100"].keywords);
  }

  /** A four-digit NCM is reported once, as a critical NCM_001. */
  lemma ShortNcmRejected(repo: Repository)
    ensures var errs := ValidateNcm(repo, SugarItem.(ncm := "1701"), InternalSale());
      |errs| == 1 && errs[0].code == Ncm001 && errs[0].severity == Critical
  {
    NcmFormatShortCircuits(repo, SugarItem.(ncm := "1701"), InternalSale());
  }

  /** A well-formed code outside the sector raises NCM_002. */
  lemma ForeignNcmRejected(repo: Repository)
    requires RegistersSugarRules(repo)
    ensures HasCode(ValidateNcm(repo, SugarItem.(ncm := "12345678"), InternalSale()), Ncm002)
  {
    assert IsDigitCode("12345678", NCM_LENGTH);
    NcmRulesFire(repo, SugarItem.(ncm := "12345678"), InternalSale());
  }

  // ================================================================ PIS / COFINS

  /** The declared rates and values of the sugar item are exactly the registered ones. */
  lemma SugarItemTaxesClean(repo: Repository)
    requires RegistersSugarRules(repo)
    ensures ValidatePisCofins(repo, SugarItem, InternalSale()) == []
  {
    assert ExpectedRate(repo, Pis, "01") == Some(165);
    assert ExpectedRate(repo, Cofins, "01") == Some(760);
    assert TaxValue(350000, 165) == 5775 && TaxValue(350000, 760) == 26600;
    assert ValidateTax(repo, Pis, SugarItem) == [];
    assert ValidateTax(repo, Cofins, SugarItem) == [];
  }

  /** PIS at 5.00% instead of 1.65% on R$ 3500.00: a critical PIS_002 worth R$ 117.25. */
  lemma WrongPisRate(repo: Repository)
    requires RegistersSugarRules(repo)
    ensures var errs := ValidatePisCofins(repo, SugarItem.(impostos := SugarTaxes.(pisAliquota := 500)), InternalSale());
      && |errs| >= 1 && errs[0].code == Pis002 && errs[0].severity == Critical
      && errs[0].financialImpact == Some(11725)
      && errs[0].correctedValue == Some(Decimal(165))
      && errs[0].legalReference == Some("Lei 10.637/2002")
  {
    var item := SugarItem.(impostos := SugarTaxes.(pisAliquota := 500));
    assert ExpectedRate(repo, Pis, "01") == Some(165);
    assert RateImpact(500, 165, 350000) == 11725;
    var rate := RateCheck(repo, Pis, item);
    assert rate != [] && rate[0].financialImpact == Some(11725);
    assert ValidateTax(repo, Pis, item) == rate + ValueCheck(Pis, item);
  }

  /** COFINS at 10.00% instead of 7.60% raises a critical COFINS_002. */
  lemma WrongCofinsRate(repo: Repository)
    requires RegistersSugarRules(repo)
    ensures var item := SugarItem.(impostos := SugarTaxes.(cofinsAliquota := 1000));
      HasCode(ValidatePisCofins(repo, item, InternalSale()), Cofins002)
      && forall e :: e in ValidatePisCofins(repo, item, InternalSale()) && e.code == Cofins002 ==> e.severity == Critical
  {
    var item := SugarItem.(impostos := SugarTaxes.(cofinsAliquota := 1000));
    assert ExpectedRate(repo, Cofins, "01") == Some(760);
    PisCofinsRulesFire(repo, Cofins, item, InternalSale());
    forall e | e in ValidatePisCofins(repo, item, InternalSale()) && e.code == Cofins002
      ensures e.severity == Critical
    {
      TaxCodeInCombined(repo, Cofins, item, InternalSale(), Cofins002);
      CofinsRateIsCritical(repo, item, e);
    }
  }

  lemma CofinsRateIsCritical(repo: Repository, item: InvoiceItem, e: ValidationError)
    requires e in ValidatePisCofins(repo, item, InternalSale()) && e.code == Cofins002
    ensures e.severity == Critical
  {
    var pis, cofins, cross := ValidateTax(repo, Pis, item), ValidateTax(repo, Cofins, item), CstDivergenceCheck(repo, item);
    assert e in pis || e in cofins || e in cross;
    if IsCstValid(repo, item.impostos.cofinsCst) {
      assert cofins == RateCheck(repo, Cofins, item) + ValueCheck(Cofins, item);
    }
  }

  /** A PIS value of R$ 100.00 against 57.75 computed: PIS_003 with the difference as impact. */
  lemma WrongPisValue(repo: Repository)
    requires RegistersSugarRules(repo)
    ensures var errs := ValidatePisCofins(repo, SugarItem.(impostos := SugarTaxes.(pisValor := 10000)), InternalSale());
      |errs| == 1 && errs[0].code == Pis003 && errs[0].financialImpact == Some(4225)
  {
    var item := SugarItem.(impostos := SugarTaxes.(pisValor := 10000));
    assert ExpectedRate(repo, Pis, "01") == Some(165);
    assert ExpectedRate(repo, Cofins, "01") == Some(760);
    assert TaxValue(350000, 165) == 5775 && TaxValue(350000, 760) == 26600;
    assert ValidateTax(repo, Pis, item) == ValueCheck(Pis, item);
    assert ValidateTax(repo, Cofins, item) == [];
  }

  /** CST 99 is unknown: PIS_001 (and COFINS_001 for COFINS). */
  lemma UnknownCsts(repo: Repository)
    requires RegistersSugarRules(repo)
    ensures HasCode(ValidatePisCofins(repo, SugarItem.(impostos := SugarTaxes.(pisCst := "99")), InternalSale()), Pis001)
    ensures HasCode(ValidatePisCofins(repo, SugarItem.(impostos := SugarTaxes.(cofinsCst := "99")), InternalSale()), Cofins001)
  {
    PisCofinsRulesFire(repo, Pis, SugarItem.(impostos := SugarTaxes.(pisCst := "99")), InternalSale());
    PisCofinsRulesFire(repo, Cofins, SugarItem.(impostos := SugarTaxes.(cofinsCst := "99")), InternalSale());
  }

  /** PIS CST 01 (TRIBUTADA) with COFINS CST 06 (ALIQUOTA_ZERO): the
      divergence warning PISCOFINS_001. */
  lemma DivergentCsts(repo: Repository)
    requires RegistersSugarRules(repo)
    ensures var item := SugarItem.(impostos := SugarTaxes.(cofinsCst := "06"));
      HasCode(ValidatePisCofins(repo, item, InternalSale()), PisCofins001)
      && forall e :: e in ValidatePisCofins(repo, item, InternalSale()) && e.code == PisCofins001 ==> e.severity == Warning
  {
    var item := SugarItem.(impostos := SugarTaxes.(cofinsCst := "06"));
    CstDivergenceFires(repo, item, InternalSale());
    forall e | e in ValidatePisCofins(repo, item, InternalSale()) && e.code == PisCofins001
      ensures e.severity == Warning
    {
      var pis, cofins, cross := ValidateTax(repo, Pis, item), ValidateTax(repo, Cofins, item), CstDivergenceCheck(repo, item);
      assert e in pis || e in cofins || e in cross;
    }
  }

  /** PIS CST 01 with COFINS CST 02, both TRIBUTADA: no divergence warning. */
  lemma SameSituationCstsAgree(repo: Repository)
    requires RegistersSugarRules(repo)
    requires "02" in repo.cstRules && repo.cstRules["02"].situationType == Tributada
    ensures !HasCode(ValidatePisCofins(repo, SugarItem.(impostos := SugarTaxes.(cofinsCst := "02")), InternalSale()),
                     PisCofins001)
  {
    CstDivergenceFires(repo, SugarItem.(impostos := SugarTaxes.(cofinsCst := "02")), InternalSale());
  }

  /** R$ 350.00 at 1.65% is 5.775, which rounds half to even to R$ 5.78. */
  lemma HalfCentRoundsToEven()
    ensures TaxValue(35000, 165) == 578
  {
  }

  // ================================================================ CFOP

  /** A three-digit CFOP is a critical CFOP_001. */
  lemma ShortCfopRejected(repo: Repository)
    ensures var errs := ValidateCfop(repo, SugarItem.(cfop := "510"), InternalSale());
      |errs| == 1 && errs[0].code == Cfop001 && errs[0].severity == Critical
  {
    assert !IsDigitCode("510", CFOP_LENGTH);
  }

  /** 5101 fits a sale inside São Paulo. */
  lemma InternalCfopAccepted(repo: Repository)
    requires RegistersSugarRules(repo)
    ensures ValidateCfop(repo, SugarItem, InternalSale()) == []
  {
    assert IsDigitCode("5101", CFOP_LENGTH);
  }

  /** 5101 on a sale to Pernambuco is CFOP_003; 6101 inside São Paulo is CFOP_004. */
  lemma CfopScopeMismatches(repo: Repository)
    requires RegistersSugarRules(repo)
    ensures var errs := ValidateCfop(repo, SugarItem, InterstateSale());
      |errs| == 1 && errs[0].code == Cfop003
    ensures var errs := ValidateCfop(repo, SugarItem.(cfop := "6101"), InternalSale());
      |errs| == 1 && errs[0].code == Cfop004
  {
    assert IsDigitCode("5101", CFOP_LENGTH) && IsDigitCode("6101", CFOP_LENGTH);
  }

  /** An item with the internal CFOP 5101 on an interstate invoice draws exactly CFOP_003. */
  lemma InternalCfopOnInterstateInvoice(repo: Repository, item: InvoiceItem, inv: Invoice)
    requires RegistersSugarRules(repo)
    requires item.cfop == "5101" && inv.IsInterstate()
    ensures var errs := ValidateCfop(repo, item, inv); |errs| == 1 && errs[0].code == Cfop003
  {
    assert IsDigitCode("5101", CFOP_LENGTH);
  }

  /** An exported row of a São Paulo seller to a Pernambuco buyer, item
      CFOP 5101: the ingested invoice is interstate and its item raises CFOP_003. */
  lemma IngestedInterstateSaleFlagged(repo: Repository, row: CsvRow)
    requires RegistersSugarRules(repo)
    requires row.emitente.uf == "SP" && row.destinatario.uf == "PE" && row.itemCfop == "5101"
    ensures var inv := InvoiceOf([row]);
      inv.IsInterstate() && |inv.items| == 1
      && var errs := ValidateCfop(repo, inv.items[0], inv);
         |errs| == 1 && errs[0].code == Cfop003
  {
    var inv := InvoiceOf([row]);
    var item := inv.items[0];
    assert item == RowToItem(row);
    assert item.cfop == "5101" by {
      var cfop := NormalizeCfop(row.itemCfop);
      assert |cfop| == 4 && cfop[0] == '5' && cfop[1] == '1' && cfop[2] == '0' && cfop[3] == '1';
    }
    assert inv.IsInterstate();
    InternalCfopOnInterstateInvoice(repo, item, inv);
  }

  // ================================================================ totals

  /** Declared products total equal to the item sum: no TOTAL_001. */
  lemma MatchingProductsTotal()
    ensures !HasCode(ValidateTotals(Sale("SP", [SugarItem], FixtureTotals.(valorProdutos := 350000))), Total001)
  {
    var inv := Sale("SP", [SugarItem], FixtureTotals.(valorProdutos := 350000));
    assert inv.items[..0] == [];
    TotalsRulesFire(inv);
  }

  /** R$ 1000.00 declared against R$ 3500.00 of items: a critical TOTAL_001 worth R$ 2500.00. */
  lemma DivergentProductsTotal()
    ensures var errs := ValidateTotals(Sale("SP", [SugarItem], FixtureTotals));
      |errs| >= 1 && errs[0].code == Total001 && errs[0].severity == Critical
      && errs[0].financialImpact == Some(250000)
  {
    var inv := Sale("SP", [SugarItem], FixtureTotals);
    assert inv.items[..0] == [];
    assert Sum(inv.items, ValorTotal) == 350000;
  }

  /** The second item of the two-item fixture: 500 kg of refined sugar at R$ 4.00. */
  const RefinedItem: InvoiceItem :=
    InvoiceItem(2, "ACU002", "AÇÚCAR REFINADO", "17019900", "5101", "KG", 5000000, 400, 200000,
                TaxItem("01", 165, 200000, 3300, "01", 760, 200000, 15200, 0, 0))

  /** Two items (R$ 3500.00 + R$ 2000.00) against totals of 1000.00 / 10.00 / 20.00:
      all three reconciliations fail. */
  lemma TwoItemTotalsAllDiverge()
    ensures var errs := ValidateTotals(Sale("SP", [SugarItem, RefinedItem], InvoiceTotals(100000, 100000, 1000, 2000, 0)));
      HasCode(errs, Total001) && HasCode(errs, Total003) && HasCode(errs, Total004) && |errs| == 3
  {
    var inv := Sale("SP", [SugarItem, RefinedItem], InvoiceTotals(100000, 100000, 1000, 2000, 0));
    forall a: Amount ensures Sum(inv.items, a) == a.Of(SugarItem) + a.Of(RefinedItem) {
      SumOne(SugarItem, a);
      SumOne(RefinedItem, a);
      SumAppend([SugarItem], [RefinedItem], a);
    }
    assert Sum(inv.items, ValorTotal) == 550000;
    assert Sum(inv.items, PisValor) == 9075;
    assert Sum(inv.items, CofinsValor) == 41800;
    TotalsRulesFire(inv);
    TotalsCount(inv);
  }

  // ================================================================ full validation and reports

  /** A run of one item sums to that item's amount. */
  lemma SumOne(item: InvoiceItem, a: Amount)
    ensures Sum([item], a) == a.Of(item)
  {
    assert [item][..0] == [];
  }

  /** The consistent sale: the sugar item with totals that match it. */
  function ConsistentSale(): Invoice {
    Sale("SP", [SugarItem], InvoiceTotals(350000, 350000, 5775, 26600, 42000))
  }

  /** The consistent sugar sale passes the whole pipeline without a single finding. */
  lemma ConsistentSaleIsClean(repo: Repository)
    requires RegistersSugarRules(repo)
    ensures FullValidation(repo, ConsistentSale()) == []
  {
    var inv := ConsistentSale();
    SugarItemNcmClean(repo);
    SugarItemTaxesClean(repo);
    InternalCfopAccepted(repo);
    ItemClean(repo, inv);
    assert inv.items[..0] == [];
    assert ItemsErrors(inv.items, inv, AllItemChecks(repo)) == [];
    ConsistentTotalsPass();
  }

  /** The consistent sale's totals reconcile with its single item. */
  lemma ConsistentTotalsPass()
    ensures ValidateTotals(ConsistentSale()) == []
  {
    var inv := ConsistentSale();
    SumOne(SugarItem, ValorTotal);
    SumOne(SugarItem, PisValor);
    SumOne(SugarItem, CofinsValor);
    TotalsCount(inv);
  }

  /** The item checks read the invoice only for its states, so the sugar
      item is clean in any internal sale. */
  lemma ItemClean(repo: Repository, inv: Invoice)
    requires inv.ufOrigem == inv.ufDestino
    requires ValidateNcm(repo, SugarItem, InternalSale()) == []
    requires ValidatePisCofins(repo, SugarItem, InternalSale()) == []
    requires ValidateCfop(repo, SugarItem, InternalSale()) == []
    ensures ItemErrors(SugarItem, inv, AllItemChecks(repo)) == []
  {
    ItemErrorsOfAll(repo, SugarItem, inv);
    assert ValidateNcm(repo, SugarItem, inv) == ValidateNcm(repo, SugarItem, InternalSale());
    assert ValidatePisCofins(repo, SugarItem, inv) == ValidatePisCofins(repo, SugarItem, InternalSale());
    assert ValidateCfop(repo, SugarItem, inv) == ValidateCfop(repo, SugarItem, InternalSale());
  }

  /** A clean invoice's report counts no problems. */
  lemma CleanReportCountsZero(inv: Invoice)
    ensures Contains(GenerateMarkdownReport(inv, []), TOTAL_LABEL + "0")
  {
    MarkdownShowsSummary(inv, []);
    assert NatToString(0) == "0";
  }

  /** The errors of the wrong-rate scenario group under "PIS", cite the PIS
      law, and make a report with findings and a positive impact. */
  lemma WrongRateReport(repo: Repository)
    requires RegistersSugarRules(repo)
    ensures var errs := ValidatePisCofins(repo, SugarItem.(impostos := SugarTaxes.(pisAliquota := 500)), InternalSale());
      var r := DefaultGenerator().GenerateJsonReport(InternalSale(), errs);
      && "PIS" in r.errorsByType
      && Lists(r.legalReferences, "Lei 10.637/2002")
      && r.validationSummary.totalErrors > 0
      && r.validationSummary.financialImpact.total > 0
  {
    WrongPisRate(repo);
    RateErrorReport(InternalSale(), ValidatePisCofins(repo, SugarItem.(impostos := SugarTaxes.(pisAliquota := 500)), InternalSale()));
  }

  /** A report whose first error is a PIS rate error with an impact. */
  lemma RateErrorReport(inv: Invoice, errs: seq<ValidationError>)
    requires |errs| >= 1 && errs[0].code == Pis002 && errs[0].financialImpact == Some(11725)
    requires errs[0].legalReference == Some("Lei 10.637/2002")
    ensures var r := DefaultGenerator().GenerateJsonReport(inv, errs);
      && "PIS" in r.errorsByType
      && Lists(r.legalReferences, "Lei 10.637/2002")
      && r.validationSummary.totalErrors > 0
      && r.validationSummary.financialImpact.total > 0
  {
    var e := errs[0];
    assert e in errs && ImpactOf(e) > 0;
    ErrorTypeIsCategory(e);
  }

  /** The three findings of the report fixture: a critical PIS rate error
      worth R$ 117.25, a description warning and a products-total error
      worth R$ 500.00. */
  function ReportFixtureErrors(): seq<ValidationError> {
    [ValidationError(Pis002, "pis_aliquota", "Alíquota PIS incorreta", Critical, Decimal(500), Decimal(165),
                     Some("Lei 10.637/2002"), Some("Art. 2º"), Some(1), Some(11725),
                     Some(Literal("Corrigir alíquota para 1.65%")), true, Some(Decimal(165))),
     ValidationError(Ncm003, "descricao", "Descrição pode não corresponder ao NCM", Warning,
                     Literal("AÇÚCAR CRISTAL"), Literal("Açúcar de cana em bruto"),
                     Some("Tabela NCM/TIPI"), None, Some(1), None, None, false, None),
     ValidationError(Total001, "valor_produtos", "Valor total divergente", Error, Decimal(300000), Decimal(350000),
                     None, None, None, Some(50000), None, true, None)]
  }

  /** One finding of each severity: three in all, one per severity, a positive total impact. */
  lemma ReportFixtureSummary()
    ensures var s := Summarize(ReportFixtureErrors());
      && s.totalErrors == 3
      && s.bySeverity == SeverityCounts(1, 1, 1)
      && s.financialImpact.total > 0
  {
    var errs := ReportFixtureErrors();
    OnePerSeverity(errs);
  }

  /** A critical finding with an impact, a warning and an error are counted once per severity. */
  lemma OnePerSeverity(errs: seq<ValidationError>)
    requires |errs| == 3 && errs[0].severity == Critical && errs[1].severity == Warning && errs[2].severity == Error
    requires ImpactOf(errs[0]) > 0
    ensures var s := Summarize(errs);
      && s.totalErrors == 3
      && s.bySeverity == SeverityCounts(1, 1, 1)
      && s.financialImpact.total > 0
  {
    assert errs[0] in errs;
    assert errs[..2][..1][..0] == [] && errs[..2][..1] == [errs[0]] && errs[..2] == [errs[0], errs[1]];
    assert errs[..3] == errs;
  }

  /** Findings of the PIS, NCM and TOTAL families (PIS_002, NCM_003 and
      TOTAL_001 in the report fixture) group under "PIS", "NCM" and "TOTAL". */
  lemma ReportFixtureGroups(errs: seq<ValidationError>)
    requires |errs| == 3
    requires errs[0].code.Category() == PisRules && errs[1].code.Category() == NcmRules
    requires errs[2].code.Category() == TotalRules
    ensures PisRules.Prefix() in GroupErrorsByType(errs)
    ensures NcmRules.Prefix() in GroupErrorsByType(errs)
    ensures TotalRules.Prefix() in GroupErrorsByType(errs)
  {
    GroupedUnder(errs, 0, PisRules);
    GroupedUnder(errs, 1, NcmRules);
    GroupedUnder(errs, 2, TotalRules);
  }

  /** An error's group, named after its category, is a key of the grouping. */
  lemma GroupedUnder(errs: seq<ValidationError>, i: nat, c: Category)
    requires i < |errs| && errs[i].code.Category() == c
    ensures c.Prefix() in GroupErrorsByType(errs)
  {
    ErrorTypeIsCategory(errs[i]);
    assert errs[i] in errs;
  }

  /** The fixture's legal references include the PIS law. */
  lemma ReportFixtureCitesPisLaw()
    ensures Lists(ExtractLegalReferences(ReportFixtureErrors()), "Lei 10.637/2002")
  {
    var errs := ReportFixtureErrors();
    assert errs[0] in errs && errs[0].legalReference == Some("Lei 10.637/2002");
  }

  /** An invoice without findings: no errors, no critical ones, no impact. */
  lemma EmptySummary()
    ensures Summarize([]) == ValidationSummary(0, SeverityCounts(0, 0, 0), ImpactSummary(0, 0, 0, 0))
  {
  }

  /** The fixture's CNPJ, masked. */
  lemma FixtureCnpjFormatting()
    ensures FormatCnpj("12345678000190") == "12.345.678/0001-90"
  {
    var cnpj := "12345678000190";
    assert cnpj[..2] == "12" && cnpj[2..5] == "345" && cnpj[5..8] == "678";
    assert cnpj[8..12] == "0001" && cnpj[12..] == "90";
  }

  /** The fixture's NCM, masked. */
  lemma FixtureNcmFormatting()
    ensures FormatNcm("17011100") == "1701.11.00"
  {
    var ncm := "17011100";
    assert ncm[..4] == "1701" && ncm[4..6] == "11" && ncm[6..] == "00";
  }
}
