/** The reference tables the repository ships with (the sugar/ethanol
    subset), and what the repository's own tests establish about them. */
module FiscalTables {
  import opened Wrappers
  import opened Text
  import opened Money
  import opened FiscalRepository

  const NcmTable: map<string, NcmRule> := map[
    "17011100" := NcmRule("17011100", "Açúcar de cana em bruto", true, ["AÇÚCAR", "ACUCAR"]),
    "17011400" := NcmRule("17011400", "Outros açúcares de cana em bruto", true, ["AÇÚCAR", "ACUCAR"]),
    "17019900" := NcmRule("17019900", "Outros açúcares de cana, refinados", true, ["AÇÚCAR", "ACUCAR"]),
    "22071000" := NcmRule("22071000", "Álcool etílico não desnaturado", true, ["ÁLCOOL", "ALCOOL", "ETANOL"])
  ]

  const CstTable: map<string, CstRule> := map[
    "01" := CstRule("01", "Operação tributável com alíquota básica", Tributada),
    "02" := CstRule("02", "Operação tributável com alíquota diferenciada", Tributada),
    "04" := CstRule("04", "Operação tributável monofásica, revenda a alíquota zero", Monofasica),
    "06" := CstRule("06", "Operação tributável a alíquota zero", AliquotaZero),
    "07" := CstRule("07", "Operação isenta da contribuição", Isenta),
    "08" := CstRule("08", "Operação sem incidência da contribuição", SemIncidencia),
    "09" := CstRule("09", "Operação com suspensão da contribuição", Suspensao),
    "49" := CstRule("49", "Outras operações de saída", Outras)
  ]

  /** CSTs 02 and 49 have no registered rates: their rate lookup reports RuleNotFound. */
  const RateTable: map<(string, Regime), Rates> := map[
    ("01", Standard) := Rates(165, 760),
    ("01", Cumulative) := Rates(65, 300),
    ("04", Standard) := Rates(0, 0),
    ("04", Cumulative) := Rates(0, 0),
    ("06", Standard) := Rates(0, 0),
    ("06", Cumulative) := Rates(0, 0),
    ("07", Standard) := Rates(0, 0),
    ("07", Cumulative) := Rates(0, 0),
    ("08", Standard) := Rates(0, 0),
    ("08", Cumulative) := Rates(0, 0),
    ("09", Standard) := Rates(0, 0),
    ("09", Cumulative) := Rates(0, 0)
  ]

  const CfopTable: map<string, CfopRule> := map[
    "5101" := CfopRule("5101", "Venda de produção do estabelecimento", Interno, true),
    "5102" := CfopRule("5102", "Venda de mercadoria adquirida de terceiros", Interno, false),
    "6101" := CfopRule("6101", "Venda de produção do estabelecimento", Interestadual, true),
    "6102" := CfopRule("6102", "Venda de mercadoria adquirida de terceiros", Interestadual, false)
  ]

  const StateTable: map<string, map<string, Rate>> := map[
    "SP" := map["17011100" := 700],
    "PE" := map["17011100" := 1200]
  ]

  const LegalTable: map<string, LegalRef> := map[
    "LEI_10637" := LegalRef("LEI_10637", "PIS/PASEP - Regime Não Cumulativo", "Lei 10.637/2002", Federal, {"PIS"}),
    "LEI_10833" := LegalRef("LEI_10833", "COFINS - Regime Não Cumulativo", "Lei 10.833/2003", Federal, {"COFINS"}),
    "RICMS_SP" := LegalRef("RICMS_SP", "Regulamento do ICMS de São Paulo", "Decreto 45.490/2000", Estadual, {"ICMS"})
  ]

  function Tables(): Repository {
    Repository(NcmTable, CstTable, RateTable, CfopTable, StateTable, LegalTable)
  }

  lemma NcmTableValid()
    ensures forall k :: k in NcmTable ==> NcmTable[k].ncm == k && IsDigitCode(k, 8)
  {
    forall k | k in NcmTable ensures NcmTable[k].ncm == k && IsDigitCode(k, 8) {
      assert k == "17011100" || k == "17011400" || k == "17019900" || k == "22071000";
    }
  }

  lemma CstTableValid()
    ensures forall k :: k in CstTable ==> CstTable[k].cst == k && IsDigitCode(k, 2)
  {
    forall k | k in CstTable ensures CstTable[k].cst == k && IsDigitCode(k, 2) {
      assert k in {"01", "02", "04", "06", "07", "08", "09", "49"};
    }
  }

  lemma CfopTableValid()
    ensures forall k :: k in CfopTable ==> CfopTable[k].cfop == k && IsDigitCode(k, 4)
  {
    forall k | k in CfopTable ensures CfopTable[k].cfop == k && IsDigitCode(k, 4) {
      assert k == "5101" || k == "5102" || k == "6101" || k == "6102";
    }
  }

  lemma RateTableValid()
    ensures forall key :: key in RateTable ==> key.0 in CstTable
  {
    forall key | key in RateTable ensures key.0 in CstTable {
      assert key.0 in {"01", "04", "06", "07", "08", "09"};
    }
  }

  lemma StateTableValid()
    ensures forall uf, ncm :: uf in StateTable && ncm in StateTable[uf] ==> StateTable[uf][ncm] <= MAX_ICMS_RATE
  {
    forall uf, ncm | uf in StateTable && ncm in StateTable[uf] ensures StateTable[uf][ncm] <= MAX_ICMS_RATE {
      assert uf == "SP" || uf == "PE";
    }
  }

  lemma LegalTableValid()
    ensures forall k :: k in LegalTable ==> LegalTable[k].code == k
  {
    forall k | k in LegalTable ensures LegalTable[k].code == k {
      assert k == "LEI_10637" || k == "LEI_10833" || k == "RICMS_SP";
    }
  }

  /** The shipped tables satisfy the repository's invariant. */
  lemma TablesValid()
    ensures Valid(Tables())
  {
    NcmTableValid();
    CstTableValid();
    CfopTableValid();
    RateTableValid();
    StateTableValid();
    LegalTableValid();
  }

  /** NCM lookups: the sugar code is found under its own key, an unknown code is absent. */
  lemma NcmLookups()
    ensures GetNcmRule(Tables(), "17011100").Some?
    ensures GetNcmRule(Tables(), "17011100").value.ncm == "17011100"
    ensures GetNcmRule(Tables(), "99999999") == None
    ensures ValidateNcmExists(Tables(), "17011100") && !ValidateNcmExists(Tables(), "99999999")
    ensures "17011100" in GetAllSugarNcms(Tables())
  {
  }

  /** CST lookups: 01 is TRIBUTADA; 01 and 06 are valid, 99 is not. */
  lemma CstLookups()
    ensures GetPisCofinsRule(Tables(), "01").Some?
    ensures GetPisCofinsRule(Tables(), "01").value.situationType.Name() == "TRIBUTADA"
    ensures GetPisCofinsRule(Tables(), "99") == None
    ensures "01" in GetValidCsts(Tables()) && "06" in GetValidCsts(Tables())
    ensures IsCstValid(Tables(), "01") && !IsCstValid(Tables(), "99")
  {
  }

  /** CST 01 rates: 1.65% / 7.60% under STANDARD, a lower PIS rate under CUMULATIVE. */
  lemma RatesOfCst01()
    ensures GetPisCofinsRates(Tables(), "01", "STANDARD") == Success(Rates(165, 760))
    ensures GetPisCofinsRates(Tables(), "01", "CUMULATIVE").Success?
    ensures GetPisCofinsRates(Tables(), "01", "CUMULATIVE").value.pis < 165
  {
  }

  /** Every CST that has both regimes registered pays no more under CUMULATIVE than under STANDARD. */
  lemma CumulativeNeverAboveStandard(cst: string)
    requires (cst, Standard) in Tables().rates && (cst, Cumulative) in Tables().rates
    ensures Tables().rates[(cst, Cumulative)].pis <= Tables().rates[(cst, Standard)].pis
    ensures Tables().rates[(cst, Cumulative)].cofins <= Tables().rates[(cst, Standard)].cofins
  {
  }

  /** CFOP lookups and scope checks for 5101 (internal) and 6101 (interstate). */
  lemma CfopLookups()
    ensures GetCfopRule(Tables(), "5101").Some? && GetCfopRule(Tables(), "5101").value.scope.Name() == "INTERNO"
    ensures GetCfopRule(Tables(), "6101").Some? && GetCfopRule(Tables(), "6101").value.scope.Name() == "INTERESTADUAL"
    ensures GetCfopRule(Tables(), "9999") == None
    ensures ValidateCfopScope(Tables(), "5101", false) && !ValidateCfopScope(Tables(), "5101", true)
    ensures ValidateCfopScope(Tables(), "6101", true) && !ValidateCfopScope(Tables(), "6101", false)
    ensures "5101" in GetSugarCfops(Tables())
  {
  }

  /** Listing by scope finds an internal code starting with 5 and an interstate one starting with 6. */
  lemma CfopsByScopeNonEmpty()
    ensures exists c :: c in GetCfopsByScope(Tables(), Interno) && |c| > 0 && c[0] == '5'
    ensures exists c :: c in GetCfopsByScope(Tables(), Interestadual) && |c| > 0 && c[0] == '6'
  {
    assert "5101" in GetCfopsByScope(Tables(), Interno);
    assert "6101" in GetCfopsByScope(Tables(), Interestadual);
  }

  /** By convention internal codes lead with 5 and interstate ones with 6; the table follows it. */
  lemma CfopLeadingDigitMatchesScope(c: string)
    requires c in Tables().cfopRules
    ensures Tables().cfopRules[c].scope == Interno <==> c[0] == '5'
    ensures Tables().cfopRules[c].scope == Interestadual <==> c[0] == '6'
  {
  }

  /** Legal references: the PIS law is found; an unknown code is absent; scope FEDERAL lists only federal ones. */
  lemma LegalReferenceLookups(ref: LegalRef)
    ensures GetLegalReference(Tables(), "LEI_10637").Some?
    ensures GetLegalReference(Tables(), "LEI_INEXISTENTE_99999") == None
    ensures Contains(FormatLegalCitation(Tables(), "LEI_10637").value, "Lei 10.637/2002")
    ensures ref in GetLegalReferencesByScope(Tables(), Federal) ==> ref.scope == Federal
    ensures Tables().legalRefs["LEI_10637"] in GetLegalReferencesByScope(Tables(), Federal)
  {
    assert Tables().legalRefs["LEI_10637"] in Tables().legalRefs.Values;
  }

  /** A search for "PIS" finds the PIS law. */
  lemma SearchFindsPis()
    ensures Tables().legalRefs["LEI_10637"] in SearchLegalReferences(Tables(), "PIS")
  {
    var ref := Tables().legalRefs["LEI_10637"];
    assert ref in Tables().legalRefs.Values;
    assert OccursAt(ref.title, "PIS", 0);
  }

  /** Any registered ICMS override lies within 0..20%. */
  lemma IcmsOverrideInRange(uf: string, ncm: string)
    ensures GetStateIcmsRate(Tables(), uf, ncm).Some? ==> GetStateIcmsRate(Tables(), uf, ncm).value <= MAX_ICMS_RATE
  {
    TablesValid();
  }

  /** The composite probe accepts the sugar sale configuration and rejects an all-unknown one. */
  lemma TaxConfigurationProbes()
    ensures var r := ValidateTaxConfiguration(Tables(), "17011100", "01", "01", "5101");
      r.valid && r.errors == [] && r.ncmInfo.Some? && r.pisInfo.Some?
    ensures var r := ValidateTaxConfiguration(Tables(), "99999999", "99", "99", "9999");
      !r.valid && |r.errors| > 0
  {
  }
}
