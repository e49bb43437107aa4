# FiscoLayer NF-e validation engine — a verified model

FiscoLayer audits Brazilian electronic invoices (NF-e) for a sugar
producer. It ingests invoice rows from a CSV export. It runs four federal
validators over every item and invoice: NCM (product classification),
PIS/COFINS (contribution CSTs, rates and values), CFOP (operation code
versus internal or interstate sale) and Totals (declared invoice totals
versus the item sums). It then renders an audit report: a structured JSON
summary and a markdown document. All rule data comes from a read-only
fiscal repository: NCM rules, CSTs, rates per CST and regime, CFOP scopes,
state ICMS overrides and legal references.

Each row of the table below cites the test assertions the member's
contract is drawn from. Where those tests leave a detail open (a severity,
a code number, a rounding), the choice the model makes is listed under
"## Left out".

The model is organised as follows.

- `wrappers.dfy`, `text.dfy` and `money.dfy` hold the shared vocabulary.
  - `Option` and `Result`.
  - Digit strings and substring search.
  - Fixed-point money: integer cents, and rates in hundredths of a
    percentage point.
  - Python `Decimal` `round(x, 2)` as round-half-even.
- `entities.dfy` holds the invoice entity graph, severities, the closed set
  of error codes and their `PREFIX_00N` names, and the error record.
- `fiscal_repository.dfy` holds the repository as an immutable value of
  maps, with every lookup. `fiscal_tables.dfy` holds a concrete table and
  the lookups the repository tests perform on it.
- `federal_validators.dfy` holds the four validators, as pure functions of
  the repository, the item and the invoice.
- `validation_flow.dfy` holds the orchestration loop.
  - The `NFe` class owns the mutable `validationErrors` list, which the
    loop extends item by item and check by check.
  - A batch method validates several invoices.
- `report_generator.dfy` holds the JSON report, the severity and impact
  summary, grouping by code prefix, legal-reference extraction, CNPJ and
  NCM masks, and the markdown document.
- `csv_parser.dfy` holds the ingestion normalisers, the required-column
  check and the grouping of rows into invoices, with a loop method proved
  against the grouping function.
- `scenarios.dfy` holds the concrete test scenarios. Each is stated for any
  repository that registers the sugar rules the tests rely on, and the
  concrete table is proved to be such a repository.

## Model

| member | source | states |
|---|---|---|
| Money.Diff | APP-FINAL-TODOS/tests/unit/test_federal_validators.py:292-304 | the absolute difference used for every divergence and impact |
| Money.RoundHalfEven | tests/unit/test_report_generator.py:67-80 | the result is within half a cent of the exact value, ties go to the even cent, and exact values are kept |
| Money.TaxValue | APP-FINAL-TODOS/tests/unit/test_federal_validators.py:194-204 | the expected contribution base × rate, rounded to the nearest cent |
| Money.RateImpact | tests/unit/test_report_generator.py:67-80 | the impact of a wrong rate is \|declared − expected\| × base rounded to a cent, and zero when the rates agree |
| Money.FormatCents | tests/unit/test_report_generator.py:289-295 | amounts print with digits, a point and two decimals |
| Money.FormatCentsRoundTrip | tests/unit/test_report_generator.py:289-295 | reading the printed amount back gives the amount |
| Entities.Category.Prefix | tests/unit/test_report_generator.py:343-350 | every code family has a non-empty prefix without an underscore |
| Entities.ErrorCode.Number | APP-FINAL-TODOS/tests/unit/test_federal_validators.py:107-116 | code numbers run from 1 to 4 |
| Entities.NamePrefixIsCategory | tests/unit/test_report_generator.py:343-350 | the part of a code name before its first underscore is the code's family prefix ("PIS" for PIS_002) |
| Entities.NameInjective | tests/unit/test_report_generator.py:212-226 | distinct error codes have distinct names |
| Entities.HasCodeOfUniform | APP-FINAL-TODOS/tests/unit/test_federal_validators.py:107-116 | a code occurs in a single-code list exactly when it is that code and the list is non-empty |
| Entities.HasCodeCategory | APP-FINAL-TODOS/tests/e2e/test_full_validation_flow.py:149-177 | a code found among errors of one family belongs to that family |
| Entities.HasCodeConcat | APP-FINAL-TODOS/tests/e2e/test_full_validation_flow.py:57-64 | a code occurs in concatenated error lists exactly when it occurs in one of them |
| Entities.WithSeverity | tests/unit/test_report_generator.py:199-209 | the errors of one severity are exactly those errors of the list with that severity |
| FiscalRepository.GetNcmRule | tests/unit/test_fiscal_repository.py:49-62 | a rule is returned exactly for registered NCMs, and in a well-formed repository it carries the requested NCM |
| FiscalRepository.ValidateNcmExists | tests/unit/test_fiscal_repository.py:64-67 | true exactly when the NCM lookup succeeds |
| FiscalRepository.GetAllSugarNcms | tests/unit/test_fiscal_repository.py:70-77 | exactly the registered NCMs of the sugar family, each an 8-digit code |
| FiscalRepository.GetNcmKeywords | tests/unit/test_fiscal_repository.py:80-86 | the rule's keywords, or none for an unknown NCM |
| FiscalRepository.GetPisCofinsRule | tests/unit/test_fiscal_repository.py:93-105 | a CST rule is returned exactly for registered CSTs, and it carries the requested CST |
| FiscalRepository.GetValidCsts | tests/unit/test_fiscal_repository.py:108-114 | the valid CSTs are exactly those whose rule lookup succeeds |
| FiscalRepository.IsCstValid | tests/unit/test_fiscal_repository.py:117-120 | true exactly when the CST is in the valid set |
| FiscalRepository.ParseRegime | tests/unit/test_fiscal_repository.py:123-140 | only STANDARD and CUMULATIVE are regimes; any other name is an unsupported-regime error |
| FiscalRepository.GetPisCofinsRates | tests/unit/test_fiscal_repository.py:123-140 | the registered rates for (CST, regime), an error for an unknown regime or an unregistered pair, and success only for a valid CST |
| FiscalRepository.GetCfopRule | tests/unit/test_fiscal_repository.py:147-168 | a CFOP rule is returned exactly for registered codes, and it carries the requested code |
| FiscalRepository.GetCfopsByScope | tests/unit/test_fiscal_repository.py:171-188 | exactly the registered CFOPs of the requested scope |
| FiscalRepository.GetSugarCfops | tests/unit/test_fiscal_repository.py:191-198 | exactly the registered CFOPs flagged as common for sugar |
| FiscalRepository.ValidateCfopScope | tests/unit/test_fiscal_repository.py:201-210 | true exactly when the CFOP is registered with the scope the interstate flag calls for, so it is listed under that scope and not under the other |
| FiscalRepository.GetStateRules | tests/unit/test_fiscal_repository.py:217-230 | the state's overrides, or an empty map for a state without rules |
| FiscalRepository.HasStateRules | tests/unit/test_fiscal_repository.py:233-240 | true exactly when the state has at least one override |
| FiscalRepository.GetStateIcmsRate | tests/unit/test_fiscal_repository.py:243-255 | an override exists exactly when the state lists the NCM, and in a well-formed repository it never exceeds 20% |
| FiscalRepository.GetLegalReference | tests/unit/test_fiscal_repository.py:258-270 | a reference is returned exactly for registered codes, and it carries the requested code |
| FiscalRepository.FormatLegalCitation | tests/unit/test_fiscal_repository.py:273-279 | a citation exists exactly for registered codes, and it contains the reference's title and citation |
| FiscalRepository.GetAllLegalReferences | tests/unit/test_fiscal_repository.py:282-287 | exactly the registered references |
| FiscalRepository.GetLegalReferencesByScope | tests/unit/test_fiscal_repository.py:290-295 | exactly the registered references of that scope |
| FiscalRepository.GetLegalReferencesByTax | tests/unit/test_fiscal_repository.py:305-313 | exactly the registered references that cover that tax |
| FiscalRepository.SearchLegalReferences | tests/unit/test_fiscal_repository.py:298-302 | exactly the registered references whose code, title or citation contains the text |
| FiscalRepository.ValidateTaxConfiguration | tests/unit/test_fiscal_repository.py:316-341 | valid exactly when there are no errors, which is exactly when NCM, both CSTs and CFOP are known; one error per unknown input; the NCM and PIS details are present exactly when their lookups succeed |
| FiscalTables.NcmTableValid | tests/unit/test_fiscal_repository.py:49-56 | every NCM rule is keyed by its own 8-digit code |
| FiscalTables.CstTableValid | tests/unit/test_fiscal_repository.py:93-100 | every CST rule is keyed by its own 2-digit code |
| FiscalTables.CfopTableValid | tests/unit/test_fiscal_repository.py:147-162 | every CFOP rule is keyed by its own 4-digit code |
| FiscalTables.RateTableValid | tests/unit/test_fiscal_repository.py:123-140 | rates are registered only for valid CSTs |
| FiscalTables.StateTableValid | tests/unit/test_fiscal_repository.py:243-255 | every ICMS override lies within 0-20% |
| FiscalTables.LegalTableValid | tests/unit/test_fiscal_repository.py:258-265 | every legal reference is keyed by its own code |
| FiscalTables.TablesValid | tests/unit/test_fiscal_repository.py:49-313 | the concrete repository satisfies all of the repository's invariants |
| FiscalTables.NcmLookups | tests/unit/test_fiscal_repository.py:49-77 | 17011100 is found and is sugar; 99999999 is not found |
| FiscalTables.CstLookups | tests/unit/test_fiscal_repository.py:93-120 | CST 01 is TRIBUTADA; 01 and 06 are valid; 99 is unknown |
| FiscalTables.RatesOfCst01 | tests/unit/test_fiscal_repository.py:123-140 | CST 01 STANDARD is PIS 1.65 / COFINS 7.60, and CUMULATIVE PIS is below 1.65 |
| FiscalTables.CumulativeNeverAboveStandard | tests/unit/test_fiscal_repository.py:133-140 | no cumulative rate exceeds the standard one |
| FiscalTables.CfopLookups | tests/unit/test_fiscal_repository.py:147-210 | 5101 is INTERNO and 6101 INTERESTADUAL, each valid only in its own direction; 9999 is unknown; 5101 is a sugar CFOP |
| FiscalTables.CfopsByScopeNonEmpty | tests/unit/test_fiscal_repository.py:171-188 | INTERNO lists a code starting with 5, INTERESTADUAL one starting with 6 |
| FiscalTables.CfopLeadingDigitMatchesScope | tests/unit/test_fiscal_repository.py:171-188 | a registered CFOP is internal exactly when it starts with 5 and interstate exactly when it starts with 6 |
| FiscalTables.LegalReferenceLookups | tests/unit/test_fiscal_repository.py:258-295 | LEI_10637 is found and cites "Lei 10.637/2002"; an unknown code is not found; the FEDERAL filter returns only federal references |
| FiscalTables.SearchFindsPis | tests/unit/test_fiscal_repository.py:298-302 | searching "PIS" finds Lei 10.637/2002 |
| FiscalTables.IcmsOverrideInRange | tests/unit/test_fiscal_repository.py:243-255 | any ICMS override returned lies within 0-20% |
| FiscalTables.TaxConfigurationProbes | tests/unit/test_fiscal_repository.py:316-341 | the sugar configuration is valid with no errors and with NCM and PIS details; the all-unknown one is invalid with errors |
| FederalValidators.OneRuleCodes | APP-FINAL-TODOS/tests/unit/test_federal_validators.py:107-139 | a single-rule check reports its own code and no other |
| FederalValidators.NcmSectorCheck | APP-FINAL-TODOS/tests/unit/test_federal_validators.py:130-139 | NCM_002 (ERROR) is raised exactly when the NCM is not a registered sugar NCM |
| FederalValidators.NcmDescriptionCheck | APP-FINAL-TODOS/tests/unit/test_federal_validators.py:119-127 | NCM_003 (WARNING) is raised exactly when the rule has keywords and none of them occurs in the description |
| FederalValidators.ValidateNcm | APP-FINAL-TODOS/tests/unit/test_federal_validators.py:107-139 | at most two NCM-family errors, all tagged with the item number |
| FederalValidators.NcmFormatShortCircuits | APP-FINAL-TODOS/tests/unit/test_federal_validators.py:107-116 | a malformed NCM gives exactly one error, NCM_001 CRITICAL |
| FederalValidators.NcmRulesFire | APP-FINAL-TODOS/tests/unit/test_federal_validators.py:119-139 | for a well-formed NCM: no NCM_001, NCM_002 iff not sugar, NCM_003 iff the description misses every keyword, and nothing CRITICAL |
| FederalValidators.ExpectedRate | tests/unit/test_fiscal_repository.py:123-131 | the expected rate exists exactly when STANDARD rates exist for the CST, and is the PIS or COFINS rate registered there |
| FederalValidators.CstCheck | APP-FINAL-TODOS/tests/unit/test_federal_validators.py:146-165 | PIS_001 / COFINS_001 CRITICAL exactly when the CST is not valid |
| FederalValidators.RateCheck | APP-FINAL-TODOS/tests/unit/test_federal_validators.py:168-191 | PIS_002 / COFINS_002 CRITICAL exactly when the declared rate differs from the expected one, with the rate impact and the expected rate as correction |
| FederalValidators.ValueCheck | APP-FINAL-TODOS/tests/unit/test_federal_validators.py:194-204 | PIS_003 / COFINS_003 ERROR exactly when the declared value is more than the tolerance away from base × declared rate, with the difference as impact |
| FederalValidators.ValidateTax | APP-FINAL-TODOS/tests/unit/test_federal_validators.py:146-204 | at most two errors of the tax's family, all tagged with the item number |
| FederalValidators.TaxCstShortCircuits | APP-FINAL-TODOS/tests/unit/test_federal_validators.py:146-165 | an invalid CST gives exactly one error, the CST code, CRITICAL; rate and value are not checked |
| FederalValidators.TaxRulesFire | APP-FINAL-TODOS/tests/unit/test_federal_validators.py:146-204 | each code fires exactly when its condition holds: invalid CST, diverging rate, diverging value |
| FederalValidators.MatchingRateNeverFlagged | APP-FINAL-TODOS/tests/unit/test_federal_validators.py:168-191 | a declared rate equal to the registered one never raises the rate error |
| FederalValidators.CstDivergenceCheck | APP-FINAL-TODOS/tests/unit/test_federal_validators.py:207-218 | a single PISCOFINS_001 WARNING exactly when both CSTs are registered under different situation types |
| FederalValidators.ValidatePisCofins | APP-FINAL-TODOS/tests/unit/test_federal_validators.py:146-218 | at most five errors, all of the PIS, COFINS or PISCOFINS families and tagged with the item |
| FederalValidators.PisCofinsRulesFire | APP-FINAL-TODOS/tests/unit/test_federal_validators.py:146-204 | in the combined check, each PIS and COFINS code fires exactly when its condition holds |
| FederalValidators.TaxCodeInCombined | APP-FINAL-TODOS/tests/unit/test_federal_validators.py:146-204 | the combined check reports a tax's code exactly when that tax's own check does |
| FederalValidators.CstDivergenceFires | APP-FINAL-TODOS/tests/unit/test_federal_validators.py:207-218 | the combined PIS/COFINS result carries PISCOFINS_001 exactly when the two CSTs' situation types differ |
| FederalValidators.PisCofinsCodes | APP-FINAL-TODOS/tests/unit/test_federal_validators.py:146-218 | a code appears in the combined check exactly when the PIS check, the COFINS check or the divergence check reports it |
| FederalValidators.ValidateCfop | APP-FINAL-TODOS/tests/unit/test_federal_validators.py:225-272 | at most one CFOP error, always CRITICAL, and none exactly when the CFOP is a registered 4-digit code whose scope matches the operation |
| FederalValidators.CfopRulesFire | APP-FINAL-TODOS/tests/unit/test_federal_validators.py:225-272 | CFOP_001 iff malformed; CFOP_002 iff well-formed but unknown; CFOP_003 iff an internal CFOP is used on an interstate sale; CFOP_004 iff an interstate CFOP is used on an internal sale |
| FederalValidators.SumAppend | APP-FINAL-TODOS/tests/e2e/test_full_validation_flow.py:149-177 | item sums add up over concatenated item lists |
| FederalValidators.Reconcile | APP-FINAL-TODOS/tests/unit/test_federal_validators.py:279-332 | one error exactly when computed and declared amounts diverge beyond the tolerance, carrying their difference as impact |
| FederalValidators.ProductsCheck | APP-FINAL-TODOS/tests/unit/test_federal_validators.py:279-304 | TOTAL_001 CRITICAL exactly when the item totals diverge from the declared products value, with the difference as impact |
| FederalValidators.PisTotalCheck | APP-FINAL-TODOS/tests/unit/test_federal_validators.py:307-318 | TOTAL_003 ERROR exactly when the item PIS values diverge from the declared PIS total |
| FederalValidators.CofinsTotalCheck | APP-FINAL-TODOS/tests/unit/test_federal_validators.py:321-332 | TOTAL_004 ERROR exactly when the item COFINS values diverge from the declared COFINS total |
| FederalValidators.ValidateTotals | APP-FINAL-TODOS/tests/unit/test_federal_validators.py:279-332 | only TOTAL-family, invoice-level errors, each with an impact above the tolerance |
| FederalValidators.TotalsRulesFire | APP-FINAL-TODOS/tests/unit/test_federal_validators.py:279-332 | each of TOTAL_001/003/004 fires exactly when its field diverges, independently; only TOTAL_001 is CRITICAL and its impact is the difference |
| FederalValidators.TotalsCount | APP-FINAL-TODOS/tests/e2e/test_full_validation_flow.py:149-177 | the number of totals errors is the number of diverging fields |
| ValidationFlow.NFe.constructor | APP-FINAL-TODOS/tests/e2e/test_full_validation_flow.py:37-64 | a fresh invoice wrapper has no validation errors |
| ValidationFlow.NFe.RunValidation | APP-FINAL-TODOS/tests/e2e/test_full_validation_flow.py:57-64 | the loop over items and checks, then the invoice checks, extends the error list by exactly the pipeline's errors, in order |
| ValidationFlow.NFe.RunItemChecks | APP-FINAL-TODOS/tests/e2e/test_full_validation_flow.py:58-64 | one item's checks extend the list by that item's errors, check by check |
| ValidationFlow.NFe.RunInvoiceChecks | APP-FINAL-TODOS/tests/e2e/test_full_validation_flow.py:207-213 | the invoice-level checks extend the list by their errors, in order |
| ValidationFlow.NFe.Validate | APP-FINAL-TODOS/tests/e2e/test_full_validation_flow.py:57-64 | validating an invoice extends its error list by exactly the full validation of the invoice against the repository |
| ValidationFlow.ValidateBatch | APP-FINAL-TODOS/tests/e2e/test_full_validation_flow.py:184-220 | each invoice of a batch ends up with exactly its own full validation appended, with no mixing between invoices |
| ValidationFlow.ItemsErrorsAppend | APP-FINAL-TODOS/tests/e2e/test_full_validation_flow.py:57-64 | the errors of concatenated item lists are the concatenated errors |
| ValidationFlow.ItemErrorsOfAll | APP-FINAL-TODOS/tests/e2e/test_full_validation_flow.py:57-64 | an item's errors are its NCM, then PIS/COFINS, then CFOP errors |
| ValidationFlow.ItemErrorsSnoc | APP-FINAL-TODOS/tests/e2e/test_full_validation_flow.py:57-64 | adding a check at the end of the pipeline appends that check's errors to the item's errors |
| ValidationFlow.ThreeChecksRun | APP-FINAL-TODOS/tests/e2e/test_full_validation_flow.py:57-64 | a three-check pipeline yields the first check's errors, then the second's, then the third's |
| ValidationFlow.RateCodeOfItem | APP-FINAL-TODOS/tests/e2e/test_full_validation_flow.py:85-121 | an item's errors carry the tax's rate-divergence code exactly when its declared rate differs from the expected one |
| ValidationFlow.ItemsRateErrors | APP-FINAL-TODOS/tests/e2e/test_full_validation_flow.py:85-121 | the items' errors carry the tax's rate-divergence code exactly when some item's rate diverges |
| ValidationFlow.FullValidation | APP-FINAL-TODOS/tests/e2e/test_full_validation_flow.py:57-64 | the full validation is every item's errors, item after item, followed by the invoice's totals errors |
| ValidationFlow.ItemsErrorsHasCode | APP-FINAL-TODOS/tests/e2e/test_full_validation_flow.py:85-121 | a code appears among the item errors exactly when some item's errors contain it |
| ValidationFlow.ItemsErrorsAreItemLevel | APP-FINAL-TODOS/tests/e2e/test_full_validation_flow.py:57-64 | every item-level error carries an item number and is not of the TOTAL family |
| ValidationFlow.ItemErrorsAreItemLevel | APP-FINAL-TODOS/tests/e2e/test_full_validation_flow.py:57-64 | every error of one item's checks carries an item number and is not of the TOTAL family |
| ValidationFlow.TaxCodeOfItem | APP-FINAL-TODOS/tests/e2e/test_full_validation_flow.py:85-121 | a PIS or COFINS code appears in an item's errors exactly when the PIS/COFINS check reports it |
| ValidationFlow.FullValidationRateErrors | APP-FINAL-TODOS/tests/e2e/test_full_validation_flow.py:85-121 | the full validation reports a rate error exactly when some item's rate diverges |
| ValidationFlow.InvoiceLevelIffTotals | APP-FINAL-TODOS/tests/e2e/test_full_validation_flow.py:149-177 | an error lacks an item number exactly when it is of the TOTAL family |
| ReportGenerator.FormatCnpj | tests/unit/test_report_generator.py:320-324 | a 14-digit CNPJ gets the NN.NNN.NNN/NNNN-NN mask; other lengths are shown as given |
| ReportGenerator.CnpjMaskRoundTrip | tests/unit/test_report_generator.py:320-324 | removing the mask gives back the CNPJ |
| ReportGenerator.FormatNcm | tests/unit/test_report_generator.py:327-331 | an 8-digit NCM gets the NNNN.NN.NN mask; other lengths are shown as given |
| ReportGenerator.NcmMaskRoundTrip | tests/unit/test_report_generator.py:327-331 | removing the mask gives back the NCM |
| ReportGenerator.TotalImpactPositive | APP-FINAL-TODOS/tests/e2e/test_full_validation_flow.py:227-258 | the total impact is positive exactly when some error has a positive impact |
| ReportGenerator.TotalImpact | tests/unit/test_report_generator.py:289-295 | no single error's impact exceeds the summed impact |
| ReportGenerator.TotalImpactAppend | APP-FINAL-TODOS/tests/e2e/test_full_validation_flow.py:227-258 | impacts add up over concatenated error lists |
| ReportGenerator.SeverityPresent | tests/unit/test_report_generator.py:244-252 | the filter for a severity is non-empty exactly when some error has that severity |
| ReportGenerator.SeverityCountsAddUp | tests/unit/test_report_generator.py:199-209 | the three severity counts add up to the number of errors |
| ReportGenerator.SeverityImpactsAddUp | tests/unit/test_report_generator.py:199-209 | the per-severity impacts add up to the total impact |
| ReportGenerator.WithType | tests/unit/test_report_generator.py:343-350 | the errors of one type are exactly the errors whose code prefix is that type |
| ReportGenerator.GroupErrorsByType | tests/unit/test_report_generator.py:343-350 | there is a group for exactly the prefixes that occur, each holding exactly the errors with that prefix and never empty |
| ReportGenerator.ErrorTypeIsCategory | tests/unit/test_report_generator.py:343-350 | an error's type is its code's family prefix |
| ReportGenerator.ExtractLegalReferences | tests/unit/test_report_generator.py:334-340 | every cited reference is listed once, and only cited references are listed |
| ReportGenerator.NfeInfoOf | tests/unit/test_report_generator.py:186-196 | key, number, issuer CNPJ and recipient name are copied; the operation is INTERNA exactly when origin and destination states agree |
| ReportGenerator.Summarize | tests/unit/test_report_generator.py:199-209 | total_errors is the list length; each severity's count and impact are those of exactly the errors of that severity, and a count is positive exactly when some error has that severity; counts and impacts add up; the total impact is positive exactly when some error has an impact |
| ReportGenerator.Entry | tests/unit/test_report_generator.py:212-226 | an entry carries the error's code name, message, severity name and impact |
| ReportGenerator.Entries | tests/unit/test_report_generator.py:212-226 | one entry per error, in order |
| ReportGenerator.ErrorsOfItem | tests/unit/test_report_generator.py:298-305 | exactly the errors tagged with that item number |
| ReportGenerator.Recommendations | tests/unit/test_report_generator.py:160-173 | at most one recommendation per error |
| ReportGenerator.Generator.GenerateJsonReport | tests/unit/test_report_generator.py:160-226 | the version stamped is the generator's; the invoice info, summary, entries, type groups, per-item analyses, recommendations and legal references are the ones the functions in the rows around this one compute from the invoice and its errors |
| ReportGenerator.EntriesByType | tests/unit/test_report_generator.py:160-173 | a type is a key exactly when some error has it, and its group lists exactly the entries of the errors of that type, in order |
| ReportGenerator.ItemsAnalysis | tests/unit/test_report_generator.py:160-173 | one analysis per invoice item, in item order, each that item's analysis |
| ReportGenerator.AnalyzeItem | tests/unit/test_report_generator.py:298-305 | an item's analysis carries its number, description, value and dotted NCM, and counts exactly the errors naming it; the count is zero exactly when no error names the item |
| ReportGenerator.InDocumentHeader | tests/unit/test_report_generator.py:259-276 | text in the header section appears in the document |
| ReportGenerator.InDocumentSummary | tests/unit/test_report_generator.py:289-295 | text in the summary section appears in the document |
| ReportGenerator.InDocumentErrors | tests/unit/test_report_generator.py:279-286 | text in any error block appears in the document |
| ReportGenerator.InDocumentItems | tests/unit/test_report_generator.py:298-305 | text in any item block appears in the document |
| ReportGenerator.InDocumentLegal | tests/unit/test_report_generator.py:334-340 | text in any legal-reference line appears in the document |
| ReportGenerator.GenerateMarkdownReport | tests/unit/test_report_generator.py:259-276 | the document contains the audit title and the invoice's access key |
| ReportGenerator.HeaderShows | tests/unit/test_report_generator.py:259-276 | the header shows the title, the access key and both parties' names |
| ReportGenerator.MarkdownIdentifiesInvoice | tests/unit/test_report_generator.py:259-276 | the markdown contains "RELATÓRIO DE AUDITORIA FISCAL", the access key and both parties' names |
| ReportGenerator.SummaryShows | tests/unit/test_report_generator.py:289-295 | the summary section shows the problem count and the total impact in R$ |
| ReportGenerator.MarkdownShowsSummary | tests/unit/test_report_generator.py:289-313 | the markdown states the number of problems and the total financial impact |
| ReportGenerator.MarkdownAgreesWithSummary | tests/unit/test_report_generator.py:199-209 | the figures in the markdown are those of the JSON summary |
| ReportGenerator.ErrorBlockShows | tests/unit/test_report_generator.py:279-286 | an error block shows the code, the message and the severity |
| ReportGenerator.ErrorShown | tests/unit/test_report_generator.py:279-286 | each error's code, message and severity appear in the markdown |
| ReportGenerator.MarkdownListsErrors | tests/unit/test_report_generator.py:279-286 | every error of the list is shown in the markdown |
| ReportGenerator.ErrorBlockShowsImpact | tests/unit/test_report_generator.py:289-295 | an error block with an impact shows it as "R$ " and the amount |
| ReportGenerator.ErrorBlockShowsBasis | tests/unit/test_report_generator.py:66-90 | an error block with a legal reference shows it |
| ReportGenerator.ErrorImpactAndBasisShown | tests/unit/test_report_generator.py:289-295 | each error's impact in R$ and its legal basis appear in the markdown when the error has them |
| ReportGenerator.LegalReferenceListed | tests/unit/test_report_generator.py:334-340 | each extracted legal reference has its own "- reference" line in the markdown |
| ReportGenerator.ItemBlockShows | tests/unit/test_report_generator.py:298-305 | an item block shows the item number, description and masked NCM |
| ReportGenerator.ItemShown | tests/unit/test_report_generator.py:298-305 | each item's number, description and masked NCM appear in the markdown |
| ReportGenerator.MarkdownListsItems | tests/unit/test_report_generator.py:298-305 | every item of the invoice is shown in the markdown |
| CsvParser.NormalizeNcm | tests/unit/test_csv_parser_errors.py:170-187 | the input is kept as a prefix of the result |
| CsvParser.NormalizeCst | tests/unit/test_csv_parser_errors.py:190-199 | the input is kept as a suffix of the result |
| CsvParser.NormalizeNcmCanonical | tests/unit/test_csv_parser_errors.py:170-181 | a short digit NCM becomes an 8-digit code padded with zeros on the right |
| CsvParser.NormalizeNcmKeeps | tests/unit/test_csv_parser_errors.py:184-187 | the NCM is unchanged exactly when it is empty or already 8 or more characters |
| CsvParser.NormalizeNcmIdempotent | tests/unit/test_csv_parser.py:4-7 | normalising twice equals normalising once |
| CsvParser.NormalizeCstCanonical | tests/unit/test_csv_parser_errors.py:190-193 | a short digit CST becomes a 2-digit code padded with zeros on the left |
| CsvParser.NormalizeCstKeeps | tests/unit/test_csv_parser_errors.py:196-199 | the CST is unchanged exactly when it is empty or already 2 or more characters |
| CsvParser.NormalizeCstIdempotent | tests/unit/test_csv_parser.py:9-12 | normalising twice equals normalising once |
| CsvParser.NormalizeCfop | tests/unit/test_csv_parser_errors.py:202-205 | a CFOP is kept character for character, with no padding |
| CsvParser.NormalizeCfopKeeps | tests/unit/test_csv_parser_errors.py:202-205 | the CFOP normaliser keeps well-formedness and is idempotent |
| CsvParser.NormalizerExamples | tests/unit/test_csv_parser_errors.py:170-205 | 1701 → 17010000, 170111 → 17011100, 17011100 kept, 1 → 01, 01 kept, empty CST kept, 5101 kept |
| CsvParser.AbsentColumns | tests/unit/test_csv_parser_errors.py:51-62 | exactly the required columns missing from the header |
| CsvParser.CheckRequiredColumns | tests/unit/test_csv_parser_errors.py:51-78 | the header is accepted exactly when it has every required column; otherwise the error names the missing ones |
| CsvParser.ParseError.Message | tests/unit/test_csv_parser_errors.py:51-62 | a missing-columns refusal contains "Colunas MÍNIMAS ausentes" and names every missing column; an empty-key refusal says "chave_acesso vazia" |
| CsvParser.ShortHeadersRefused | tests/unit/test_csv_parser_errors.py:51-78 | the two short headers of the tests, and an empty one, are refused |
| CsvParser.RowToItem | tests/unit/test_csv_parser_errors.py:136-167 | an item keeps the row's number, description and total, with NCM, CFOP and CSTs normalised |
| CsvParser.RowsToItems | tests/unit/test_csv_parser_errors.py:228-242 | one item per row, in row order |
| CsvParser.InvoiceOf | tests/unit/test_csv_parser_errors.py:81-93 | the invoice takes its key, number, series, date, parties, note CFOP and nature verbatim from its first row; its origin and destination states are the seller's and buyer's states, so it is interstate exactly when those differ; its items come from all its rows; its totals are those the first row declares, or, without totals columns, the items' sums with ICMS 0 |
| CsvParser.InvoiceOfTotalsPass | tests/unit/test_csv_parser_errors.py:212-242 | without totals columns, the totals of an ingested invoice agree with its items |
| CsvParser.InvoiceOfDeclaredTotals | APP-FINAL-TODOS/tests/e2e/test_full_validation_flow.py:84-89 | with declared totals, TOTAL_001, TOTAL_003 and TOTAL_004 each fire exactly when the declared figure strays from the items' sum |
| CsvParser.Position | tests/unit/test_csv_parser_errors.py:212-242 | the index of the first group with the key, or the number of groups when there is none |
| CsvParser.Step | tests/unit/test_csv_parser_errors.py:212-242 | one row either joins an existing group or opens one new group |
| CsvParser.Grouping | tests/unit/test_csv_parser_errors.py:212-242 | there are never more groups than rows |
| CsvParser.GroupingSnoc | tests/unit/test_csv_parser_errors.py:212-242 | grouping one more row is one more step |
| CsvParser.StepKeys | tests/unit/test_csv_parser_errors.py:212-225 | after a step, the keys present are the old ones plus the row's key |
| CsvParser.GroupingWellGrouped | tests/unit/test_csv_parser_errors.py:212-242 | groups have distinct keys, are non-empty, and each holds only rows with its key |
| CsvParser.Grouped | tests/unit/test_csv_parser_errors.py:212-242 | one invoice per group |
| CsvParser.GroupedByKey | tests/unit/test_csv_parser_errors.py:212-242 | each invoice carries its group's key and its group's rows as items |
| CsvParser.GroupedKeys | tests/unit/test_csv_parser_errors.py:212-225 | an invoice exists for a key exactly when some row has that key |
| CsvParser.GroupedTotalsPass | tests/unit/test_csv_parser_errors.py:212-242 | every invoice ingested from an export without totals columns passes the totals check |
| CsvParser.GroupingKeys | tests/unit/test_csv_parser_errors.py:212-225 | a group exists for a key exactly when some row has that key |
| CsvParser.GroupingGrows | tests/unit/test_csv_parser_errors.py:212-225 | later rows never reorder earlier groups or remove their rows, so invoices appear in first-appearance order |
| CsvParser.RowInItsGroup | tests/unit/test_csv_parser_errors.py:212-242 | every row's key has a group |
| CsvParser.RowLandsInItsInvoice | tests/unit/test_csv_parser_errors.py:212-242 | every row's key has an invoice |
| CsvParser.GroupingDistinctKeys | tests/unit/test_csv_parser_errors.py:212-225 | rows with distinct keys become one single-row group each, in input order |
| CsvParser.GroupedDistinctKeys | tests/unit/test_csv_parser_errors.py:212-225 | rows with distinct keys become distinct invoices in input order, each keeping its own number |
| CsvParser.GroupingSameKey | tests/unit/test_csv_parser_errors.py:228-242 | rows sharing one key form one group holding all of them in order |
| CsvParser.GroupedSameKey | tests/unit/test_csv_parser_errors.py:228-242 | rows sharing one key become one invoice whose items keep row order |
| CsvParser.CollectGroups | tests/unit/test_csv_parser_errors.py:212-242 | the loop over rows builds exactly the grouping |
| CsvParser.GroupRows | tests/unit/test_csv_parser_errors.py:212-242 | the loop builds exactly the grouped invoices |
| CsvParser.ParseCsv | tests/unit/test_csv_parser_errors.py:51-93 | a missing column is reported first; otherwise a row without an access key is refused; otherwise the invoices are the grouped rows, malformed keys kept verbatim |
| Scenarios.TablesRegisterSugarRules | tests/unit/test_fiscal_repository.py:49-210 | the concrete repository registers the sugar NCM, CSTs 01 and 06, the STANDARD rates and CFOPs 5101/6101 the scenarios use |
| Scenarios.NcmTableFacts | tests/unit/test_fiscal_repository.py:49-90 | 17011100 is sugar with keywords AÇÚCAR/ACUCAR, and 12345678 is unregistered |
| Scenarios.CstTableFacts | tests/unit/test_fiscal_repository.py:93-131 | CSTs 01 (TRIBUTADA) and 06 (ALIQUOTA_ZERO) are registered and 99 is not; STANDARD rates are 1.65/7.60 for 01 and 0/0 for 06 |
| Scenarios.CfopTableFacts | tests/unit/test_fiscal_repository.py:147-162 | 5101 is internal and 6101 interstate |
| Scenarios.SugarItemNcmClean | APP-FINAL-TODOS/tests/unit/test_federal_validators.py:119-127 | the crystal-sugar item raises no NCM error at all |
| Scenarios.ShortNcmRejected | APP-FINAL-TODOS/tests/unit/test_federal_validators.py:107-116 | NCM "1701" gives exactly one error, NCM_001 CRITICAL |
| Scenarios.ForeignNcmRejected | APP-FINAL-TODOS/tests/unit/test_federal_validators.py:130-139 | NCM 12345678 gives NCM_002 |
| Scenarios.SugarItemTaxesClean | APP-FINAL-TODOS/tests/unit/test_federal_validators.py:26-104 | the fixture item's PIS/COFINS data raise no error |
| Scenarios.WrongPisRate | APP-FINAL-TODOS/tests/unit/test_federal_validators.py:168-178 | PIS 5.00 under CST 01 gives PIS_002 CRITICAL with impact 117.25, correction 1.65 and Lei 10.637/2002 |
| Scenarios.WrongCofinsRate | APP-FINAL-TODOS/tests/unit/test_federal_validators.py:181-191 | COFINS 10.00 under CST 01 gives COFINS_002, and it is CRITICAL |
| Scenarios.CofinsRateIsCritical | APP-FINAL-TODOS/tests/unit/test_federal_validators.py:181-191 | any COFINS_002 error is CRITICAL |
| Scenarios.WrongPisValue | APP-FINAL-TODOS/tests/unit/test_federal_validators.py:194-204 | a PIS value of 100.00 on 3500.00 at 1.65% gives exactly one error, PIS_003, with impact 42.25 |
| Scenarios.UnknownCsts | APP-FINAL-TODOS/tests/unit/test_federal_validators.py:146-165 | CST 99 gives PIS_001 for PIS and COFINS_001 for COFINS |
| Scenarios.DivergentCsts | APP-FINAL-TODOS/tests/unit/test_federal_validators.py:207-218 | PIS CST 01 with COFINS CST 06 gives PISCOFINS_001, and every such error is a WARNING |
| Scenarios.SameSituationCstsAgree | APP-FINAL-TODOS/tests/unit/test_federal_validators.py:207-218 | PIS CST 01 with COFINS CST 02, both TRIBUTADA, gives no PISCOFINS_001 |
| Scenarios.HalfCentRoundsToEven | tests/unit/test_report_generator.py:67-80 | 350.00 at 1.65% is 5.775, which rounds to 5.78 |
| Scenarios.ShortCfopRejected | APP-FINAL-TODOS/tests/unit/test_federal_validators.py:225-234 | CFOP "510" gives CFOP_001 CRITICAL as the first error |
| Scenarios.InternalCfopAccepted | APP-FINAL-TODOS/tests/unit/test_federal_validators.py:237-246 | 5101 on an SP→SP sale raises no CFOP error |
| Scenarios.InternalCfopOnInterstateInvoice | APP-FINAL-TODOS/tests/unit/test_federal_validators.py:249-260 | any item with CFOP 5101 on any interstate invoice draws exactly CFOP_003 |
| Scenarios.IngestedInterstateSaleFlagged | APP-FINAL-TODOS/tests/e2e/test_full_validation_flow.py:124-146 | an exported SP→PE row with item CFOP 5101 becomes an interstate invoice whose item draws exactly CFOP_003 |
| Scenarios.CfopScopeMismatches | APP-FINAL-TODOS/tests/unit/test_federal_validators.py:249-272 | 5101 on SP→PE gives exactly CFOP_003; 6101 on SP→SP gives exactly CFOP_004 |
| Scenarios.MatchingProductsTotal | APP-FINAL-TODOS/tests/unit/test_federal_validators.py:279-289 | declared products 3500.00 matching the item raise no TOTAL_001 |
| Scenarios.DivergentProductsTotal | APP-FINAL-TODOS/tests/unit/test_federal_validators.py:292-304 | declared products 1000.00 give TOTAL_001 CRITICAL with impact 2500.00 |
| Scenarios.TwoItemTotalsAllDiverge | APP-FINAL-TODOS/tests/e2e/test_full_validation_flow.py:149-177 | two items against declared 1000.00/10.00/20.00 give TOTAL_001, TOTAL_003 and TOTAL_004, three errors |
| Scenarios.SumOne | APP-FINAL-TODOS/tests/unit/test_federal_validators.py:279-289 | the sum over a single item is that item's amount |
| Scenarios.ConsistentSaleIsClean | APP-FINAL-TODOS/tests/e2e/test_full_validation_flow.py:37-82 | a consistent one-item sugar sale passes the full validation with no errors |
| Scenarios.ConsistentTotalsPass | APP-FINAL-TODOS/tests/e2e/test_full_validation_flow.py:37-82 | its declared totals agree with its item |
| Scenarios.ItemClean | APP-FINAL-TODOS/tests/e2e/test_full_validation_flow.py:57-64 | an item clean under every check on an internal sale is clean in the orchestration loop of any internal sale |
| Scenarios.CleanReportCountsZero | tests/unit/test_report_generator.py:308-313 | the markdown of an invoice without errors states 0 problems |
| Scenarios.WrongRateReport | APP-FINAL-TODOS/tests/e2e/test_full_validation_flow.py:85-121 | the report of a wrong PIS rate groups it under "PIS", cites Lei 10.637/2002 and has positive error count and impact |
| Scenarios.RateErrorReport | APP-FINAL-TODOS/tests/e2e/test_full_validation_flow.py:227-258 | a report whose first error has a positive impact has a positive total impact, a PIS group and the cited law |
| Scenarios.ReportFixtureSummary | tests/unit/test_report_generator.py:199-209 | the three fixture errors give total_errors 3, one of each severity, and a positive impact |
| Scenarios.ReportFixtureGroups | tests/unit/test_report_generator.py:343-350 | three errors of the PIS, NCM and TOTAL families (the fixture's PIS_002, NCM_003, TOTAL_001) are grouped under "PIS", "NCM" and "TOTAL" |
| Scenarios.OnePerSeverity | tests/unit/test_report_generator.py:199-209 | a critical error with an impact, a warning and an error give total_errors 3, one of each severity and a positive total impact |
| Scenarios.GroupedUnder | tests/unit/test_report_generator.py:343-350 | an error's family prefix is a group key |
| Scenarios.ReportFixtureCitesPisLaw | tests/unit/test_report_generator.py:334-340 | the fixture's legal references include "Lei 10.637/2002" |
| Scenarios.EmptySummary | tests/unit/test_report_generator.py:244-252 | no errors give all counts and impacts zero |
| Scenarios.FixtureCnpjFormatting | tests/unit/test_report_generator.py:320-324 | 12345678000190 → 12.345.678/0001-90 |
| Scenarios.FixtureNcmFormatting | tests/unit/test_report_generator.py:327-331 | 17011100 → 1701.11.00 |

## Left out

- Money.RateImpact: the impact of a wrong rate is |declared − expected| × base, rounded half-even to cents. A 5.00% rate against 1.65% on 3500.00 gives 117.25. Keeping the product unrounded, as a `Decimal` can, would differ from this only below one cent.
- FederalValidators.CstDivergenceCheck: a PIS/COFINS CST pair counts as inconsistent when both CSTs are registered and their situation types differ. So 01 (TRIBUTADA) against 06 (ALIQUOTA_ZERO) is flagged, and 01 against 02 (both TRIBUTADA) is not. A finer table of inconsistent pairs, if the engine keeps one, is not part of this model. A pair with an unregistered CST draws only the CST errors.
- FederalValidators.ValidateCfop: a four-digit CFOP absent from the table is reported as CFOP_002 with CRITICAL severity. The severity is the engine's "not found" rule; the code number CFOP_002 is this model's choice.
- FederalValidators.NcmSectorCheck: NCM_002 is reported with ERROR severity. The tests check only that the code is present, so the severity is this model's choice, placed below the CRITICAL format error.
- FederalValidators.ValueCheck: PIS_003 and COFINS_003 are reported with ERROR severity. The tests check only the code and a positive impact, so the severity is this model's choice.
- FederalValidators.RateCheck: a registered CST without registered rates (02 and 49 in the table) draws no rate error, because there is no expected rate to compare with. Its value is still checked against base × declared rate.
- Rule data, concrete constants and names are illustrative where the tests do not fix them:
  - the table rows beyond the tested codes;
  - the required CSV column list;
  - the report version default "1.0.0" and the validator name;
  - the markdown labels and layout beyond the substrings the tests check.
- PIS/COFINS expected rates are always read under the STANDARD regime. How the engine infers a regime from context is not part of this model.
- NCM_003 matching compares keywords with the description as given. There is no case folding or accent stripping.
- TOTAL_002 (the invoice grand total) is not modelled. No test exercises it, and the grand total's composition (freight, discounts, other taxes) is not known.
- Shown values are kept symbolic (`Decimal`, `Phrase`) and only rendered when displayed. Only the rendering of an amount is proved to round-trip.
- ReportGenerator.Recommendations: stated only as "at most one per error". It lists the errors' suggestion texts in order; the engine's own recommendation wording is not part of this model.
- CsvParser.NormalizeCfop: the identity, as the only test shows.
- CsvParser.InvoiceOf: the declared totals are taken from the first row of an invoice. The layout has no item-level ICMS columns, so items carry ICMS 0, and an export without totals columns gets an ICMS total of 0.
- InvoiceOfTotalsPass: holds only for an export without the totals columns (`total_produtos` … `total_icms`), whose totals are summed from the items. With declared totals, CsvParser.InvoiceOfDeclaredTotals states when each totals rule fires.
- GroupedTotalsPass: holds only for an export without the totals columns, for the same reason.
- Scenarios.ReportFixtureGroups: stated for any three-error list whose codes belong to the PIS, NCM and TOTAL families (which PIS_002, NCM_003 and TOTAL_001 do), with the group names written as the families' prefixes.
- File I/O is not modelled:
  - reading CSV files (encodings, empty or missing files);
  - parsing date and number cells;
  - saving JSON and markdown reports.
  Ingestion starts from an in-memory header and a sequence of typed rows.
- JSON serialisation is not modelled; every report field is a plain value.
- The `generated_at` timestamp, which comes from the clock, is not modelled.
- Floating-point rates returned by the repository are not modelled. All amounts are integer cents and all rates integer hundredths of a percent. The state ICMS override is modelled only through its 0-20% bound.
- The repository's SQLite plumbing is not modelled: the connection, statistics, database version and layer status.
- The presentation slide generator is not part of this model.
- The integration test over an on-disk data file is not part of this model.
