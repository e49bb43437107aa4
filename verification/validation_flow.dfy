/** The orchestration loop: an invoice's error list grows item by item, each
    item run through the item validators in order, and finally the totals
    check for the whole invoice. */
module ValidationFlow {
  import opened Wrappers
  import opened Entities
  import opened FiscalRepository
  import opened FederalValidators

  /** A validator as the flow sees it: something that reports errors for an item of an invoice. */
  type ItemCheck = (InvoiceItem, Invoice) -> seq<ValidationError>

  /** A validator of the invoice as a whole. */
  type InvoiceCheck = Invoice -> seq<ValidationError>

  function NcmCheck(repo: Repository): ItemCheck {
    (item, inv) => ValidateNcm(repo, item, inv)
  }

  function PisCofinsCheck(repo: Repository): ItemCheck {
    (item, inv) => ValidatePisCofins(repo, item, inv)
  }

  function CfopCheck(repo: Repository): ItemCheck {
    (item, inv) => ValidateCfop(repo, item, inv)
  }

  /** Every item validator, in the order the full flow runs them. */
  function AllItemChecks(repo: Repository): seq<ItemCheck> {
    [NcmCheck(repo), PisCofinsCheck(repo), CfopCheck(repo)]
  }

  /** What `checks`, in order, report for one item. */
  function ItemErrors(item: InvoiceItem, inv: Invoice, checks: seq<ItemCheck>): seq<ValidationError> {
    if checks == [] then [] else ItemErrors(item, inv, checks[..|checks| - 1]) + checks[|checks| - 1](item, inv)
  }

  /** What `checks` report for `items`, item after item. */
  function ItemsErrors(items: seq<InvoiceItem>, inv: Invoice, checks: seq<ItemCheck>): seq<ValidationError> {
    if items == [] then []
    else ItemsErrors(items[..|items| - 1], inv, checks) + ItemErrors(items[|items| - 1], inv, checks)
  }

  /** What the invoice-level `checks`, in order, report. */
  function InvoiceErrors(inv: Invoice, checks: seq<InvoiceCheck>): seq<ValidationError> {
    if checks == [] then [] else InvoiceErrors(inv, checks[..|checks| - 1]) + checks[|checks| - 1](inv)
  }

  /** A run of the flow: the item checks over every item, then the invoice checks. */
  function Pipeline(inv: Invoice, itemChecks: seq<ItemCheck>, invoiceChecks: seq<InvoiceCheck>): seq<ValidationError> {
    ItemsErrors(inv.items, inv, itemChecks) + InvoiceErrors(inv, invoiceChecks)
  }

  /** The complete validation of an invoice: NCM, PIS/COFINS and CFOP on
      each item, item after item, then the totals of the whole invoice. */
  function FullValidation(repo: Repository, inv: Invoice): (r: seq<ValidationError>)
    ensures r == ItemsErrors(inv.items, inv, AllItemChecks(repo)) + ValidateTotals(inv)
  {
    var ts: seq<InvoiceCheck> := [ValidateTotals];
    assert ts[..|ts| - 1] == [];
    assert InvoiceErrors(inv, ts) == ts[0](inv);
    Pipeline(inv, AllItemChecks(repo), ts)
  }

  /** An invoice under validation: its data, and the error list validators extend. */
  class NFe {
    const invoice: Invoice
    var validationErrors: seq<ValidationError>

    constructor(inv: Invoice)
      ensures invoice == inv && validationErrors == []
    {
      invoice := inv;
      validationErrors := [];
    }

    /** Extend the error list with every item check's output, item by
        item, then with every invoice check's output. */
    method RunValidation(itemChecks: seq<ItemCheck>, invoiceChecks: seq<InvoiceCheck>)
      modifies this
      ensures validationErrors == old(validationErrors) + Pipeline(invoice, itemChecks, invoiceChecks)
    {
      var items := invoice.items;
      for i := 0 to |items|
        invariant validationErrors == old(validationErrors) + ItemsErrors(items[..i], invoice, itemChecks)
      {
        RunItemChecks(items[i], itemChecks);
        assert items[..i + 1][..i] == items[..i];
      }
      assert items[..|items|] == items;
      RunInvoiceChecks(invoiceChecks);
    }

    /** Run every validator of the full flow over this invoice. */
    method Validate(repo: Repository)
      modifies this
      ensures validationErrors == old(validationErrors) + FullValidation(repo, invoice)
    {
      RunValidation(AllItemChecks(repo), [ValidateTotals]);
    }

    /** Extend the error list with what each check reports for `item`, in order. */
    method RunItemChecks(item: InvoiceItem, checks: seq<ItemCheck>)
      modifies this
      ensures validationErrors == old(validationErrors) + ItemErrors(item, invoice, checks)
    {
      for j := 0 to |checks|
        invariant validationErrors == old(validationErrors) + ItemErrors(item, invoice, checks[..j])
      {
        validationErrors := validationErrors + checks[j](item, invoice);
        assert checks[..j + 1][..j] == checks[..j];
      }
      assert checks[..|checks|] == checks;
    }

    /** Extend the error list with what each invoice-level check reports, in order. */
    method RunInvoiceChecks(checks: seq<InvoiceCheck>)
      modifies this
      ensures validationErrors == old(validationErrors) + InvoiceErrors(invoice, checks)
    {
      for k := 0 to |checks|
        invariant validationErrors == old(validationErrors) + InvoiceErrors(invoice, checks[..k])
      {
        validationErrors := validationErrors + checks[k](invoice);
        assert checks[..k + 1][..k] == checks[..k];
      }
      assert checks[..|checks|] == checks;
    }
  }

  /** Validate several invoices in turn with every validator; each invoice
      receives its own errors and no other invoice's. */
  method ValidateBatch(nfes: seq<NFe>, repo: Repository)
    requires forall i, j :: 0 <= i < j < |nfes| ==> nfes[i] != nfes[j]
    modifies set n | n in nfes
    ensures forall i :: 0 <= i < |nfes| ==>
      nfes[i].validationErrors == old(nfes[i].validationErrors) + FullValidation(repo, nfes[i].invoice)
  {
    for k := 0 to |nfes|
      invariant forall i :: 0 <= i < k ==>
        nfes[i].validationErrors == old(nfes[i].validationErrors) + FullValidation(repo, nfes[i].invoice)
      invariant forall i :: k <= i < |nfes| ==> nfes[i].validationErrors == old(nfes[i].validationErrors)
    {
      assert forall i :: 0 <= i < |nfes| && i != k ==> nfes[i] != nfes[k];
      nfes[k].Validate(repo);
    }
  }

  // ---------------------------------------------------------------- properties

  /** Validating two runs of items one after the other is validating their concatenation. */
  lemma {:induction false} ItemsErrorsAppend(xs: seq<InvoiceItem>, ys: seq<InvoiceItem>, inv: Invoice, checks: seq<ItemCheck>)
    ensures ItemsErrors(xs + ys, inv, checks) == ItemsErrors(xs, inv, checks) + ItemsErrors(ys, inv, checks)
  {
    if ys == [] {
      assert xs + ys == xs;
    } else {
      var zs := xs + ys;
      assert zs[..|zs| - 1] == xs + ys[..|ys| - 1];
      ItemsErrorsAppend(xs, ys[..|ys| - 1], inv, checks);
    }
  }

  /** One more check adds its report after the others'. */
  lemma ItemErrorsSnoc(item: InvoiceItem, inv: Invoice, checks: seq<ItemCheck>, check: ItemCheck)
    ensures ItemErrors(item, inv, checks + [check]) == ItemErrors(item, inv, checks) + check(item, inv)
  {
    assert (checks + [check])[..|checks|] == checks;
  }

  /** Three checks report one after another. */
  lemma ThreeChecksRun(item: InvoiceItem, inv: Invoice, n: ItemCheck, p: ItemCheck, c: ItemCheck)
    ensures ItemErrors(item, inv, [n, p, c]) == n(item, inv) + p(item, inv) + c(item, inv)
  {
    ItemErrorsSnoc(item, inv, [], n);
    ItemErrorsSnoc(item, inv, [n], p);
    ItemErrorsSnoc(item, inv, [n, p], c);
    assert [] + [n] == [n] && [n] + [p] == [n, p] && [n, p] + [c] == [n, p, c];
  }

  lemma NcmCheckRuns(repo: Repository, item: InvoiceItem, inv: Invoice)
    ensures NcmCheck(repo)(item, inv) == ValidateNcm(repo, item, inv)
  {
  }

  lemma PisCofinsCheckRuns(repo: Repository, item: InvoiceItem, inv: Invoice)
    ensures PisCofinsCheck(repo)(item, inv) == ValidatePisCofins(repo, item, inv)
  {
  }

  lemma CfopCheckRuns(repo: Repository, item: InvoiceItem, inv: Invoice)
    ensures CfopCheck(repo)(item, inv) == ValidateCfop(repo, item, inv)
  {
  }

  /** The full flow runs NCM, PIS/COFINS and CFOP on each item, in that order. */
  lemma ItemErrorsOfAll(repo: Repository, item: InvoiceItem, inv: Invoice)
    ensures ItemErrors(item, inv, AllItemChecks(repo)) ==
      ValidateNcm(repo, item, inv) + ValidatePisCofins(repo, item, inv) + ValidateCfop(repo, item, inv)
  {
    ThreeChecksRun(item, inv, NcmCheck(repo), PisCofinsCheck(repo), CfopCheck(repo));
    NcmCheckRuns(repo, item, inv);
    PisCofinsCheckRuns(repo, item, inv);
    CfopCheckRuns(repo, item, inv);
  }

  /** A code is reported for the items exactly when it is reported for one of them. */
  lemma {:induction false} ItemsErrorsHasCode(items: seq<InvoiceItem>, inv: Invoice, checks: seq<ItemCheck>, c: ErrorCode)
    ensures HasCode(ItemsErrors(items, inv, checks), c) <==>
      exists i | 0 <= i < |items| :: HasCode(ItemErrors(items[i], inv, checks), c)
  {
    if items != [] {
      var init, last := items[..|items| - 1], items[|items| - 1];
      HasCodeConcat(ItemsErrors(init, inv, checks), ItemErrors(last, inv, checks), c);
      ItemsErrorsHasCode(init, inv, checks, c);
      if exists i | 0 <= i < |items| :: HasCode(ItemErrors(items[i], inv, checks), c) {
        var i :| 0 <= i < |items| && HasCode(ItemErrors(items[i], inv, checks), c);
        if i < |items| - 1 {
          assert items[i] == init[i];
        }
      }
      if exists i | 0 <= i < |init| :: HasCode(ItemErrors(init[i], inv, checks), c) {
        var i :| 0 <= i < |init| && HasCode(ItemErrors(init[i], inv, checks), c);
        assert init[i] == items[i];
      }
    }
  }

  /** Every error the item validators report names its item and is not a totals error. */
  lemma {:induction false} ItemsErrorsAreItemLevel(repo: Repository, items: seq<InvoiceItem>, inv: Invoice)
    ensures forall e :: e in ItemsErrors(items, inv, AllItemChecks(repo)) ==>
      e.itemNumero.Some? && e.code.Category() != TotalRules
  {
    if items != [] {
      ItemsErrorsAreItemLevel(repo, items[..|items| - 1], inv);
      ItemErrorsAreItemLevel(repo, items[|items| - 1], inv);
    }
  }

  /** One item's errors all name an item and none is a totals error. */
  lemma ItemErrorsAreItemLevel(repo: Repository, item: InvoiceItem, inv: Invoice)
    ensures forall e :: e in ItemErrors(item, inv, AllItemChecks(repo)) ==>
      e.itemNumero.Some? && e.code.Category() != TotalRules
  {
    var ncm, pc, cfop := ValidateNcm(repo, item, inv), ValidatePisCofins(repo, item, inv), ValidateCfop(repo, item, inv);
    ItemErrorsOfAll(repo, item, inv);
    assert ItemLevel(ncm) && ItemLevel(pc) && ItemLevel(cfop);
    ItemLevelConcat(ncm, pc, cfop);
  }

  /** Every error of `errs` names an item and is not a totals error. */
  predicate ItemLevel(errs: seq<ValidationError>) {
    forall e :: e in errs ==> e.itemNumero.Some? && e.code.Category() != TotalRules
  }

  lemma ItemLevelConcat(a: seq<ValidationError>, b: seq<ValidationError>, c: seq<ValidationError>)
    requires ItemLevel(a) && ItemLevel(b) && ItemLevel(c)
    ensures ItemLevel(a + b + c)
  {
  }

  /** In the full flow, a PIS or COFINS code of an item comes from the PIS/COFINS validator alone. */
  lemma TaxCodeOfItem(repo: Repository, tax: Tax, item: InvoiceItem, inv: Invoice, c: ErrorCode)
    requires c.Category() == tax.Rules()
    ensures HasCode(ItemErrors(item, inv, AllItemChecks(repo)), c) <==> HasCode(ValidatePisCofins(repo, item, inv), c)
  {
    var ncm, pc, cfop := ValidateNcm(repo, item, inv), ValidatePisCofins(repo, item, inv), ValidateCfop(repo, item, inv);
    ItemErrorsOfAll(repo, item, inv);
    HasCodeConcat(ncm + pc, cfop, c);
    HasCodeConcat(ncm, pc, c);
    if HasCode(ncm, c) {
      HasCodeCategory(ncm, NcmRules, c);
    }
    if HasCode(cfop, c) {
      HasCodeCategory(cfop, CfopRules, c);
    }
  }

  /** The full validation of an invoice reports a contribution's rate error
      exactly when some item declares a rate other than the registered one. */
  lemma FullValidationRateErrors(repo: Repository, tax: Tax, inv: Invoice)
    ensures HasCode(FullValidation(repo, inv), tax.RateCode()) <==>
      exists i | 0 <= i < |inv.items| :: RateDiverges(repo, tax, inv.items[i].impostos)
  {
    var c := tax.RateCode();
    HasCodeConcat(ItemsErrors(inv.items, inv, AllItemChecks(repo)), ValidateTotals(inv), c);
    if HasCode(ValidateTotals(inv), c) {
      HasCodeCategory(ValidateTotals(inv), TotalRules, c);
    }
    ItemsRateErrors(repo, tax, inv);
  }

  /** The item errors carry a rate code exactly when some item's rate diverges. */
  lemma ItemsRateErrors(repo: Repository, tax: Tax, inv: Invoice)
    ensures HasCode(ItemsErrors(inv.items, inv, AllItemChecks(repo)), tax.RateCode()) <==>
      exists i | 0 <= i < |inv.items| :: RateDiverges(repo, tax, inv.items[i].impostos)
  {
    var c := tax.RateCode();
    ItemsErrorsHasCode(inv.items, inv, AllItemChecks(repo), c);
    forall i | 0 <= i < |inv.items|
      ensures HasCode(ItemErrors(inv.items[i], inv, AllItemChecks(repo)), c) <==>
        RateDiverges(repo, tax, inv.items[i].impostos)
    {
      RateCodeOfItem(repo, tax, inv.items[i], inv);
    }
  }

  /** One item's errors carry a rate code exactly when its rate diverges. */
  lemma RateCodeOfItem(repo: Repository, tax: Tax, item: InvoiceItem, inv: Invoice)
    ensures HasCode(ItemErrors(item, inv, AllItemChecks(repo)), tax.RateCode()) <==> RateDiverges(repo, tax, item.impostos)
  {
    TaxCodeOfItem(repo, tax, item, inv, tax.RateCode());
    PisCofinsRulesFire(repo, tax, item, inv);
  }

  /** In the full validation an error is invoice-level exactly when it is a totals error. */
  lemma InvoiceLevelIffTotals(repo: Repository, inv: Invoice)
    ensures forall e :: e in FullValidation(repo, inv) ==> (e.itemNumero == None <==> e.code.Category() == TotalRules)
  {
    ItemsErrorsAreItemLevel(repo, inv.items, inv);
  }
}
