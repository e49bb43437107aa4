/** Ingestion of the flat CSV layout (one row per invoice item): column
    check, code normalisation and grouping of rows into invoices. Reading
    the file and converting its cells into numbers happen before this model
    starts; a row arrives with its amounts already in cents. */
module CsvParser {
  import opened Wrappers
  import opened Text
  import opened Money
  import opened Entities
  import opened FederalValidators

  // ================================================================ normalisers

  /** Canonical widths of the classification and situation codes. */
  const NCM_WIDTH: nat := 8
  const CST_WIDTH: nat := 2

  /** An NCM shorter than eight characters is completed with zeros on the
      right ("1701" becomes "17010000"); an empty or a longer one is kept. */
  function NormalizeNcm(ncm: string): (r: string)
    ensures |r| >= |ncm| && r[..|ncm|] == ncm
  {
    if ncm == [] || |ncm| >= NCM_WIDTH then ncm else ncm + Repeat('0', NCM_WIDTH - |ncm|)
  }

  /** A CST shorter than two characters is completed with zeros on the
      left ("1" becomes "01"); an empty or a longer one is kept. */
  function NormalizeCst(cst: string): (r: string)
    ensures |r| >= |cst| && r[|r| - |cst|..] == cst
  {
    if cst == [] || |cst| >= CST_WIDTH then cst else Repeat('0', CST_WIDTH - |cst|) + cst
  }

  /** A CFOP is taken as it is written: no padding, no trimming. */
  function NormalizeCfop(cfop: string): (r: string)
    ensures |r| == |cfop| && forall i :: 0 <= i < |cfop| ==> r[i] == cfop[i]
  {
    cfop
  }

  /** A non-empty NCM of at most eight digits becomes exactly the eight-digit
      code the NCM format rule accepts: the original digits, then zeros. */
  lemma NormalizeNcmCanonical(ncm: string)
    requires ncm != [] && |ncm| <= NCM_WIDTH && AllDigits(ncm)
    ensures IsDigitCode(NormalizeNcm(ncm), NCM_LENGTH)
    ensures forall i :: |ncm| <= i < NCM_WIDTH ==> NormalizeNcm(ncm)[i] == '0'
  {
    var r := NormalizeNcm(ncm);
    forall i | 0 <= i < |r|
      ensures IsDigit(r[i])
    {
      if i < |ncm| {
        assert r[i] == r[..|ncm|][i];
      }
    }
  }

  /** Empty codes and codes already eight characters or longer are left alone. */
  lemma NormalizeNcmKeeps(ncm: string)
    ensures NormalizeNcm(ncm) == ncm <==> ncm == [] || |ncm| >= NCM_WIDTH
  {
    if ncm != [] && |ncm| < NCM_WIDTH {
      assert |NormalizeNcm(ncm)| == NCM_WIDTH;
    }
  }

  /** Normalising twice is normalising once. */
  lemma NormalizeNcmIdempotent(ncm: string)
    ensures NormalizeNcm(NormalizeNcm(ncm)) == NormalizeNcm(ncm)
  {
    NormalizeNcmKeeps(NormalizeNcm(ncm));
  }

  /** A non-empty CST of at most two digits becomes the two-digit code, its
      digits kept at the right. */
  lemma NormalizeCstCanonical(cst: string)
    requires cst != [] && |cst| <= CST_WIDTH && AllDigits(cst)
    ensures IsDigitCode(NormalizeCst(cst), CST_WIDTH)
    ensures forall i :: 0 <= i < CST_WIDTH - |cst| ==> NormalizeCst(cst)[i] == '0'
  {
    var r := NormalizeCst(cst);
    forall i | 0 <= i < |r|
      ensures IsDigit(r[i])
    {
      if i >= |r| - |cst| {
        assert r[i] == r[|r| - |cst|..][i - (|r| - |cst|)];
      }
    }
  }

  /** Empty codes and codes already two characters or longer are left alone. */
  lemma NormalizeCstKeeps(cst: string)
    ensures NormalizeCst(cst) == cst <==> cst == [] || |cst| >= CST_WIDTH
  {
    if cst != [] && |cst| < CST_WIDTH {
      assert |NormalizeCst(cst)| == CST_WIDTH;
    }
  }

  /** Normalising twice is normalising once. */
  lemma NormalizeCstIdempotent(cst: string)
    ensures NormalizeCst(NormalizeCst(cst)) == NormalizeCst(cst)
  {
    NormalizeCstKeeps(NormalizeCst(cst));
  }

  /** Whatever the CFOP column holds reaches the CFOP rules unchanged, so a
      four-digit code stays in the form the CFOP format rule accepts. */
  lemma NormalizeCfopKeeps(cfop: string)
    ensures IsDigitCode(NormalizeCfop(cfop), CFOP_LENGTH) <==> IsDigitCode(cfop, CFOP_LENGTH)
    ensures NormalizeCfop(NormalizeCfop(cfop)) == NormalizeCfop(cfop)
  {
  }

  /** The values the normalisers are documented with. */
  lemma NormalizerExamples()
    ensures NormalizeNcm("1701") == "17010000"
    ensures NormalizeNcm("170111") == "17011100"
    ensures NormalizeNcm("17011100") == "17011100"
    ensures NormalizeCst("1") == "01"
    ensures NormalizeCst("01") == "01"
    ensures NormalizeCst("") == ""
    ensures NormalizeCfop("5101") == "5101"
  {
    assert Repeat('0', 4) == "0000";
    assert Repeat('0', 2) == "00";
    assert Repeat('0', 1) == "0";
  }

  // ================================================================ columns

  /** The columns a file must have for its rows to be read. */
  const REQUIRED_COLUMNS: seq<string> := [
    "chave_acesso", "numero_nfe", "cnpj_emitente", "cnpj_destinatario",
    "item_numero", "item_ncm", "item_cfop", "item_valor_total",
    "pis_cst", "cofins_cst"]

  const MISSING_COLUMNS_MESSAGE: string := "Colunas MÍNIMAS ausentes: "

  /** Why a file is refused. */
  datatype ParseError =
    | MissingColumns(columns: seq<string>)
    | EmptyAccessKey(row: nat)
  {
    /** The refusal in the parser's words: a missing-columns refusal says so
        and names every missing column; an empty-key refusal names the
        column that is empty. */
    function Message(): (m: string)
      ensures MissingColumns? ==> Contains(m, "Colunas MÍNIMAS ausentes")
      ensures MissingColumns? ==> forall k :: 0 <= k < |columns| ==> Contains(m, columns[k])
      ensures EmptyAccessKey? ==> Contains(m, "chave_acesso vazia")
    {
      match this
      case MissingColumns(cols) =>
        var lead, list := "Colunas MÍNIMAS ausentes", JoinWithComma(cols);
        ContainsSelf(lead);
        ContainsInLeft(lead, ": ", lead);
        assert MISSING_COLUMNS_MESSAGE == lead + ": ";
        ContainsInLeft(MISSING_COLUMNS_MESSAGE, list, lead);
        JoinWithCommaNamesAll(cols);
        InRightOfAll(MISSING_COLUMNS_MESSAGE, list, cols);
        MISSING_COLUMNS_MESSAGE + list
      case EmptyAccessKey(row) =>
        var tail := "chave_acesso vazia";
        ContainsSelf(tail);
        ContainsInRight("Linha " + NatToString(row + 1) + ": ", tail, tail);
        "Linha " + NatToString(row + 1) + ": " + tail
    }
  }

  function JoinWithComma(items: seq<string>): string {
    if items == [] then []
    else if |items| == 1 then items[0]
    else JoinWithComma(items[..|items| - 1]) + ", " + items[|items| - 1]
  }

  /** The joined list names every item. */
  lemma {:induction false} JoinWithCommaNamesAll(items: seq<string>)
    ensures forall k :: 0 <= k < |items| ==> Contains(JoinWithComma(items), items[k])
  {
    if |items| == 1 {
      ContainsSelf(items[0]);
    } else if |items| > 1 {
      var init, last := items[..|items| - 1], items[|items| - 1];
      JoinWithCommaNamesAll(init);
      forall k | 0 <= k < |items|
        ensures Contains(JoinWithComma(items), items[k])
      {
        if k < |init| {
          assert init[k] == items[k];
          ContainsInLeft(JoinWithComma(init), ", ", items[k]);
          ContainsInLeft(JoinWithComma(init) + ", ", last, items[k]);
        } else {
          ContainsSelf(last);
          ContainsInRight(JoinWithComma(init) + ", ", last, last);
        }
      }
    }
  }

  /** Whatever a text names, it still names after a lead is put in front. */
  lemma InRightOfAll(lead: string, text: string, names: seq<string>)
    requires forall k :: 0 <= k < |names| ==> Contains(text, names[k])
    ensures forall k :: 0 <= k < |names| ==> Contains(lead + text, names[k])
  {
    forall k | 0 <= k < |names|
      ensures Contains(lead + text, names[k])
    {
      ContainsInRight(lead, text, names[k]);
    }
  }

  /** The columns of `cols` absent from `header`, in the order of `cols`. */
  function AbsentColumns(cols: seq<string>, header: seq<string>): (r: seq<string>)
    ensures forall c :: c in r <==> c in cols && c !in header
  {
    if cols == [] then []
    else AbsentColumns(cols[..|cols| - 1], header) + (if cols[|cols| - 1] in header then [] else [cols[|cols| - 1]])
  }

  /** A header is accepted exactly when it has every required column; otherwise
      the refusal names the missing ones. */
  function CheckRequiredColumns(header: seq<string>): (r: Result<(), ParseError>)
    ensures r.Success? <==> forall c :: c in REQUIRED_COLUMNS ==> c in header
    ensures r.Failure? ==> r.error == MissingColumns(AbsentColumns(REQUIRED_COLUMNS, header))
  {
    var absent := AbsentColumns(REQUIRED_COLUMNS, header);
    if absent == [] then Success(())
    else
      assert absent[0] in absent;
      Failure(MissingColumns(absent))
  }

  /** A header with only the key and the number, or one without the key, is refused. */
  lemma ShortHeadersRefused()
    ensures CheckRequiredColumns(["chave_acesso", "numero_nfe"]).Failure?
    ensures CheckRequiredColumns(["numero_nfe", "data_emissao", "cnpj_emitente"]).Failure?
    ensures CheckRequiredColumns([]).Failure?
  {
    assert "cnpj_emitente" in REQUIRED_COLUMNS && "cnpj_emitente" !in ["chave_acesso", "numero_nfe"];
    assert "chave_acesso" in REQUIRED_COLUMNS && "chave_acesso" !in ["numero_nfe", "data_emissao", "cnpj_emitente"];
    assert "chave_acesso" in REQUIRED_COLUMNS;
  }

  // ================================================================ rows

  /** One CSV row: the invoice header repeated, then one item and its taxes,
      then the invoice's declared totals (`total_produtos`, `total_nfe`,
      `total_pis`, `total_cofins`, `total_icms`) when the export carries
      those columns. */
  datatype CsvRow = CsvRow(
    chaveAcesso: string, numeroNfe: string, serie: string, dataEmissao: string,
    emitente: Company, destinatario: Company, cfopNota: string, naturezaOperacao: string,
    itemNumero: nat, itemCodigo: string, itemDescricao: string, itemNcm: string, itemCfop: string,
    itemUnidade: string, itemQuantidade: nat, itemValorUnitario: Cents, itemValorTotal: Cents,
    pisCst: string, pisAliquota: Rate, pisBase: Cents, pisValor: Cents,
    cofinsCst: string, cofinsAliquota: Rate, cofinsBase: Cents, cofinsValor: Cents,
    declaredTotals: Option<InvoiceTotals>)

  /** The item a row describes, its codes normalised; texts are kept as written. */
  function RowToItem(row: CsvRow): (item: InvoiceItem)
    ensures item.numeroItem == row.itemNumero && item.descricao == row.itemDescricao
    ensures item.ncm == NormalizeNcm(row.itemNcm) && item.cfop == NormalizeCfop(row.itemCfop)
    ensures item.impostos.pisCst == NormalizeCst(row.pisCst)
    ensures item.impostos.cofinsCst == NormalizeCst(row.cofinsCst)
    ensures item.valorTotal == row.itemValorTotal
  {
    InvoiceItem(
      row.itemNumero, row.itemCodigo, row.itemDescricao,
      NormalizeNcm(row.itemNcm), NormalizeCfop(row.itemCfop), row.itemUnidade,
      row.itemQuantidade, row.itemValorUnitario, row.itemValorTotal,
      TaxItem(NormalizeCst(row.pisCst), row.pisAliquota, row.pisBase, row.pisValor,
              NormalizeCst(row.cofinsCst), row.cofinsAliquota, row.cofinsBase, row.cofinsValor,
              0, 0))
  }

  /** The items of a run of rows, in row order. */
  function RowsToItems(rows: seq<CsvRow>): (items: seq<InvoiceItem>)
    ensures |items| == |rows| && forall j :: 0 <= j < |rows| ==> items[j] == RowToItem(rows[j])
  {
    seq(|rows|, j requires 0 <= j < |rows| => RowToItem(rows[j]))
  }

  /** The invoice the rows of one access key describe: header fields from
      its first row, one item per row in row order, and the totals that row
      declares; an export without totals columns gets totals summed over the
      items (the layout has no ICMS column, so its ICMS total is zero). */
  function InvoiceOf(group: seq<CsvRow>): (inv: Invoice)
    requires group != []
    ensures inv.chaveAcesso == group[0].chaveAcesso && inv.numero == group[0].numeroNfe
    ensures inv.serie == group[0].serie && inv.dataEmissao == group[0].dataEmissao
    ensures inv.emitente == group[0].emitente && inv.destinatario == group[0].destinatario
    ensures inv.cfopNota == NormalizeCfop(group[0].cfopNota)
    ensures inv.naturezaOperacao == group[0].naturezaOperacao
    ensures inv.ufOrigem == group[0].emitente.uf && inv.ufDestino == group[0].destinatario.uf
    ensures inv.IsInterstate() <==> group[0].emitente.uf != group[0].destinatario.uf
    ensures inv.items == RowsToItems(group)
    ensures group[0].declaredTotals.Some? ==> inv.totais == group[0].declaredTotals.value
    ensures group[0].declaredTotals.None? ==>
      && inv.totais.valorProdutos == Sum(inv.items, ValorTotal)
      && inv.totais.valorTotalNota == Sum(inv.items, ValorTotal)
      && inv.totais.valorIcms == 0
      && inv.totais.valorPis == Sum(inv.items, PisValor)
      && inv.totais.valorCofins == Sum(inv.items, CofinsValor)
  {
    var first, items := group[0], RowsToItems(group);
    Invoice(
      first.chaveAcesso, first.numeroNfe, first.serie, first.dataEmissao,
      first.emitente, first.destinatario, NormalizeCfop(first.cfopNota), first.naturezaOperacao,
      first.emitente.uf, first.destinatario.uf,
      items,
      if first.declaredTotals.Some? then first.declaredTotals.value
      else InvoiceTotals(Sum(items, ValorTotal), Sum(items, ValorTotal),
                         Sum(items, PisValor), Sum(items, CofinsValor), 0))
  }

  /** Without declared totals the invoice's totals are the items' sums, so
      the totals rules find nothing in it. */
  lemma InvoiceOfTotalsPass(group: seq<CsvRow>)
    requires group != [] && group[0].declaredTotals.None?
    ensures ValidateTotals(InvoiceOf(group)) == []
  {
    TotalsCount(InvoiceOf(group));
  }

  /** Declared totals are checked against the items: each totals rule fires
      exactly when its declared figure strays from the items' sum. */
  lemma InvoiceOfDeclaredTotals(group: seq<CsvRow>)
    requires group != [] && group[0].declaredTotals.Some?
    ensures var t, items := group[0].declaredTotals.value, RowsToItems(group);
      && (HasCode(ValidateTotals(InvoiceOf(group)), Total001) <==> Diverges(Sum(items, ValorTotal), t.valorProdutos))
      && (HasCode(ValidateTotals(InvoiceOf(group)), Total003) <==> Diverges(Sum(items, PisValor), t.valorPis))
      && (HasCode(ValidateTotals(InvoiceOf(group)), Total004) <==> Diverges(Sum(items, CofinsValor), t.valorCofins))
  {
    TotalsRulesFire(InvoiceOf(group));
  }

  // ================================================================ grouping

  /** The rows read so far for one access key. */
  datatype Group = Group(key: string, rows: seq<CsvRow>)

  /** The position of the first group with key `k`, or `|groups|` when there is none. */
  function Position(groups: seq<Group>, k: string): (p: nat)
    ensures p <= |groups|
    ensures p < |groups| ==> groups[p].key == k
    ensures forall j :: 0 <= j < p ==> groups[j].key != k
  {
    if groups == [] then 0
    else if groups[0].key == k then 0
    else 1 + Position(groups[1..], k)
  }

  /** One row read: a row whose key already has a group joins it, any other
      row opens a new group at the end. */
  function Step(groups: seq<Group>, row: CsvRow): (r: seq<Group>)
    ensures |r| == |groups| || |r| == |groups| + 1
  {
    var p := Position(groups, row.chaveAcesso);
    if p < |groups| then groups[p := Group(row.chaveAcesso, groups[p].rows + [row])]
    else groups + [Group(row.chaveAcesso, [row])]
  }

  /** The rows grouped by access key, read one after another. */
  function Grouping(rows: seq<CsvRow>): (groups: seq<Group>)
    ensures |groups| <= |rows|
  {
    if rows == [] then [] else Step(Grouping(rows[..|rows| - 1]), rows[|rows| - 1])
  }

  lemma GroupingSnoc(rows: seq<CsvRow>, i: nat)
    requires i < |rows|
    ensures Grouping(rows[..i + 1]) == Step(Grouping(rows[..i]), rows[i])
  {
    assert rows[..i + 1][..i] == rows[..i];
  }

  /** Some group has key `k`. */
  predicate HasGroup(groups: seq<Group>, k: string) {
    exists j :: 0 <= j < |groups| && groups[j].key == k
  }

  /** Some row has access key `k`. */
  predicate HasRow(rows: seq<CsvRow>, k: string) {
    exists i :: 0 <= i < |rows| && rows[i].chaveAcesso == k
  }

  /** A step adds the row's key to the keys and no other. */
  lemma StepKeys(groups: seq<Group>, row: CsvRow, k: string)
    ensures HasGroup(Step(groups, row), k) <==> HasGroup(groups, k) || row.chaveAcesso == k
  {
    var r := Step(groups, row);
    var p := Position(groups, row.chaveAcesso);
    if HasGroup(r, k) {
      var j :| 0 <= j < |r| && r[j].key == k;
      if j < |groups| {
        assert groups[j].key == k;
      }
    }
    if HasGroup(groups, k) {
      var j :| 0 <= j < |groups| && groups[j].key == k;
      assert r[j].key == k;
    }
    if row.chaveAcesso == k {
      assert r[if p < |groups| then p else |groups|].key == k;
    }
  }

  /** Every group is non-empty, holds rows of its own key only, and no two
      groups share a key. */
  predicate WellGrouped(groups: seq<Group>) {
    && (forall j :: 0 <= j < |groups| ==> groups[j].rows != [])
    && (forall j, r :: 0 <= j < |groups| && r in groups[j].rows ==> r.chaveAcesso == groups[j].key)
    && (forall i, j :: 0 <= i < j < |groups| ==> groups[i].key != groups[j].key)
  }

  lemma {:induction false} GroupingWellGrouped(rows: seq<CsvRow>)
    ensures WellGrouped(Grouping(rows))
  {
    if rows != [] {
      GroupingWellGrouped(rows[..|rows| - 1]);
      StepWellGrouped(Grouping(rows[..|rows| - 1]), rows[|rows| - 1]);
    }
  }

  /** Reading one row keeps the groups non-empty, single-keyed and distinct. */
  lemma StepWellGrouped(groups: seq<Group>, row: CsvRow)
    requires WellGrouped(groups)
    ensures WellGrouped(Step(groups, row))
  {
    var p := Position(groups, row.chaveAcesso);
    if p < |groups| {
      var next := groups[p := Group(row.chaveAcesso, groups[p].rows + [row])];
      assert forall j :: 0 <= j < |groups| ==> next[j].key == groups[j].key;
    } else {
      var next := groups + [Group(row.chaveAcesso, [row])];
      assert forall j :: 0 <= j < |groups| ==> next[j] == groups[j];
    }
  }

  /** The invoices the rows describe: one per access key, in order of first
      appearance. */
  function Grouped(rows: seq<CsvRow>): (nfes: seq<Invoice>)
    ensures |nfes| == |Grouping(rows)|
  {
    var groups := Grouping(rows);
    GroupingWellGrouped(rows);
    seq(|groups|, j requires 0 <= j < |groups| => InvoiceOf(groups[j].rows))
  }

  /** Each invoice gathers the rows of its key, and carries that key as written. */
  lemma GroupedByKey(rows: seq<CsvRow>, j: nat)
    requires j < |Grouped(rows)|
    ensures Grouped(rows)[j].chaveAcesso == Grouping(rows)[j].key
    ensures Grouped(rows)[j].items == RowsToItems(Grouping(rows)[j].rows)
  {
    GroupingWellGrouped(rows);
    var g := Grouping(rows)[j];
    assert g.rows[0] in g.rows;
  }

  /** The invoices carry exactly the access keys the rows carry, as written
      (a malformed key such as "ABC" is kept for the validators to judge). */
  lemma GroupedKeys(rows: seq<CsvRow>, k: string)
    ensures (exists j :: 0 <= j < |Grouped(rows)| && Grouped(rows)[j].chaveAcesso == k) <==> HasRow(rows, k)
  {
    GroupingKeys(rows, k);
    if HasGroup(Grouping(rows), k) {
      var j :| 0 <= j < |Grouping(rows)| && Grouping(rows)[j].key == k;
      GroupedByKey(rows, j);
    }
    if exists j :: 0 <= j < |Grouped(rows)| && Grouped(rows)[j].chaveAcesso == k {
      var j :| 0 <= j < |Grouped(rows)| && Grouped(rows)[j].chaveAcesso == k;
      GroupedByKey(rows, j);
    }
  }

  /** The invoices read from an export without totals columns never
      trigger a totals rule. */
  lemma GroupedTotalsPass(rows: seq<CsvRow>, j: nat)
    requires forall i :: 0 <= i < |rows| ==> rows[i].declaredTotals.None?
    requires j < |Grouped(rows)|
    ensures ValidateTotals(Grouped(rows)[j]) == []
  {
    GroupingWellGrouped(rows);
    GroupingRowsFromInput(rows);
    var first := Grouping(rows)[j].rows[0];
    assert first in Grouping(rows)[j].rows;
    assert first in rows;
    var i :| 0 <= i < |rows| && rows[i] == first;
    InvoiceOfTotalsPass(Grouping(rows)[j].rows);
  }

  /** Every grouped row is one of the rows read. */
  lemma {:induction false} GroupingRowsFromInput(rows: seq<CsvRow>)
    ensures forall j, r :: 0 <= j < |Grouping(rows)| && r in Grouping(rows)[j].rows ==> r in rows
  {
    if rows != [] {
      var init := rows[..|rows| - 1];
      GroupingRowsFromInput(init);
      assert forall r :: r in init ==> r in rows;
    }
  }

  /** A key has a group exactly when some row carries it. */
  lemma {:induction false} GroupingKeys(rows: seq<CsvRow>, k: string)
    ensures HasGroup(Grouping(rows), k) <==> HasRow(rows, k)
  {
    if rows != [] {
      var init, row := rows[..|rows| - 1], rows[|rows| - 1];
      GroupingKeys(init, k);
      StepKeys(Grouping(init), row, k);
      if HasRow(rows, k) {
        var i :| 0 <= i < |rows| && rows[i].chaveAcesso == k;
        if i < |init| {
          assert init[i] == rows[i];
        }
      }
      if HasRow(init, k) {
        var i :| 0 <= i < |init| && init[i].chaveAcesso == k;
        assert rows[i] == init[i];
      }
    }
  }

  /** Reading more rows keeps every group where it was, with its key, and
      only appends to its rows. */
  lemma {:induction false} GroupingGrows(rows: seq<CsvRow>, n: nat)
    requires n <= |rows|
    ensures |Grouping(rows[..n])| <= |Grouping(rows)|
    ensures forall j :: 0 <= j < |Grouping(rows[..n])| ==>
      && Grouping(rows)[j].key == Grouping(rows[..n])[j].key
      && Grouping(rows[..n])[j].rows <= Grouping(rows)[j].rows
    decreases |rows| - n
  {
    if n < |rows| {
      GroupingSnoc(rows, n);
      StepExtends(Grouping(rows[..n]), rows[n]);
      GroupingGrows(rows, n + 1);
    } else {
      assert rows[..n] == rows;
    }
  }

  /** A step keeps every group's key and position, and only adds rows. */
  lemma StepExtends(groups: seq<Group>, row: CsvRow)
    ensures forall j :: 0 <= j < |groups| ==>
      && Step(groups, row)[j].key == groups[j].key
      && groups[j].rows <= Step(groups, row)[j].rows
  {
  }

  /** Every row joins the group of its key. */
  lemma RowInItsGroup(rows: seq<CsvRow>, i: nat)
    requires i < |rows|
    ensures exists j :: 0 <= j < |Grouping(rows)| && Grouping(rows)[j].key == rows[i].chaveAcesso
                        && rows[i] in Grouping(rows)[j].rows
  {
    var upto := rows[..i + 1];
    GroupingSnoc(rows, i);
    var p := Position(Grouping(rows[..i]), rows[i].chaveAcesso);
    var g := Grouping(upto)[p];
    assert g.key == rows[i].chaveAcesso && g.rows[|g.rows| - 1] == rows[i];
    GroupingGrows(rows, i + 1);
    assert Grouping(rows)[p].rows[|g.rows| - 1] == rows[i];
  }

  /** Every row becomes an item of the invoice of its key. */
  lemma RowLandsInItsInvoice(rows: seq<CsvRow>, i: nat)
    requires i < |rows|
    ensures exists j :: 0 <= j < |Grouped(rows)| && Grouped(rows)[j].chaveAcesso == rows[i].chaveAcesso
                        && RowToItem(rows[i]) in Grouped(rows)[j].items
  {
    RowInItsGroup(rows, i);
    var j :| 0 <= j < |Grouping(rows)| && Grouping(rows)[j].key == rows[i].chaveAcesso
             && rows[i] in Grouping(rows)[j].rows;
    GroupedByKey(rows, j);
    var group := Grouping(rows)[j].rows;
    var m :| 0 <= m < |group| && group[m] == rows[i];
    assert Grouped(rows)[j].items[m] == RowToItem(rows[i]);
  }

  /** Rows with pairwise distinct keys each open a group of their own, in row order. */
  lemma {:induction false} GroupingDistinctKeys(rows: seq<CsvRow>)
    requires forall i, j :: 0 <= i < j < |rows| ==> rows[i].chaveAcesso != rows[j].chaveAcesso
    ensures |Grouping(rows)| == |rows|
    ensures forall i :: 0 <= i < |rows| ==> Grouping(rows)[i] == Group(rows[i].chaveAcesso, [rows[i]])
  {
    if rows != [] {
      var init := rows[..|rows| - 1];
      GroupingDistinctKeys(init);
    }
  }

  /** Rows with pairwise distinct keys give one invoice per row, in row order. */
  lemma GroupedDistinctKeys(rows: seq<CsvRow>)
    requires forall i, j :: 0 <= i < j < |rows| ==> rows[i].chaveAcesso != rows[j].chaveAcesso
    ensures |Grouped(rows)| == |rows|
    ensures forall i :: 0 <= i < |rows| ==>
      && Grouped(rows)[i].chaveAcesso == rows[i].chaveAcesso && Grouped(rows)[i].numero == rows[i].numeroNfe
      && Grouped(rows)[i].items == [RowToItem(rows[i])]
  {
    GroupingDistinctKeys(rows);
    forall i | 0 <= i < |rows|
      ensures Grouped(rows)[i].chaveAcesso == rows[i].chaveAcesso && Grouped(rows)[i].numero == rows[i].numeroNfe
      ensures Grouped(rows)[i].items == [RowToItem(rows[i])]
    {
      var group := Grouping(rows)[i].rows;
      assert group == [rows[i]];
      assert Grouped(rows)[i] == InvoiceOf(group);
    }
  }

  /** Rows sharing one key form a single group holding all of them in order. */
  lemma {:induction false} GroupingSameKey(rows: seq<CsvRow>)
    requires rows != [] && forall i :: 0 <= i < |rows| ==> rows[i].chaveAcesso == rows[0].chaveAcesso
    ensures Grouping(rows) == [Group(rows[0].chaveAcesso, rows)]
  {
    var init := rows[..|rows| - 1];
    if init != [] {
      GroupingSameKey(init);
      assert init + [rows[|rows| - 1]] == rows;
    } else {
      assert rows == [rows[0]];
    }
  }

  /** Rows sharing one key give a single invoice holding their items in row order. */
  lemma GroupedSameKey(rows: seq<CsvRow>)
    requires rows != [] && forall i :: 0 <= i < |rows| ==> rows[i].chaveAcesso == rows[0].chaveAcesso
    ensures |Grouped(rows)| == 1
    ensures Grouped(rows)[0].chaveAcesso == rows[0].chaveAcesso && Grouped(rows)[0].numero == rows[0].numeroNfe
    ensures Grouped(rows)[0].items == RowsToItems(rows)
  {
    GroupingSameKey(rows);
  }

  /** In a grouping, a group's key is found at that group's own position. */
  lemma PositionOfGroup(rows: seq<CsvRow>, p: nat)
    requires p < |Grouping(rows)|
    ensures Position(Grouping(rows), Grouping(rows)[p].key) == p
  {
    GroupingWellGrouped(rows);
  }

  /** `index` maps every key to the position of its group, and nothing else. */
  predicate Indexes(index: map<string, nat>, groups: seq<Group>) {
    && (forall k :: k in index ==> index[k] < |groups| && groups[index[k]].key == k)
    && (forall j :: 0 <= j < |groups| ==> groups[j].key in index)
  }

  /** A row joining its group leaves the index valid. */
  lemma JoinKeepsIndex(index: map<string, nat>, groups: seq<Group>, p: nat, row: CsvRow)
    requires Indexes(index, groups) && p < |groups| && groups[p].key == row.chaveAcesso
    ensures Indexes(index, groups[p := Group(row.chaveAcesso, groups[p].rows + [row])])
  {
  }

  /** A key no group carries is not found. */
  lemma PositionOfAbsent(groups: seq<Group>, k: string)
    requires forall j :: 0 <= j < |groups| ==> groups[j].key != k
    ensures Position(groups, k) == |groups|
  {
  }

  /** A row with a new key opens a group at the end, recorded in the index. */
  lemma OpenExtendsIndex(index: map<string, nat>, groups: seq<Group>, row: CsvRow)
    requires Indexes(index, groups) && row.chaveAcesso !in index
    ensures Indexes(index[row.chaveAcesso := |groups|], groups + [Group(row.chaveAcesso, [row])])
  {
    var k, next := row.chaveAcesso, groups + [Group(row.chaveAcesso, [row])];
    assert forall j :: 0 <= j < |groups| ==> next[j] == groups[j];
  }

  /** One pass over the rows, with a dictionary from access key to the
      position of its group. */
  method CollectGroups(rows: seq<CsvRow>) returns (groups: seq<Group>)
    ensures groups == Grouping(rows)
  {
    groups := [];
    var index: map<string, nat> := map[];
    for i := 0 to |rows|
      invariant groups == Grouping(rows[..i])
      invariant Indexes(index, groups)
    {
      var row := rows[i];
      GroupingSnoc(rows, i);
      if row.chaveAcesso in index {
        var p := index[row.chaveAcesso];
        PositionOfGroup(rows[..i], p);
        JoinKeepsIndex(index, groups, p, row);
        groups := groups[p := Group(row.chaveAcesso, groups[p].rows + [row])];
      } else {
        PositionOfAbsent(groups, row.chaveAcesso);
        OpenExtendsIndex(index, groups, row);
        index := index[row.chaveAcesso := |groups|];
        groups := groups + [Group(row.chaveAcesso, [row])];
      }
    }
    assert rows[..|rows|] == rows;
  }

  /** Groups the rows into invoices: collects each key's rows, then builds
      one invoice per group, in order of first appearance. */
  method GroupRows(rows: seq<CsvRow>) returns (nfes: seq<Invoice>)
    ensures nfes == Grouped(rows)
  {
    var groups := CollectGroups(rows);
    GroupingWellGrouped(rows);
    nfes := [];
    for j := 0 to |groups|
      invariant |nfes| == j
      invariant forall n :: 0 <= n < j ==> nfes[n] == InvoiceOf(groups[n].rows)
    {
      nfes := nfes + [InvoiceOf(groups[j].rows)];
    }
  }

  /** Whether a row leaves the access key empty. */
  predicate KeyMissing(row: CsvRow) {
    row.chaveAcesso == []
  }

  /** Reads a file's header and rows: refuses a header without the required
      columns, then a row without an access key (reporting the first such
      row), and otherwise groups the rows into invoices. */
  method ParseCsv(header: seq<string>, rows: seq<CsvRow>) returns (r: Result<seq<Invoice>, ParseError>)
    ensures CheckRequiredColumns(header).Failure? ==> r == Failure(CheckRequiredColumns(header).error)
    ensures r.Success? <==> CheckRequiredColumns(header).Success? && forall i :: 0 <= i < |rows| ==> !KeyMissing(rows[i])
    ensures r.Success? ==> r.value == Grouped(rows)
    ensures r.Failure? && r.error.EmptyAccessKey? ==>
      && r.error.row < |rows| && KeyMissing(rows[r.error.row])
      && forall j :: 0 <= j < r.error.row ==> !KeyMissing(rows[j])
  {
    var columns := CheckRequiredColumns(header);
    if columns.Failure? {
      return Failure(columns.error);
    }
    for i := 0 to |rows|
      invariant forall j :: 0 <= j < i ==> !KeyMissing(rows[j])
    {
      if KeyMissing(rows[i]) {
        return Failure(EmptyAccessKey(i));
      }
    }
    var nfes := GroupRows(rows);
    return Success(nfes);
  }
}
