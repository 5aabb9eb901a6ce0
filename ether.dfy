/** The ether fee table answered to any text message: four gas tiers, each
    with its price, its expected wait and a USD estimate for a plain transfer. */
module Ether {
  import opened Replies
  import opened Snapshots

  /** The four gas tiers, in the order the table visits them. */
  datatype Tier = SafeLow | Average | Fast | Fastest

  const Tiers: seq<Tier> := [SafeLow, Average, Fast, Fastest]

  /** The stored ether attributes the table reads. Gas prices are stored as
      ten times their value in Gwei; waits are in (fractional) minutes. */
  datatype EtherInfo = EtherInfo(
    etherPrice: real, blockNum: int, speed: real,
    safeLow: real, average: real, fast: real, fastest: real,
    safeLowWait: real, avgWait: real, fastWait: real, fastestWait: real)

  /** The stored gas price of a tier. */
  function PriceOf(info: EtherInfo, t: Tier): real {
    match t
    case SafeLow => info.safeLow
    case Average => info.average
    case Fast => info.fast
    case Fastest => info.fastest
  }

  /** The stored wait of a tier: `safeLowWait`, `avgWait`, `fastWait`, `fastestWait`. */
  function WaitOf(info: EtherInfo, t: Tier): real {
    match t
    case SafeLow => info.safeLowWait
    case Average => info.avgWait
    case Fast => info.fastWait
    case Fastest => info.fastestWait
  }

  function TypeName(t: Tier): string {
    match t
    case SafeLow => "Low"
    case Average => "Normal"
    case Fast => "Fast"
    case Fastest => "Fastest"
  }

  /** A wait under a minute shown in whole seconds, truncated. */
  function WaitSeconds(waitMinutes: real): (s: int)
    ensures s as real <= waitMinutes * 60.0 < s as real + 1.0
    ensures 0.0 <= waitMinutes < 1.0 ==> 0 <= s <= 59
  {
    (waitMinutes * 60.0).Floor
  }

  /** The wait cell: `w m` from one minute up, `s s` below, with a hard cutoff at 1.0. */
  function WaitCell(waitMinutes: real, render: real -> string): string {
    if waitMinutes >= 1.0 then render(waitMinutes) + " m"
    else render(WaitSeconds(waitMinutes) as real) + " s"
  }

  /** The cell ends in minutes exactly when the wait is at least one minute. */
  lemma WaitCellUnit(waitMinutes: real, render: real -> string)
    ensures var c := WaitCell(waitMinutes, render);
            |c| >= 2 && (c[|c| - 2..] == " m" <==> waitMinutes >= 1.0)
  {
  }

  /** 0.5 minutes shows as 30 seconds; 1.0 and 2.5 show as minutes. */
  lemma WaitCellExamples(render: real -> string)
    ensures WaitCell(0.5, render) == render(30.0) + " s"
    ensures WaitCell(1.0, render) == render(1.0) + " m"
    ensures WaitCell(2.5, render) == render(2.5) + " m"
  {
  }

  /** The USD cell's number: 21000 gas times the stored gas price times the
      ether price, scaled down by 10^7, truncated, then divided by 1000. Since
      the stored price is ten times the Gwei price, this is the transfer's cost
      in USD (21000 * price * etherPrice / 10^10) truncated down to a thousandth. */
  function UsdEstimate(storedPrice: real, etherPrice: real): (usd: real)
    ensures usd <= 21000.0 * storedPrice * etherPrice / 10000000000.0 < usd + 0.001
    ensures (usd * 1000.0).Floor as real == usd * 1000.0
  {
    (21000.0 * storedPrice * etherPrice / 10000000.0).Floor as real / 1000.0
  }

  /** One table row: label, price in Gwei (the stored value over 10), wait, USD estimate. */
  function Row(info: EtherInfo, t: Tier, render: real -> string): seq<string> {
    [ TypeName(t),
      render(PriceOf(info, t) / 10.0) + " Gwei",
      WaitCell(WaitOf(info, t), render),
      render(UsdEstimate(PriceOf(info, t), info.etherPrice)) + " $" ]
  }

  /** The rows of the first `n` tiers. */
  function RowsUpTo(info: EtherInfo, n: nat, render: real -> string): seq<string>
    requires n <= |Tiers|
  {
    if n == 0 then [] else RowsUpTo(info, n - 1, render) + Row(info, Tiers[n - 1], render)
  }

  /** The whole table, row-major: the header, then the rows of the four tiers. */
  function Table(info: EtherInfo, render: real -> string): seq<string> {
    TableHeader + Row(info, SafeLow, render) + Row(info, Average, render) +
    Row(info, Fast, render) + Row(info, Fastest, render)
  }

  /** The table has 20 cells; cell `4 + 4 * k + j` is column `j` of the row of the `k`-th tier. */
  lemma TableLayout(info: EtherInfo, render: real -> string, k: int, j: int)
    requires 0 <= k < |Tiers| && 0 <= j < Columns
    ensures |Table(info, render)| == 20
    ensures Table(info, render)[..4] == TableHeader
    ensures Table(info, render)[Columns + Columns * k + j] == Row(info, Tiers[k], render)[j]
  {
  }

  /** Builds the table cell by cell, one row per tier in order. */
  method BuildTable(info: EtherInfo, render: real -> string) returns (cells: seq<string>)
    ensures cells == Table(info, render)
  {
    cells := [];
    cells := cells + TableHeader;
    for i := 0 to |Tiers|
      invariant cells == TableHeader + RowsUpTo(info, i, render)
    {
      var t := Tiers[i];
      cells := cells + [TypeName(t)];
      cells := cells + [render(PriceOf(info, t) / 10.0) + " Gwei"];
      var wait := WaitOf(info, t);
      cells := cells + [if wait >= 1.0 then render(wait) + " m" else render(WaitSeconds(wait) as real) + " s"];
      var usd := UsdEstimate(PriceOf(info, t), info.etherPrice);
      cells := cells + [render(usd) + " $"];
      assert RowsUpTo(info, i + 1, render) == RowsUpTo(info, i, render) + Row(info, t, render);
    }
    assert RowsUpTo(info, 1, render) == Row(info, SafeLow, render);
    assert RowsUpTo(info, 2, render) == Row(info, SafeLow, render) + Row(info, Average, render);
    assert RowsUpTo(info, 3, render) ==
      Row(info, SafeLow, render) + Row(info, Average, render) + Row(info, Fast, render);
  }

  /** The reply's text: the block number and the load as a truncated percentage. */
  function HeaderText(info: EtherInfo, render: real -> string): string {
    "Data is actual for block #" + render(info.blockNum as real) +
    ". Blockchain load: " + render((info.speed * 100.0).Floor as real) + "%"
  }

  /** The text handler: "Data not found" when no record of today is under six
      minutes old, otherwise the table of the first such record. */
  method HandleText(table: seq<Item<EtherInfo>>, today: int, now: int, render: real -> string)
    returns (reply: Reply)
    ensures reply == Message(NotFoundText) <==> forall x :: x in table ==> !Fresh(x, today, now)
    ensures FindSnapshot(table, today, now).Some? ==>
              var info := FindSnapshot(table, today, now).value.data;
              reply == Keyboard(HeaderText(info, render), Table(info, render))
  {
    var found := FindSnapshot(table, today, now);
    if found.None? {
      return Message(NotFoundText);
    }
    var cells := BuildTable(found.value.data, render);
    reply := Keyboard(HeaderText(found.value.data, render), cells);
  }
}
