/** The bitcoin pipeline: the collector that resolves each fee tier's wait
    time and assembles the record to store, and the `btc` command that turns
    a fresh record into a fee table. */
module Bitcoin {
  import opened Wrappers
  import opened Replies
  import opened Snapshots
  import opened FeeMatcher

  /** The three fee tiers, in the order the collector and the table visit them. */
  datatype Tier = Low | Normal | Fast

  const Tiers: seq<Tier> := [Low, Normal, Fast]

  /** The position of a tier in `Tiers`. */
  function Index(t: Tier): (i: nat)
    ensures i < |Tiers| && Tiers[i] == t
  {
    match t
    case Low => 0
    case Normal => 1
    case Fast => 2
  }

  /** The recommended fee levels (satoshi per byte) the collector reads. */
  datatype RecommendedFees = RecommendedFees(fastestFee: int, halfHourFee: int, hourFee: int)

  /** Each tier takes its fee level from one recommended fee. */
  function FeeFor(fees: RecommendedFees, t: Tier): int {
    match t
    case Low => fees.hourFee
    case Normal => fees.halfHourFee
    case Fast => fees.fastestFee
  }

  /** What the record keeps per tier: its fee level and its matched wait range. */
  datatype TierFee = TierFee(price: int, minMinutes: int, maxMinutes: int)

  /** The stored bitcoin attributes besides the keys. */
  datatype BtcInfo = BtcInfo(btcPrice: real, low: TierFee, normal: TierFee, fast: TierFee)

  function TierOf(info: BtcInfo, t: Tier): TierFee {
    match t
    case Low => info.low
    case Normal => info.normal
    case Fast => info.fast
  }

  /** Record assembly reads the wait range of a tier that matched no bucket. */
  datatype CollectError = MissingWaitTime(tier: Tier)

  function WaitTimeOf(waitTimes: map<Tier, Bucket>, t: Tier): Option<Bucket> {
    if t in waitTimes then Some(waitTimes[t]) else None
  }

  /** One full scan of the bucket list per tier; every match overwrites the
      tier's entry, so each tier ends with its last matching bucket, and a
      tier that matched nothing has no entry. */
  method MatchWaitTimes(fees: RecommendedFees, feesList: seq<Bucket>) returns (waitTimes: map<Tier, Bucket>)
    ensures forall t :: WaitTimeOf(waitTimes, t) == LastMatch(feesList, FeeFor(fees, t))
  {
    waitTimes := map[];
    for i := 0 to |Tiers|
      invariant forall t :: Index(t) < i ==> WaitTimeOf(waitTimes, t) == LastMatch(feesList, FeeFor(fees, t))
      invariant forall t :: Index(t) >= i ==> t !in waitTimes
    {
      var t := Tiers[i];
      var price := FeeFor(fees, t);
      for j := 0 to |feesList|
        invariant forall u :: Index(u) < i ==> WaitTimeOf(waitTimes, u) == LastMatch(feesList, FeeFor(fees, u))
        invariant forall u :: Index(u) > i ==> u !in waitTimes
        invariant WaitTimeOf(waitTimes, t) == LastMatch(feesList[..j], price)
      {
        var fee := feesList[j];
        if fee.minFee <= price && fee.maxFee >= price {
          waitTimes := waitTimes[t := fee];
        }
        assert feesList[..j + 1][..j] == feesList[..j];
      }
      assert feesList[..|feesList|] == feesList;
    }
  }

  /** Fills the record tier by tier with the tier's fee level and its wait
      range; the first tier without a wait range makes assembly fail. */
  method AssembleRecord(day: int, created: int, btcPrice: real, fees: RecommendedFees,
                        waitTimes: map<Tier, Bucket>)
    returns (r: Result<Item<BtcInfo>, CollectError>)
    ensures r.Success? <==> forall t :: t in waitTimes
    ensures r.Failure? ==>
              r.error.tier !in waitTimes &&
              forall t :: Index(t) < Index(r.error.tier) ==> t in waitTimes
    ensures r.Success? ==>
      r.value.day == day && r.value.created == created && r.value.data.btcPrice == btcPrice &&
      forall t :: t in waitTimes && TierOf(r.value.data, t) ==
        TierFee(FeeFor(fees, t), waitTimes[t].minMinutes, waitTimes[t].maxMinutes)
  {
    var toInsert: map<Tier, TierFee> := map[];
    for i := 0 to |Tiers|
      invariant forall t :: t in toInsert <==> Index(t) < i
      invariant forall t :: Index(t) < i ==>
                  t in waitTimes &&
                  toInsert[t] == TierFee(FeeFor(fees, t), waitTimes[t].minMinutes, waitTimes[t].maxMinutes)
    {
      var t := Tiers[i];
      if t !in waitTimes {
        return Failure(MissingWaitTime(t));
      }
      toInsert := toInsert[t := TierFee(FeeFor(fees, t), waitTimes[t].minMinutes, waitTimes[t].maxMinutes)];
    }
    var info := BtcInfo(btcPrice, toInsert[Low], toInsert[Normal], toInsert[Fast]);
    assert forall t :: TierOf(info, t) == toInsert[t];
    r := Success(Item(day, created, info));
  }

  /** The tier record the collector stores for one tier when some bucket matches its fee level. */
  function MatchedTier(fees: RecommendedFees, feesList: seq<Bucket>, t: Tier): Option<TierFee> {
    match LastMatch(feesList, FeeFor(fees, t))
    case None => None
    case Some(b) => Some(TierFee(FeeFor(fees, t), b.minMinutes, b.maxMinutes))
  }

  /** The collector's computation after its fetches: wait times per tier, then
      the record. It succeeds exactly when every tier's fee level falls in some
      bucket; a tier without one is not skipped but fails the whole run. */
  method CollectSnapshot(day: int, created: int, btcPrice: real, fees: RecommendedFees, feesList: seq<Bucket>)
    returns (r: Result<Item<BtcInfo>, CollectError>)
    ensures r.Success? <==> forall t :: MatchedTier(fees, feesList, t).Some?
    ensures r.Failure? ==>
              MatchedTier(fees, feesList, r.error.tier).None? &&
              forall t :: Index(t) < Index(r.error.tier) ==> MatchedTier(fees, feesList, t).Some?
    ensures r.Success? ==>
              r.value.day == day && r.value.created == created && r.value.data.btcPrice == btcPrice &&
              forall t :: MatchedTier(fees, feesList, t) == Some(TierOf(r.value.data, t))
  {
    var waitTimes := MatchWaitTimes(fees, feesList);
    r := AssembleRecord(day, created, btcPrice, fees, waitTimes);
    assert forall t :: t in waitTimes <==> MatchedTier(fees, feesList, t).Some? by {
      forall t ensures t in waitTimes <==> MatchedTier(fees, feesList, t).Some? {
        assert WaitTimeOf(waitTimes, t) == LastMatch(feesList, FeeFor(fees, t));
      }
    }
    if r.Success? {
      forall t ensures MatchedTier(fees, feesList, t) == Some(TierOf(r.value.data, t)) {
        assert WaitTimeOf(waitTimes, t) == LastMatch(feesList, FeeFor(fees, t));
      }
    }
  }

  /** The fee label of each tier in the table. */
  function TypeName(t: Tier): string {
    match t
    case Low => "Low"
    case Normal => "Normal"
    case Fast => "Fast"
  }

  /** The USD cell's number for a fee level: 226 times the fee level,
      scaled down by 10^3, truncated, then divided by 10. The result is a whole
      number of tenths and is the value 226 * fee / 10^4 truncated down to a
      tenth. The stored bitcoin price plays no part. */
  function UsdEstimate(satoshiPerByte: int): (usd: real)
    ensures usd <= (226 * satoshiPerByte) as real / 10000.0 < usd + 0.1
    ensures (usd * 10.0).Floor as real == usd * 10.0
  {
    ((226 * satoshiPerByte) as real / 1000.0).Floor as real / 10.0
  }

  /** With integer fee levels the truncation is exact integer division. */
  lemma UsdEstimateIsIntegerDivision(satoshiPerByte: int)
    ensures UsdEstimate(satoshiPerByte) == ((226 * satoshiPerByte) / 1000) as real / 10.0
  {
    var x := (226 * satoshiPerByte) as real / 1000.0;
    var q := (226 * satoshiPerByte) / 1000;
    assert q as real <= x < q as real + 1.0;
    assert x.Floor == q;
  }

  /** 226 * 100 = 22600; 22600 / 1000 = 22.6; truncated, 22; divided by 10, 2.2. */
  lemma UsdEstimateExample()
    ensures UsdEstimate(100) == 2.2
  {
    UsdEstimateIsIntegerDivision(100);
  }

  /** One table row: label, fee level, wait range `min-max m`, USD estimate `x $`.
      `render` is the number-to-text conversion of a template literal. */
  function Row(info: BtcInfo, t: Tier, render: real -> string): seq<string> {
    var tf := TierOf(info, t);
    [ TypeName(t),
      render(tf.price as real),
      render(tf.minMinutes as real) + "-" + render(tf.maxMinutes as real) + " m",
      render(UsdEstimate(tf.price)) + " $" ]
  }

  /** The whole table, row-major: the header, then the rows of `Low`, `Normal`, `Fast`. */
  function Table(info: BtcInfo, render: real -> string): seq<string> {
    TableHeader + Row(info, Low, render) + Row(info, Normal, render) + Row(info, Fast, render)
  }

  /** The table has 16 cells; cell `4 + 4 * k + j` is column `j` of the row of
      the `k`-th tier, so every grid line of 4 columns is exactly one row. */
  lemma TableLayout(info: BtcInfo, render: real -> string, k: int, j: int)
    requires 0 <= k < |Tiers| && 0 <= j < Columns
    ensures |Table(info, render)| == 16
    ensures Table(info, render)[..4] == TableHeader
    ensures Table(info, render)[Columns + Columns * k + j] == Row(info, Tiers[k], render)[j]
  {
  }

  /** The stored bitcoin price does not reach the table. */
  lemma TableIgnoresBtcPrice(info: BtcInfo, otherPrice: real, render: real -> string)
    ensures Table(info.(btcPrice := otherPrice), render) == Table(info, render)
  {
  }

  /** Builds the table cell by cell, one row per tier in order. */
  method BuildTable(info: BtcInfo, render: real -> string) returns (cells: seq<string>)
    ensures cells == Table(info, render)
  {
    cells := [];
    cells := cells + TableHeader;
    for i := 0 to |Tiers|
      invariant cells == TableHeader + RowsUpTo(info, i, render)
    {
      var t := Tiers[i];
      var tf := TierOf(info, t);
      cells := cells + [TypeName(t)];
      cells := cells + [render(tf.price as real)];
      cells := cells + [render(tf.minMinutes as real) + "-" + render(tf.maxMinutes as real) + " m"];
      var usd := UsdEstimate(tf.price);
      cells := cells + [render(usd) + " $"];
      assert RowsUpTo(info, i + 1, render) == RowsUpTo(info, i, render) + Row(info, t, render);
    }
    assert RowsUpTo(info, 1, render) == Row(info, Low, render);
    assert RowsUpTo(info, 2, render) == Row(info, Low, render) + Row(info, Normal, render);
    assert RowsUpTo(info, 3, render) == Row(info, Low, render) + Row(info, Normal, render) + Row(info, Fast, render);
  }

  /** The rows of the first `n` tiers. */
  function RowsUpTo(info: BtcInfo, n: nat, render: real -> string): seq<string>
    requires n <= |Tiers|
  {
    if n == 0 then [] else RowsUpTo(info, n - 1, render) + Row(info, Tiers[n - 1], render)
  }

  /** The `btc` command: "Data not found" when no record of today is under six
      minutes old, otherwise the table of the first such record. */
  method HandleBtcCommand(table: seq<Item<BtcInfo>>, today: int, now: int, render: real -> string)
    returns (reply: Reply)
    ensures reply == Message(NotFoundText) <==> forall x :: x in table ==> !Fresh(x, today, now)
    ensures FindSnapshot(table, today, now).Some? ==>
              reply == Keyboard("Bitcoin network fees:", Table(FindSnapshot(table, today, now).value.data, render))
  {
    var found := FindSnapshot(table, today, now);
    if found.None? {
      return Message(NotFoundText);
    }
    var cells := BuildTable(found.value.data, render);
    reply := Keyboard("Bitcoin network fees:", cells);
  }
}
