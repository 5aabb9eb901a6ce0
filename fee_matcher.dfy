/** The fee matcher of the bitcoin collector: a fee level is looked up in the
    list of fee-range buckets, and the last bucket whose range holds it wins. */
module FeeMatcher {
  import opened Wrappers

  /** One entry of the fee list: a fee range (satoshi per byte) and the wait
      it is expected to take (minutes). */
  datatype Bucket = Bucket(minFee: int, maxFee: int, minMinutes: int, maxMinutes: int)

  /** A bucket matches a fee level when the level lies in its range, both ends included. */
  predicate Matches(b: Bucket, price: int) {
    b.minFee <= price && b.maxFee >= price
  }

  /** The bucket a forward scan that overwrites on every match leaves behind:
      the last matching bucket, or nothing when none matches. */
  function LastMatch(buckets: seq<Bucket>, price: int): (r: Option<Bucket>)
    ensures r.Some? ==> r.value in buckets && Matches(r.value, price)
    ensures r.None? <==> forall b :: b in buckets ==> !Matches(b, price)
  {
    if buckets == [] then None
    else if Matches(buckets[|buckets| - 1], price) then Some(buckets[|buckets| - 1])
    else LastMatch(buckets[..|buckets| - 1], price)
  }

  /** A matching bucket after which no bucket matches is the one chosen. */
  lemma {:induction false} LastMatchIsLast(buckets: seq<Bucket>, price: int, i: int)
    requires 0 <= i < |buckets| && Matches(buckets[i], price)
    requires forall j :: i < j < |buckets| ==> !Matches(buckets[j], price)
    ensures LastMatch(buckets, price) == Some(buckets[i])
  {
    if i < |buckets| - 1 {
      var init := buckets[..|buckets| - 1];
      assert init[i] == buckets[i];
      forall j | i < j < |init| ensures !Matches(init[j], price) {
        assert init[j] == buckets[j];
      }
      LastMatchIsLast(init, price, i);
    }
  }

  /** Conversely, the chosen bucket sits at a position after which no bucket matches. */
  lemma {:induction false} LastMatchHasNoLaterMatch(buckets: seq<Bucket>, price: int)
    requires LastMatch(buckets, price).Some?
    ensures exists i :: 0 <= i < |buckets| && buckets[i] == LastMatch(buckets, price).value &&
                        (forall j :: i < j < |buckets| ==> !Matches(buckets[j], price))
  {
    var n := |buckets|;
    if !Matches(buckets[n - 1], price) {
      var init := buckets[..n - 1];
      LastMatchHasNoLaterMatch(init, price);
      var i :| 0 <= i < |init| && init[i] == LastMatch(init, price).value &&
               (forall j :: i < j < |init| ==> !Matches(init[j], price));
      assert buckets[i] == init[i];
      forall j | i < j < n ensures !Matches(buckets[j], price) {
        if j < n - 1 { assert buckets[j] == init[j]; }
      }
    } else {
      assert buckets[n - 1] == LastMatch(buckets, price).value;
    }
  }

  /** Buckets that do not match, appended after the others, never change the choice. */
  lemma {:induction false} LastMatchIgnoresLaterMisses(buckets: seq<Bucket>, later: seq<Bucket>, price: int)
    requires forall b :: b in later ==> !Matches(b, price)
    ensures LastMatch(buckets + later, price) == LastMatch(buckets, price)
  {
    if later != [] {
      var all := buckets + later;
      assert all[|all| - 1] == later[|later| - 1];
      assert all[..|all| - 1] == buckets + later[..|later| - 1];
      LastMatchIgnoresLaterMisses(buckets, later[..|later| - 1], price);
    } else {
      assert buckets + later == buckets;
    }
  }

  /** Overlapping ranges [10, 50] and [40, 100] and fee level 45: the second,
      listed last, is chosen. */
  lemma LastMatchOverlapExample()
    ensures LastMatch([Bucket(10, 50, 0, 30), Bucket(40, 100, 30, 60)], 45) ==
      Some(Bucket(40, 100, 30, 60))
  {
    LastMatchIsLast([Bucket(10, 50, 0, 30), Bucket(40, 100, 30, 60)], 45, 1);
  }
}
