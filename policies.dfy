/**
 * The two default strategies shipped beside the pipeline: the simple
 * item revenue and the rank-based bonus rate.
 */
module Policies {
  import opened SalesTypes

  /** Revenue of one item after its percentage discount. */
  function SimpleRevenue(item: Item): (revenue: real)
    // no discount: the full sale price of every unit
    ensures item.discount == 0.0 ==> revenue == item.quantity as real * item.sale_price
    // a full discount: nothing
    ensures item.discount == 100.0 ==> revenue == 0.0
  {
    var discount := 1.0 - item.discount / 100.0;
    discount * item.quantity as real * item.sale_price
  }

  /**
   * With a discount between 0 and 100 percent and non-negative quantity and
   * price, the revenue lies between nothing and the undiscounted amount.
   */
  lemma SimpleRevenueBounds(item: Item)
    requires 0.0 <= item.discount <= 100.0
    requires item.quantity >= 0 && item.sale_price >= 0.0
    ensures 0.0 <= SimpleRevenue(item) <= item.quantity as real * item.sale_price
  {
    var gross := item.quantity as real * item.sale_price;
    var factor := 1.0 - item.discount / 100.0;
    assert 0.0 <= factor <= 1.0;
    assert gross >= 0.0;
    assert SimpleRevenue(item) == factor * gross;
    assert factor * gross <= 1.0 * gross;
  }

  /**
   * The bonus RATE for the seller at rank `index` (0 is the highest profit)
   * out of `total` sellers. The cases are tried in order, so the first
   * three places win over the last-place case: with one seller the last
   * place is rank 0 and gets 0.15, with two or three it gets 0.10.
   */
  function BonusByProfit(index: nat, total: nat, seller: SellerStats): (rate: real)
    ensures 0.0 <= rate <= 0.15
    ensures index == 0 ==> rate == 0.15
    ensures index == 1 || index == 2 ==> rate == 0.10
    ensures index >= 3 && index == total - 1 ==> rate == 0.00
    ensures index >= 3 && index != total - 1 ==> rate == 0.05
  {
    if index == 0 then 0.15
    else if index == 1 || index == 2 then 0.10
    else if index == total - 1 then 0.00
    else 0.05
  }

  /** A better rank never earns a lower rate. */
  lemma BonusRateNonIncreasing(i: nat, j: nat, total: nat, s: SellerStats, t: SellerStats)
    requires i <= j < total
    ensures BonusByProfit(i, total, s) >= BonusByProfit(j, total, t)
  {
  }

  /** The rate of the last place depends on how many sellers there are. */
  lemma LastPlaceRate(total: nat, s: SellerStats)
    requires total >= 1
    ensures BonusByProfit(total - 1, total, s) ==
              if total == 1 then 0.15 else if total <= 3 then 0.10 else 0.00
  {
  }

  /** Ranks strictly between the third and the last place earn 0.05. */
  lemma MiddleRankRate(index: nat, total: nat, s: SellerStats)
    requires 3 <= index < total - 1
    ensures BonusByProfit(index, total, s) == 0.05
  {
  }

  /**
   * The bonus the default policy evidently means: an amount, the rank's
   * rate applied to the seller's profit, with the last place earning
   * nothing unless it is also the first.
   */
  function IntendedBonus(index: nat, total: nat, seller: SellerStats): (bonus: real)
    ensures index == 0 ==> bonus == 0.15 * seller.profit
    ensures 0 < index == total - 1 ==> bonus == 0.0
    ensures 0 < index < 3 && index != total - 1 ==> bonus == 0.10 * seller.profit
    ensures seller.profit >= 0.0 ==> 0.0 <= bonus <= 0.15 * seller.profit
  {
    var rate := if index == 0 then 0.15
                else if index == total - 1 then 0.00
                else if index == 1 || index == 2 then 0.10
                else 0.05;
    rate * seller.profit
  }

  /**
   * The intended bonus is the coded rate times the profit everywhere
   * except at a last place of rank 1 or 2, where the code's rate is 0.10.
   */
  lemma IntendedBonusVersusRate(index: nat, total: nat, s: SellerStats)
    ensures !(0 < index == total - 1 && index < 3) ==> IntendedBonus(index, total, s) == BonusByProfit(index, total, s) * s.profit
    ensures 0 < index == total - 1 && index < 3 ==> IntendedBonus(index, total, s) == 0.0 && BonusByProfit(index, total, s) == 0.10
  {
  }
}
