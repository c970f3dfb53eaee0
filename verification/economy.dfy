/**
 The upgrade economy: the atomic check-and-deduct purchase shared by the
 upgrade panel buttons and the "buy attack" shortcut, and the cumulative gold
 that a run of purchases spends.
 */
module Economy {
  import opened Balance

  /** The gold balance together with the persistent upgrade levels. */
  datatype Purse = Purse(gold: int, levels: Upgrades)

  /** True when the purse can pay for the next level of `k`. */
  predicate CanAfford(p: Purse, k: Kind) {
    p.gold >= Cost(k, p.levels.Level(k))
  }

  /**
   One purchase attempt: if the gold covers the cost of the next level it is
   deducted and only that kind's level rises by one; otherwise nothing changes.
   */
  function Purchase(p: Purse, k: Kind): (r: Purse)
    ensures CanAfford(p, k) ==> r.gold == p.gold - Cost(k, p.levels.Level(k))
    ensures CanAfford(p, k) ==> r.levels.Level(k) == p.levels.Level(k) + 1
    ensures CanAfford(p, k) ==> forall j :: j != k ==> r.levels.Level(j) == p.levels.Level(j)
    ensures !CanAfford(p, k) ==> r == p
    ensures p.gold >= 0 ==> r.gold >= 0
    ensures r.gold <= p.gold
  {
    var c := Cost(k, p.levels.Level(k));
    if p.gold >= c then Purse(p.gold - c, p.levels.Bump(k)) else p
  }

  /** A purchase succeeds exactly when it changes the purse. */
  lemma PurchaseAllOrNothing(p: Purse, k: Kind)
    ensures Purchase(p, k) != p <==> CanAfford(p, k)
    ensures Purchase(p, k).gold < p.gold <==> CanAfford(p, k)
  {
    if CanAfford(p, k) {
      assert Purchase(p, k).levels.Level(k) != p.levels.Level(k);
    }
  }

  /** Gold needed to buy `n` consecutive levels of `k` starting at level `from`. */
  function TotalCost(k: Kind, from: nat, n: nat): nat
    decreases n
  {
    if n == 0 then 0 else Cost(k, from) + TotalCost(k, from + 1, n - 1)
  }

  /** Buying one more level at the top of a run adds that level's cost. */
  lemma {:induction false} TotalCostSnoc(k: Kind, from: nat, n: nat)
    ensures TotalCost(k, from, n + 1) == TotalCost(k, from, n) + Cost(k, from + n)
    decreases n
  {
    if n > 0 {
      TotalCostSnoc(k, from + 1, n - 1);
    }
  }

  /** Reaching level `n` from nothing costs `base * n * (n + 1) / 2` gold. */
  lemma {:induction false} TotalCostClosedForm(k: Kind, n: nat)
    ensures 2 * TotalCost(k, 0, n) == CostBase(k) * n * (n + 1)
    decreases n
  {
    if n > 0 {
      var b := CostBase(k);
      TotalCostClosedForm(k, n - 1);
      TotalCostSnoc(k, 0, n - 1);
      assert Cost(k, n - 1) == b * n;
      SumStep(b, n);
    }
  }

  lemma SumStep(b: int, n: int)
    ensures b * (n - 1) * n + 2 * (b * n) == b * n * (n + 1)
  {
    var m := b * n;
    assert b * (n - 1) * n == m * (n - 1);
    assert m * (n - 1) + 2 * m == m * (n + 1);
  }

  /** Full (100%) armor, level 50, costs 153000 gold in total. */
  lemma FullArmorPrice()
    ensures TotalCost(Armor, 0, 50) == 153000
    ensures DeriveStats(NoUpgrades.(armor := 50)).armorPct == 1.0
  {
    TotalCostClosedForm(Armor, 50);
  }

  /** Gold spent to raise the level of `k` in `a` to its level in `b`. */
  function KindSpent(a: Upgrades, b: Upgrades, k: Kind): nat
    requires a.Level(k) <= b.Level(k)
  {
    TotalCost(k, a.Level(k), b.Level(k) - a.Level(k))
  }

  /** Gold spent to raise every level of `a` to the corresponding level of `b`. */
  function Spent(a: Upgrades, b: Upgrades): nat
    requires a.AtMost(b)
  {
    KindSpent(a, b, Attack) + KindSpent(a, b, FireRate) + KindSpent(a, b, MaxHp)
    + KindSpent(a, b, Armor) + KindSpent(a, b, Speed) + KindSpent(a, b, Drones)
  }

  /** A run of purchase attempts, in order. */
  function PurchaseAll(p: Purse, ks: seq<Kind>): Purse
    decreases |ks|
  {
    if |ks| == 0 then p else PurchaseAll(Purchase(p, ks[0]), ks[1..])
  }

  /** The value of one successful purchase is exactly the cost of the level bought. */
  lemma SpentAfterOne(a: Upgrades, b: Upgrades, k: Kind)
    requires a.AtMost(b)
    ensures a.AtMost(b.Bump(k))
    ensures Spent(a, b.Bump(k)) == Spent(a, b) + Cost(k, b.Level(k))
  {
    KindSpentBump(a, b, k, Attack);
    KindSpentBump(a, b, k, FireRate);
    KindSpentBump(a, b, k, MaxHp);
    KindSpentBump(a, b, k, Armor);
    KindSpentBump(a, b, k, Speed);
    KindSpentBump(a, b, k, Drones);
  }

  /** Bumping `k` adds the cost of the new level to the spending on `k` and leaves every other kind alone. */
  lemma KindSpentBump(a: Upgrades, b: Upgrades, k: Kind, j: Kind)
    requires a.Level(j) <= b.Level(j)
    ensures a.Level(j) <= b.Bump(k).Level(j)
    ensures KindSpent(a, b.Bump(k), j) == KindSpent(a, b, j) + (if j == k then Cost(k, b.Level(k)) else 0)
  {
    if j == k {
      TotalCostSnoc(k, a.Level(k), b.Level(k) - a.Level(k));
    }
  }

  /**
   Conservation: after any run of purchase attempts, the gold left plus the
   cost of every level gained equals the gold at the start, and levels only rise.
   */
  lemma {:induction false} PurchaseAllConserves(p: Purse, ks: seq<Kind>)
    ensures p.levels.AtMost(PurchaseAll(p, ks).levels)
    ensures PurchaseAll(p, ks).gold + Spent(p.levels, PurchaseAll(p, ks).levels) == p.gold
    ensures p.gold >= 0 ==> PurchaseAll(p, ks).gold >= 0
    decreases |ks|
  {
    if |ks| == 0 {
      assert p.levels.AtMost(p.levels);
    } else {
      var q := Purchase(p, ks[0]);
      PurchaseAllConserves(q, ks[1..]);
      var r := PurchaseAll(q, ks[1..]);
      assert r == PurchaseAll(p, ks);
      if CanAfford(p, ks[0]) {
        assert q.levels == p.levels.Bump(ks[0]);
        SpentAfterOne(p.levels, p.levels, ks[0]);
        assert Spent(p.levels, p.levels) == 0;
        SpentChain(p.levels, q.levels, r.levels);
      } else {
        assert q == p;
      }
    }
  }

  /** Spending is additive along a chain of level increases. */
  lemma SpentChain(a: Upgrades, b: Upgrades, c: Upgrades)
    requires a.AtMost(b) && b.AtMost(c)
    ensures a.AtMost(c)
    ensures Spent(a, c) == Spent(a, b) + Spent(b, c)
  {
    forall k | true
      ensures KindSpent(a, c, k) == KindSpent(a, b, k) + KindSpent(b, c, k)
    {
      TotalCostSplit(k, a.Level(k), b.Level(k) - a.Level(k), c.Level(k) - b.Level(k));
    }
  }

  /** A run of levels splits into its first `m` levels and the `n` after them. */
  lemma {:induction false} TotalCostSplit(k: Kind, from: nat, m: nat, n: nat)
    ensures TotalCost(k, from, m + n) == TotalCost(k, from, m) + TotalCost(k, from + m, n)
    decreases m
  {
    if m > 0 {
      TotalCostSplit(k, from + 1, m - 1, n);
      assert m + n - 1 == (m - 1) + n;
    }
  }
}
