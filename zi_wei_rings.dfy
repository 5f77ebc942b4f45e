/** The twelve-spirit rings of Zi Wei Dou Shu: Chang Sheng, Bo Shi, Sui Qian
  * and Jiang Qian. Each ring lays a fixed order of twelve spirits around the
  * twelve palaces, from a starting palace, forward or backward. */
module ZiWeiRings {
  import opened GanZhi
  import opened ZiWeiStar

  // ---------------------------------------------------------------------
  // Laying an order of twelve around the palaces

  /** The palace of the `i`-th spirit: `fix_index(start ± i)`. */
  function Slot(start: int, forward: bool, i: int): Palace
  {
    if forward then FixIndex(start + i) else FixIndex(start - i)
  }

  /** Which spirit lands on palace `p`: the inverse of `Slot`. */
  function Step(start: int, forward: bool, p: Palace): (i: nat)
    ensures i < 12 && Slot(start, forward, i) == p
  {
    if forward then
      FixIndexAdd(p - start, start);
      FixIndex(p - start)
    else
      BackDistance(start, p);
      FixIndex(start - p)
  }

  /** Every spirit's palace leads back to that spirit. */
  lemma StepSlot(start: int, forward: bool, i: int)
    requires 0 <= i < 12
    ensures Step(start, forward, Slot(start, forward, i)) == i
  {
    if forward {
      AheadDistance(start, i);
    } else {
      BackDistance(start, i);
    }
  }

  /** No two spirits share a palace. */
  lemma SlotInjective(start: int, forward: bool, i: int, k: int)
    requires 0 <= i < 12 && 0 <= k < 12 && Slot(start, forward, i) == Slot(start, forward, k)
    ensures i == k
  {
    StepSlot(start, forward, i);
    StepSlot(start, forward, k);
  }

  /** The ring as a sequence over the palaces 0..11. */
  function Arranged<T>(start: int, forward: bool, order: seq<T>): (r: seq<T>)
    requires |order| == 12
    ensures |r| == 12
  {
    seq(12, p requires 0 <= p < 12 => order[Step(start, forward, p)])
  }

  /** Each spirit of the order sits on its own palace; in particular the first
    * sits on the starting palace. */
  lemma ArrangedAt<T>(start: int, forward: bool, order: seq<T>, i: int)
    requires |order| == 12 && 0 <= i < 12
    ensures Arranged(start, forward, order)[Slot(start, forward, i)] == order[i]
  {
    StepSlot(start, forward, i);
  }

  /** The first spirit sits on the (normalised) starting palace. */
  lemma ArrangedStart<T>(start: int, forward: bool, order: seq<T>)
    requires |order| == 12
    ensures Arranged(start, forward, order)[FixIndex(start)] == order[0]
  {
    ArrangedAt(start, forward, order, 0);
  }

  /** Going forward, palace `p` holds the spirit `p - start` places on, with
    * one whole turn added below the start. */
  lemma StepForward(start: int, p: Palace)
    ensures Step(start, true, p) == if p < FixIndex(start) then p - FixIndex(start) + 12 else p - FixIndex(start)
  {
    var s := FixIndex(start);
    if p < s {
      DivMod12(p - start, (p - start) / 12, p - s + 12);
      FixIndexAdd(start, p - start);
    } else {
      DivMod12(p - start, (p - start) / 12, p - s);
      FixIndexAdd(start, p - start);
    }
  }

  /** A forward ring is a rotation of the order. */
  lemma ArrangedForwardRotates<T>(start: int, order: seq<T>)
    requires |order| == 12
    ensures var r := 12 - FixIndex(start);
      Arranged(start, true, order) == order[r..] + order[..r]
  {
    var r := 12 - FixIndex(start);
    var a := Arranged(start, true, order);
    var b := order[r..] + order[..r];
    forall p | 0 <= p < 12
      ensures a[p] == b[p]
    {
      StepForward(start, p);
    }
  }

  /** The order read backwards. */
  function Reverse<T>(s: seq<T>): (r: seq<T>)
    ensures |r| == |s|
  {
    seq(|s|, i requires 0 <= i < |s| => s[|s| - 1 - i])
  }

  /** Reversing keeps every element and its multiplicity. */
  lemma {:induction false} ReversePermutes<T>(s: seq<T>)
    ensures multiset(Reverse(s)) == multiset(s)
  {
    if |s| > 0 {
      var n := |s| - 1;
      assert Reverse(s) == [s[n]] + Reverse(s[..n]);
      ReversePermutes(s[..n]);
      assert s == s[..n] + [s[n]];
    }
  }

  /** A backward ring is the forward ring of the reversed order, started one
    * palace further on. */
  lemma ArrangedBackwardReverses<T>(start: int, order: seq<T>)
    requires |order| == 12
    ensures Arranged(start, false, order) == Arranged(start + 1, true, Reverse(order))
  {
    var a := Arranged(start, false, order);
    var b := Arranged(start + 1, true, Reverse(order));
    forall p | 0 <= p < 12
      ensures a[p] == b[p]
    {
      var x := p - (start + 1);
      DivMod12(start - p, -(x / 12) - 1, 11 - FixIndex(x));
    }
  }

  /** Every ring is a permutation of its order: each of the twelve palaces is
    * written exactly once. */
  lemma ArrangedPermutes<T>(start: int, forward: bool, order: seq<T>)
    requires |order| == 12
    ensures multiset(Arranged(start, forward, order)) == multiset(order)
  {
    if forward {
      ArrangedForwardRotates(start, order);
      var r := 12 - FixIndex(start);
      assert order == order[..r] + order[r..];
    } else {
      ArrangedBackwardReverses(start, order);
      var rev := Reverse(order);
      ArrangedForwardRotates(start + 1, rev);
      var r := 12 - FixIndex(start + 1);
      assert rev == rev[..r] + rev[r..];
      ReversePermutes(order);
    }
  }

  /** A ring that holds the `k`-th spirit at slot `k`, for every `k`, is the
    * arranged ring. */
  lemma ArrangedBySlots<T>(start: int, forward: bool, order: seq<T>, a: seq<T>)
    requires |order| == 12 && |a| == 12
    requires forall k :: 0 <= k < 12 ==> a[Slot(start, forward, k)] == order[k]
    ensures a == Arranged(start, forward, order)
  {
    forall p | 0 <= p < 12
      ensures a[p] == Arranged(start, forward, order)[p]
    {
      assert Slot(start, forward, Step(start, forward, p)) == p;
    }
  }

  /** The loop shared by the four `arrange_*_12` functions: the result starts
    * value-initialised to the first spirit and the `i`-th spirit is written
    * to `fix_index(start ± i)`. */
  method Arrange<T>(start: int, forward: bool, order: seq<T>) returns (r: seq<T>)
    requires |order| == 12
    ensures r == Arranged(start, forward, order)
  {
    var result := new T[12](_ => order[0]);
    for i := 0 to 12
      invariant forall k :: 0 <= k < i ==> result[Slot(start, forward, k)] == order[k]
    {
      var idx := if forward then FixIndex(start + i) else FixIndex(start - i);
      forall k | 0 <= k < i
        ensures Slot(start, forward, k) != idx
      {
        if Slot(start, forward, k) == idx {
          SlotInjective(start, forward, k, i);
        }
      }
      result[idx] := order[i];
    }
    forall p | 0 <= p < 12
      ensures result[p] == Arranged(start, forward, order)[p]
    {
      assert Slot(start, forward, Step(start, forward, p)) == p;
    }
    r := result[..];
  }

  /** `is_male == yang_zhi`: a yang man or a yin woman goes forward. */
  predicate Forward(isMale: bool, y: Branch)
  {
    isMale == (y % 2 == 0)
  }

  // ---------------------------------------------------------------------
  // The four rings

  datatype ChangSheng12 = ChangSheng | MuYu | GuanDai | LinGuan | DiWang | Shuai
                        | Bing | Si | Mu | Jue | Tai | Yang

  datatype BoShi12 = BoShi | LiShi | QingLong | XiaoHao2 | JiangJun | ZouShu
                   | FeiLian2 | XiShen2 | BingFu2 | DaHao2 | FuBing | GuanFu2

  datatype SuiQian12 = SuiJian | HuiQi | SangMen | GuanSuo | GuanFu | XiaoHao
                     | DaHao | LongDe | BaiHu | TianDe2 | DiaoKe | BingFu

  datatype JiangQian12 = JiangXing | PanAn | SuiYi | XiShen | HuaGai2 | JieSha
                       | ZaiSha | TianSha | ZhiBei | XianChi2 | YueSha | WangShen

  /** The Chang Sheng order, the twelve stages from Chang Sheng to Yang. */
  function ChangShengOrder(): (s: seq<ChangSheng12>)
    ensures |s| == 12
  {
    [ChangSheng12.ChangSheng, MuYu, GuanDai, LinGuan, DiWang, Shuai,
     ChangSheng12.Bing, ChangSheng12.Si, Mu, Jue, Tai, ChangSheng12.Yang]
  }

  /** The Bo Shi order, from Bo Shi to Guan Fu. */
  function BoShiOrder(): (s: seq<BoShi12>)
    ensures |s| == 12
  {
    [BoShi, LiShi, QingLong, XiaoHao2, JiangJun, ZouShu, FeiLian2, XiShen2, BingFu2, DaHao2, FuBing, GuanFu2]
  }

  /** The Sui Qian order, from Sui Jian to Bing Fu. */
  function SuiQianOrder(): (s: seq<SuiQian12>)
    ensures |s| == 12
  {
    [SuiJian, HuiQi, SangMen, GuanSuo, GuanFu, XiaoHao, DaHao, LongDe, BaiHu, TianDe2, DiaoKe, BingFu]
  }

  /** The Jiang Qian order, from Jiang Xing to Wang Shen. */
  function JiangQianOrder(): (s: seq<JiangQian12>)
    ensures |s| == 12
  {
    [JiangXing, PanAn, SuiYi, XiShen, HuaGai2, JieSha, ZaiSha, TianSha, ZhiBei, XianChi2, YueSha, WangShen]
  }

  /** `arrange_chang_sheng_12`: from the bureau's Chang Sheng palace, forward
    * for a yang man or a yin woman. */
  method ArrangeChangSheng12(j: WuXingJu, isMale: bool, y: Branch) returns (r: seq<ChangSheng12>)
    ensures r == Arranged(ChangShengStart(j), Forward(isMale, y), ChangShengOrder())
  {
    var startIdx := ChangShengStart(j);
    var shunXing := isMale == (y % 2 == 0);
    r := Arrange(startIdx, shunXing, ChangShengOrder());
  }

  /** `arrange_bo_shi_12`: from Lu Cun, in the same direction. */
  method ArrangeBoShi12(g: Stem, y: Branch, isMale: bool) returns (r: seq<BoShi12>)
    ensures r == Arranged(LuCun(g), Forward(isMale, y), BoShiOrder())
  {
    var luCunIdx := LuCun(g);
    var shunXing := isMale == (y % 2 == 0);
    r := Arrange(luCunIdx, shunXing, BoShiOrder());
  }

  /** `arrange_sui_qian_12`: forward from the year branch's palace. */
  method ArrangeSuiQian12(y: Branch) returns (r: seq<SuiQian12>)
    ensures r == Arranged(DiZhiToIndex(y), true, SuiQianOrder())
  {
    var startIdx := DiZhiToIndex(y);
    r := Arrange(startIdx, true, SuiQianOrder());
  }

  /** `arrange_jiang_qian_12`: forward from the triad's Jiang Xing palace. */
  method ArrangeJiangQian12(y: Branch) returns (r: seq<JiangQian12>)
    ensures r == Arranged(JiangQianStart(y), true, JiangQianOrder())
  {
    var startIdx := JiangQianStart(y);
    r := Arrange(startIdx, true, JiangQianOrder());
  }

  // ---------------------------------------------------------------------
  // What the rings promise

  /** Chang Sheng sits on the bureau's starting palace, Di Wang four spirits
    * along, and so on around the ring. */
  lemma ChangShengRing(j: WuXingJu, isMale: bool, y: Branch)
    ensures Arranged(ChangShengStart(j), Forward(isMale, y), ChangShengOrder())[ChangShengStart(j)]
         == ChangSheng12.ChangSheng
    ensures Arranged(ChangShengStart(j), Forward(isMale, y), ChangShengOrder())[Slot(ChangShengStart(j), Forward(isMale, y), 4)]
         == DiWang
  {
    ArrangedStart(ChangShengStart(j), Forward(isMale, y), ChangShengOrder());
    ArrangedAt(ChangShengStart(j), Forward(isMale, y), ChangShengOrder(), 4);
  }

  /** Bo Shi sits on Lu Cun. */
  lemma BoShiRing(g: Stem, y: Branch, isMale: bool)
    ensures Arranged(LuCun(g), Forward(isMale, y), BoShiOrder())[LuCun(g)] == BoShi
  {
    ArrangedStart(LuCun(g), Forward(isMale, y), BoShiOrder());
  }

  /** Sui Jian sits on the year branch's palace and Bai Hu eight branches on. */
  lemma SuiQianRing(y: Branch)
    ensures Arranged(DiZhiToIndex(y), true, SuiQianOrder())[DiZhiToIndex(y)] == SuiJian
    ensures Arranged(DiZhiToIndex(y), true, SuiQianOrder())[DiZhiToIndex(AddB(y, 8))] == BaiHu
  {
    ArrangedStart(DiZhiToIndex(y), true, SuiQianOrder());
    var p := DiZhiToIndex(y);
    var q := DiZhiToIndex(AddB(y, 8));
    ArrangedAt(p, true, SuiQianOrder(), 8);
    assert Slot(p, true, 8) == q by {
      assert p == FixIndex(y - 2);
      assert q == FixIndex(FixIndex(y + 8) - 2);
      FixIndexAdd(y - 2, 8);
      FixIndexAdd(y + 8, -2);
    }
  }

  /** Jiang Xing sits on its starting palace, and the ring's own Hua Gai falls
    * on the palace `get_hua_gai_index` gives for the same year. */
  lemma JiangQianRing(y: Branch)
    ensures Arranged(JiangQianStart(y), true, JiangQianOrder())[JiangQianStart(y)] == JiangXing
    ensures Arranged(JiangQianStart(y), true, JiangQianOrder())[HuaGai(y)] == HuaGai2
  {
    var s := JiangQianStart(y);
    ArrangedStart(s, true, JiangQianOrder());
    ArrangedAt(s, true, JiangQianOrder(), 4);
    assert Slot(s, true, 4) == HuaGai(y);
  }

  /** The ring's own Xian Chi falls on the palace `get_xian_chi_index` gives
    * for the same year. */
  lemma JiangQianXianChi(y: Branch)
    ensures Arranged(JiangQianStart(y), true, JiangQianOrder())[XianChi(y)] == XianChi2
  {
    var s := JiangQianStart(y);
    ArrangedAt(s, true, JiangQianOrder(), 9);
    assert Slot(s, true, 9) == XianChi(y);
  }
}
