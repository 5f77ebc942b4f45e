/** Star placement of Zi Wei Dou Shu. Palaces are numbered from the Yin palace:
  * Yin 0, Mao 1, Chen 2, Si 3, Wu 4, Wei 5, Shen 6, You 7, Xu 8, Hai 9, Zi 10,
  * Chou 11. Every placement rule counts around that ring of twelve and is
  * normalised with `fix_index` (`FixIndex`). */
module ZiWeiStar {
  import opened GanZhi
  import opened CArith

  /** A palace index, counted from the Yin palace. */
  type Palace = Branch

  /** The fourteen main stars, in declaration order. */
  datatype ZhuXing = ZiWei | TianJi | TaiYang | WuQu | TianTong | LianZhen
                   | TianFu | TaiYin | TanLang | JuMen | TianXiang | TianLiang | QiSha | PoJun

  /** `Mapper::to_zh` on a main star: the name under which palace star lists
    * carry it. */
  function ZhName(x: ZhuXing): string
  {
    match x
    case ZiWei => "紫微"
    case TianJi => "天机"
    case TaiYang => "太阳"
    case WuQu => "武曲"
    case TianTong => "天同"
    case LianZhen => "廉贞"
    case TianFu => "天府"
    case TaiYin => "太阴"
    case TanLang => "贪狼"
    case JuMen => "巨门"
    case TianXiang => "天相"
    case TianLiang => "天梁"
    case QiSha => "七杀"
    case PoJun => "破军"
  }

  /** The four transformations; `static_cast<SiHua>(i)` numbers them Lu 0,
    * Quan 1, Ke 2, Ji 3. */
  datatype SiHua = Lu | Quan | Ke | Ji

  /** The five element bureaus. */
  datatype WuXingJu = ShuiEr | MuSan | JinSi | TuWu | HuoLiu

  /** `static_cast<int>(wu_xing_ju)`: the bureau number, two to six. */
  function JuNumber(j: WuXingJu): int
  {
    match j
    case ShuiEr => 2
    case MuSan => 3
    case JinSi => 4
    case TuWu => 5
    case HuoLiu => 6
  }

  /** The palace of a branch: `di_zhi_to_index`, a table lookup. */
  function DiZhiToIndex(z: Branch): (p: Palace)
    ensures p == FixIndex(z - 2)
  {
    [10, 11, 0, 1, 2, 3, 4, 5, 6, 7, 8, 9][z]
  }

  // ---------------------------------------------------------------------
  // The Zi Wei star

  /** The stopping test of the search loop in `get_zi_wei_index`: the lunar
    * day plus the offset divides by the bureau number. */
  predicate Divisible(day: int, j: WuXingJu, offset: int)
  {
    (day + offset) % JuNumber(j) == 0
  }

  /** The offset the search stops at: the day topped up to the next multiple
    * of the bureau number. */
  function ZiWeiOffset(day: int, j: WuXingJu): (o: nat)
    ensures o < JuNumber(j) && Divisible(day, j, o)
  {
    var n := JuNumber(j);
    ModUnique(day + (-day) % n, n, -((-day) / n), 0);
    (-day) % n
  }

  /** No smaller offset passes the test, so the search stops exactly there. */
  lemma ZiWeiOffsetLeast(day: int, j: WuXingJu, k: int)
    requires 0 <= k < ZiWeiOffset(day, j)
    ensures !Divisible(day, j, k)
  {
    var n := JuNumber(j);
    var o := ZiWeiOffset(day, j);
    ModUnique(day + k, n, -((-day) / n) - 1, n - o + k);
  }

  /** The Zi Wei palace: divide the day by the bureau number, topping the
    * day up until it divides, count the quotient from Yin, then move forward by an even
    * top-up or backward by an odd one. */
  function ZiWeiPosition(day: int, j: WuXingJu): Palace
  {
    var o := ZiWeiOffset(day, j);
    var q := (day + o) / JuNumber(j);
    if o % 2 == 0 then FixIndex(q - 1 + o) else FixIndex(q - 1 - o)
  }

  /** A C++ remainder by twelve is congruent to its dividend. */
  lemma CRemTwelve(a: int, n: int)
    ensures FixIndex(CRem(a, 12) + n) == FixIndex(a + n)
  {
    DivMod12(CRem(a, 12) + n, (a + n) / 12 - CDiv(a, 12), (a + n) % 12);
  }

  /** Subtracting a C++ remainder by twelve is subtracting its dividend. */
  lemma CRemTwelveNeg(a: int, n: int)
    ensures FixIndex(n - CRem(a, 12)) == FixIndex(n - a)
  {
    DivMod12(n - CRem(a, 12), (n - a) / 12 + CDiv(a, 12), (n - a) % 12);
  }

  /** The loop test of `get_zi_wei_index`, below the stopping offset: the C++
    * remainder vanishes exactly at that offset. */
  lemma ZiWeiTest(day: int, j: WuXingJu, offset: int)
    requires 0 <= offset <= ZiWeiOffset(day, j)
    ensures CRem(day + offset, JuNumber(j)) == 0 <==> offset == ZiWeiOffset(day, j)
  {
    CRemZero(day + offset, JuNumber(j));
    if offset < ZiWeiOffset(day, j) {
      ZiWeiOffsetLeast(day, j, offset);
    }
  }

  /** Moving by the offset from the C++ remainder of `q - 1` is moving from
    * `q - 1` itself. */
  lemma ZiWeiMove(q: int, o: int)
    ensures (if o % 2 == 0 then FixIndex(CRem(q - 1, 12) + o) else FixIndex(CRem(q - 1, 12) - o))
         == (if o % 2 == 0 then FixIndex(q - 1 + o) else FixIndex(q - 1 - o))
  {
    CRemTwelve(q - 1, o);
    CRemTwelve(q - 1, -o);
  }

  /** What `get_zi_wei_index` computes once the loop has stopped, with C++
    * division and remainder, is the Zi Wei palace. */
  lemma ZiWeiPlace(day: int, j: WuXingJu)
    ensures var o := ZiWeiOffset(day, j);
      var index := CRem(CDiv(day + o, JuNumber(j)) - 1, 12);
      (if o % 2 == 0 then FixIndex(index + o) else FixIndex(index - o)) == ZiWeiPosition(day, j)
  {
    var o := ZiWeiOffset(day, j);
    CDivExact(day + o, JuNumber(j));
    ZiWeiMove(CDiv(day + o, JuNumber(j)), o);
  }

  /** `get_zi_wei_index`: the do-while raises the offset until the day plus
    * the offset divides by the bureau number (it tests before it increments,
    * so it is a while loop), then places Zi Wei by the quotient. */
  method ZiWeiIndex(lunarDay: int, j: WuXingJu) returns (r: Palace)
    ensures r == ZiWeiPosition(lunarDay, j)
  {
    var n := JuNumber(j);
    var offset := 0;
    ZiWeiTest(lunarDay, j, offset);
    while CRem(lunarDay + offset, n) != 0
      invariant 0 <= offset <= ZiWeiOffset(lunarDay, j)
      invariant CRem(lunarDay + offset, n) == 0 <==> offset == ZiWeiOffset(lunarDay, j)
      decreases ZiWeiOffset(lunarDay, j) - offset
    {
      offset := offset + 1;
      ZiWeiTest(lunarDay, j, offset);
    }
    ZiWeiPlace(lunarDay, j);
    var quotient := CDiv(lunarDay + offset, n);
    var index := CRem(quotient - 1, 12);
    if offset % 2 == 0 {
      r := FixIndex(index + offset);
    } else {
      r := FixIndex(index - offset);
    }
  }

  // ---------------------------------------------------------------------
  // The two main-star groups

  /** How far each star of the Zi Wei group sits behind Zi Wei: Zi Wei, Tian
    * Ji, Tai Yang, Wu Qu, Tian Tong and Lian Zhen sit 0, 1, 3, 4, 5 and 8
    * palaces back; -1 marks a star outside the group. */
  function ZiWeiGroupBack(s: ZhuXing): int
  {
    match s
    case ZiWei => 0
    case TianJi => 1
    case TaiYang => 3
    case WuQu => 4
    case TianTong => 5
    case LianZhen => 8
    case _ => -1
  }

  /** How far each star of the Tian Fu group sits ahead of Tian Fu: Tian Fu,
    * Tai Yin, Tan Lang, Ju Men, Tian Xiang, Tian Liang, Qi Sha and Po Jun
    * sit 0, 1, 2, 3, 4, 5, 6 and 10 palaces on; -1 marks a star outside the
    * group. */
  function TianFuGroupAhead(s: ZhuXing): int
  {
    match s
    case TianFu => 0
    case TaiYin => 1
    case TanLang => 2
    case JuMen => 3
    case TianXiang => 4
    case TianLiang => 5
    case QiSha => 6
    case PoJun => 10
    case _ => -1
  }

  /** `fix_index(i - k)` lies exactly `k` palaces behind `i`. */
  lemma BackDistance(i: int, k: int)
    requires 0 <= k < 12
    ensures FixIndex(i - FixIndex(i - k)) == k
  {
    DivMod12(i - FixIndex(i - k), (i - k) / 12, k);
  }

  /** `fix_index(i + k)` lies exactly `k` palaces ahead of `i`. */
  lemma AheadDistance(i: int, k: int)
    requires 0 <= k < 12
    ensures FixIndex(FixIndex(i + k) - i) == k
  {
    DivMod12(FixIndex(i + k) - i, -((i + k) / 12), k);
  }

  /** The Zi Wei group as a placement: each star of the group at its distance
    * behind Zi Wei, Zi Wei itself at the index it was given. */
  function ZiWeiGroupPlacement(ziWeiIndex: int): map<ZhuXing, int>
  {
    map s | ZiWeiGroupBack(s) >= 0 :: if s == ZiWei then ziWeiIndex else FixIndex(ziWeiIndex - ZiWeiGroupBack(s))
  }

  /** The Tian Fu group as a placement, each star at its distance ahead. */
  function TianFuGroupPlacement(tianFuIndex: int): map<ZhuXing, int>
  {
    map s | TianFuGroupAhead(s) >= 0 :: if s == TianFu then tianFuIndex else FixIndex(tianFuIndex + TianFuGroupAhead(s))
  }

  /** The stars of the group are exactly those with a distance, and each sits
    * at its distance behind Zi Wei. */
  lemma ZiWeiGroupDistance(ziWeiIndex: int)
    ensures forall s :: s in ZiWeiGroupPlacement(ziWeiIndex) <==> ZiWeiGroupBack(s) >= 0
    ensures forall s :: s in ZiWeiGroupPlacement(ziWeiIndex) ==> FixIndex(ziWeiIndex - ZiWeiGroupPlacement(ziWeiIndex)[s]) == ZiWeiGroupBack(s)
  {
    var m := ZiWeiGroupPlacement(ziWeiIndex);
    forall s | s in m
      ensures FixIndex(ziWeiIndex - m[s]) == ZiWeiGroupBack(s)
    {
      if s == ZiWei {
        DivMod12(ziWeiIndex - ziWeiIndex, 0, 0);
      } else {
        BackDistance(ziWeiIndex, ZiWeiGroupBack(s));
      }
    }
  }

  /** Different stars of the group have different distances. */
  lemma ZiWeiGroupBackInjective(s: ZhuXing, t: ZhuXing)
    requires ZiWeiGroupBack(s) >= 0 && ZiWeiGroupBack(s) == ZiWeiGroupBack(t)
    ensures s == t
  {
  }

  /** No two stars of the group share a palace. */
  lemma ZiWeiGroupDistinct(ziWeiIndex: int, s: ZhuXing, t: ZhuXing)
    requires s in ZiWeiGroupPlacement(ziWeiIndex) && t in ZiWeiGroupPlacement(ziWeiIndex) && s != t
    ensures ZiWeiGroupPlacement(ziWeiIndex)[s] != ZiWeiGroupPlacement(ziWeiIndex)[t]
  {
    ZiWeiGroupDistance(ziWeiIndex);
    if ZiWeiGroupPlacement(ziWeiIndex)[s] == ZiWeiGroupPlacement(ziWeiIndex)[t] {
      ZiWeiGroupBackInjective(s, t);
    }
  }


  /** The stars of the group are exactly those with a distance, and each sits
    * at its distance ahead of Tian Fu. */
  lemma TianFuGroupDistance(tianFuIndex: int)
    ensures forall s :: s in TianFuGroupPlacement(tianFuIndex) <==> TianFuGroupAhead(s) >= 0
    ensures forall s :: s in TianFuGroupPlacement(tianFuIndex) ==> FixIndex(TianFuGroupPlacement(tianFuIndex)[s] - tianFuIndex) == TianFuGroupAhead(s)
  {
    var m := TianFuGroupPlacement(tianFuIndex);
    forall s | s in m
      ensures FixIndex(m[s] - tianFuIndex) == TianFuGroupAhead(s)
    {
      if s == TianFu {
        DivMod12(tianFuIndex - tianFuIndex, 0, 0);
      } else {
        AheadDistance(tianFuIndex, TianFuGroupAhead(s));
      }
    }
  }

  /** Different stars of the group have different distances. */
  lemma TianFuGroupAheadInjective(s: ZhuXing, t: ZhuXing)
    requires TianFuGroupAhead(s) >= 0 && TianFuGroupAhead(s) == TianFuGroupAhead(t)
    ensures s == t
  {
  }

  /** No two stars of the group share a palace. */
  lemma TianFuGroupDistinct(tianFuIndex: int, s: ZhuXing, t: ZhuXing)
    requires s in TianFuGroupPlacement(tianFuIndex) && t in TianFuGroupPlacement(tianFuIndex) && s != t
    ensures TianFuGroupPlacement(tianFuIndex)[s] != TianFuGroupPlacement(tianFuIndex)[t]
  {
    TianFuGroupDistance(tianFuIndex);
    if TianFuGroupPlacement(tianFuIndex)[s] == TianFuGroupPlacement(tianFuIndex)[t] {
      TianFuGroupAheadInjective(s, t);
    }
  }


  /** `arrange_zi_wei_group`: the six stars of the Zi Wei group, assigned one
    * by one. */
  method ArrangeZiWeiGroup(ziWeiIndex: int) returns (positions: map<ZhuXing, int>)
    ensures positions == ZiWeiGroupPlacement(ziWeiIndex)
  {
    positions := map[];
    positions := positions[ZiWei := ziWeiIndex];
    positions := positions[TianJi := FixIndex(ziWeiIndex - 1)];
    positions := positions[TaiYang := FixIndex(ziWeiIndex - 3)];
    positions := positions[WuQu := FixIndex(ziWeiIndex - 4)];
    positions := positions[TianTong := FixIndex(ziWeiIndex - 5)];
    positions := positions[LianZhen := FixIndex(ziWeiIndex - 8)];
  }

  /** `arrange_tian_fu_group`: the eight stars of the Tian Fu group, assigned
    * one by one. */
  method ArrangeTianFuGroup(tianFuIndex: int) returns (positions: map<ZhuXing, int>)
    ensures positions == TianFuGroupPlacement(tianFuIndex)
  {
    positions := map[];
    positions := positions[TianFu := tianFuIndex];
    positions := positions[TaiYin := FixIndex(tianFuIndex + 1)];
    positions := positions[TanLang := FixIndex(tianFuIndex + 2)];
    positions := positions[JuMen := FixIndex(tianFuIndex + 3)];
    positions := positions[TianXiang := FixIndex(tianFuIndex + 4)];
    positions := positions[TianLiang := FixIndex(tianFuIndex + 5)];
    positions := positions[QiSha := FixIndex(tianFuIndex + 6)];
    positions := positions[PoJun := FixIndex(tianFuIndex + 10)];
  }

  // ---------------------------------------------------------------------
  // Auxiliary and malefic stars

  /** `get_zuo_you_index`: Zuo Fu counts the lunar month forward from Chen,
    * You Bi backward from Xu, so the pair mirrors about the Chen–Xu axis. */
  function ZuoYou(month: int): (r: (Palace, Palace))
    ensures (r.0 + r.1) % 12 == 10
  {
    (FixIndex(2 + month - 1), FixIndex(8 - (month - 1)))
  }

  /** `get_chang_qu_index`: Wen Chang counts the hour backward from Xu, Wen
    * Qu forward from Chen, mirroring about the same axis. */
  function ChangQu(hour: Branch): (r: (Palace, Palace))
    ensures (r.0 + r.1) % 12 == 10
  {
    (FixIndex(8 - hour), FixIndex(2 + hour))
  }

  /** `get_kui_yue_index` by year stem; every stem has a case, so the
    * `default` branch of the switch is never taken. Kui and Yue are never in
    * one palace and always mirror about the Chen–Wu meridian. */
  function KuiYue(g: Stem): (r: (Palace, Palace))
    ensures r.0 != r.1 && (r.0 + r.1) % 12 == 4
  {
    if g == Jia || g == WuGan || g == Geng then (11, 5)
    else if g == Yi || g == GanZhi.Ji then (10, 6)
    else if g == Bing || g == Ding then (9, 7)
    else if g == Xin then (4, 0)
    else (1, 3)
  }

  /** `get_lu_cun_index` by year stem (its `default` is unreachable too). */
  function LuCun(g: Stem): Palace
  {
    if g == Jia then 0
    else if g == Yi then 1
    else if g == Bing || g == WuGan then 3
    else if g == Ding || g == GanZhi.Ji then 4
    else if g == Geng then 6
    else if g == Xin then 7
    else if g == Ren then 9
    else 10
  }

  /** `get_yang_tuo_index`: Qing Yang one palace ahead of Lu Cun, Tuo Luo one
    * behind, so the two flank it. */
  function YangTuo(luCun: int): (r: (Palace, Palace))
    ensures r.0 == AddB(FixIndex(luCun), 1) && FixIndex(luCun) == AddB(r.1, 1)
  {
    FixIndexAdd(luCun, 1);
    FixIndexAdd(luCun - 1, 1);
    (FixIndex(luCun + 1), FixIndex(luCun - 1))
  }

  /** The starting palaces of Huo Xing and Ling Xing by the year branch's
    * triad. */
  function HuoLingStart(y: Branch): (Palace, Palace)
  {
    if y == Shen || y == Zi || y == Chen then (0, 8)
    else if y == Yin || y == Wu || y == Xu then (11, 1)
    else if y == Si || y == You || y == Chou then (1, 8)
    else (7, 8)
  }

  /** `get_huo_ling_index`: both stars count the hour forward from their
    * triad's starting palaces. */
  function HuoLing(y: Branch, hour: Branch): (Palace, Palace)
  {
    (FixIndex(HuoLingStart(y).0 + hour), FixIndex(HuoLingStart(y).1 + hour))
  }

  /** `get_kong_jie_index`: Di Kong counts the hour backward from Hai, Di Jie
    * forward, mirroring about the Si–Hai axis. */
  function KongJie(hour: Branch): (r: (Palace, Palace))
    ensures (r.0 + r.1) % 12 == 6
  {
    (FixIndex(9 - hour), FixIndex(9 + hour))
  }

  /** `get_si_hua_table`: which main star takes which transformation for a
    * stem. Bing, Wu and Ren have no Ke, Ji has no Ji and Xin has only Lu and
    * Quan. */
  function SiHuaTable(g: Stem): map<ZhuXing, SiHua>
  {
    if g == Jia then map[LianZhen := Lu, PoJun := Quan, WuQu := Ke, TaiYang := Ji]
    else if g == Yi then map[TianJi := Lu, TianLiang := Quan, ZiWei := Ke, TaiYin := Ji]
    else if g == Bing then map[TianTong := Lu, TianJi := Quan, LianZhen := Ji]
    else if g == Ding then map[TaiYin := Lu, TianTong := Quan, TianJi := Ke, JuMen := Ji]
    else if g == WuGan then map[TanLang := Lu, TaiYin := Quan, TianJi := Ji]
    else if g == GanZhi.Ji then map[WuQu := Lu, TanLang := Quan, TianLiang := Ke]
    else if g == Geng then map[TaiYang := Lu, WuQu := Quan, TaiYin := Ke, TianTong := Ji]
    else if g == Xin then map[JuMen := Lu, TaiYang := Quan]
    else if g == Ren then map[TianLiang := Lu, ZiWei := Quan, WuQu := Ji]
    else map[PoJun := Lu, JuMen := Quan, TaiYin := Ke, TanLang := Ji]
  }

  // ---------------------------------------------------------------------
  // Miscellaneous stars

  /** `get_hong_luan_tian_xi_index`: Hong Luan counts the year branch backward
    * from Mao; Tian Xi sits opposite. */
  function HongLuanTianXi(y: Branch): (r: (Palace, Palace))
    ensures (r.0 + y) % 12 == 1 && r.1 == AddB(r.0, 6)
  {
    FixIndexAdd(1 - y, 6);
    (FixIndex(1 - y), FixIndex(FixIndex(1 - y) + 6))
  }

  /** The late-Zi-hour correction of `get_san_tai_ba_zuo_index` and
    * `get_en_guang_tian_gui_index`: it asks for the Zi hour with an ordinal of
    * at least twelve, and Zi's ordinal is zero, so it is always zero. */
  function DayOffset(hour: Branch): (d: int)
    ensures d == 0
  {
    if hour == Zi && hour >= 12 then 1 else 0
  }

  /** `get_san_tai_ba_zuo_index`: San Tai counts the lunar day forward from
    * Zuo Fu, Ba Zuo backward from You Bi. The C++ remainder of the day by
    * twelve drops out once the sum is normalised, for every day, negative
    * ones included. */
  function SanTaiBaZuo(month: int, day: int, hour: Branch): (r: (Palace, Palace))
    ensures r.0 == AddB(ZuoYou(month).0, day - 1)
    ensures r.1 == AddB(ZuoYou(month).1, -(day - 1))
  {
    var zy := ZuoYou(month);
    var dayIndex := CRem(day + DayOffset(hour) - 1, 12);
    CRemTwelve(day - 1, zy.0);
    CRemTwelveNeg(day - 1, zy.1);
    (FixIndex(zy.0 + dayIndex), FixIndex(zy.1 - dayIndex))
  }

  /** `get_en_guang_tian_gui_index`: En Guang counts the day forward from Wen
    * Chang and steps one back, Tian Gui the same from Wen Qu. */
  function EnGuangTianGui(month: int, day: int, hour: Branch): (r: (Palace, Palace))
    ensures r.0 == AddB(ChangQu(hour).0, day - 2)
    ensures r.1 == AddB(ChangQu(hour).1, day - 2)
  {
    var cq := ChangQu(hour);
    var dayIndex := CRem(day + DayOffset(hour) - 1, 12);
    CRemTwelve(day - 1, cq.0 - 1);
    CRemTwelve(day - 1, cq.1 - 1);
    (FixIndex((cq.0 + dayIndex) - 1), FixIndex((cq.1 + dayIndex) - 1))
  }

  /** `get_long_chi_feng_ge_index`: Long Chi counts the year branch forward
    * from Chen, Feng Ge backward from Xu. */
  function LongChiFengGe(y: Branch): (r: (Palace, Palace))
    ensures (r.0 + r.1) % 12 == 10
  {
    (FixIndex(2 + y), FixIndex(8 - y))
  }

  /** `get_tian_cai_tian_shou_index`: the year branch counted forward from the
    * Ming and the Shen palace; the pair keeps the distance between those two. */
  function TianCaiTianShou(y: Branch, ming: int, shen: int): (r: (Palace, Palace))
    ensures FixIndex(r.1 - r.0) == FixIndex(shen - ming)
  {
    DivMod12(FixIndex(shen + y) - FixIndex(ming + y),
      (shen - ming) / 12 - (shen + y) / 12 + (ming + y) / 12, FixIndex(shen - ming));
    (FixIndex(ming + y), FixIndex(shen + y))
  }

  /** `get_tai_fu_feng_gao_index`: the hour counted from Wu and from Yin. */
  function TaiFuFengGao(hour: Branch): (r: (Palace, Palace))
    ensures r.0 == AddB(r.1, 4)
  {
    (FixIndex(4 + hour), FixIndex(0 + hour))
  }

  /** `get_tian_guan_tian_fu_index`: a table by year stem. */
  function TianGuanTianFu(g: Stem): (Palace, Palace)
  {
    [(5, 7), (2, 6), (3, 10), (0, 9), (1, 1), (7, 0), (9, 4), (7, 3), (8, 4), (4, 3)][g]
  }

  /** `get_tian_chu_index`: a table by year stem. */
  function TianChu(g: Stem): Palace
  {
    [3, 4, 10, 3, 4, 6, 0, 4, 7, 9][g]
  }

  /** `get_hua_gai_index` by the year branch's triad. */
  function HuaGai(y: Branch): Palace
  {
    if y == Yin || y == Wu || y == Xu then 8
    else if y == Shen || y == Zi || y == Chen then 2
    else if y == Si || y == You || y == Chou then 11
    else 5
  }

  /** `get_xian_chi_index` by the year branch's triad. */
  function XianChi(y: Branch): Palace
  {
    if y == Yin || y == Wu || y == Xu then 1
    else if y == Shen || y == Zi || y == Chen then 7
    else if y == Si || y == You || y == Chou then 4
    else 10
  }

  /** `get_gu_chen_gua_su_index` by the year branch's season: Gu Chen always
    * sits four palaces ahead of Gua Su. */
  function GuChenGuaSu(y: Branch): (r: (Palace, Palace))
    ensures r.0 == AddB(r.1, 4)
  {
    if y == Yin || y == Mao || y == Chen then (3, 11)
    else if y == Si || y == Wu || y == Wei then (6, 2)
    else if y == Shen || y == You || y == Xu then (9, 5)
    else (0, 8)
  }

  /** `get_fei_lian_index`: a table by year branch. */
  function FeiLian(y: Branch): Palace
  {
    [6, 7, 8, 3, 4, 5, 0, 1, 2, 9, 10, 11][y]
  }

  /** `get_po_sui_index` as written: the table by year branch. */
  function PoSuiAsWritten(y: Branch): Palace
  {
    [3, 11, 7, 7, 11, 11, 3, 11, 7, 7, 3, 11][y]
  }

  /** 破碎 as the traditional rule places it: Si for the Zi, Wu, Mao and You
    * years, You for the Yin, Shen, Si and Hai years, Chou for the rest. */
  function PoSui(y: Branch): (p: Palace)
    ensures IsZhong(y) ==> p == DiZhiToIndex(Si)
    ensures IsMeng(y) ==> p == DiZhiToIndex(You)
    ensures !IsZhong(y) && !IsMeng(y) ==> p == DiZhiToIndex(Chou)
  {
    [3, 11, 7][y % 3]
  }

  /** `get_tian_xing_index`: the lunar month counted forward from You. */
  function TianXing(month: int): Palace
  {
    FixIndex(7 + (month - 1))
  }

  /** `get_tian_yao_index`: the lunar month counted forward from Chou; Tian Xing
    * sits four palaces behind Tian Yao. */
  function TianYao(month: int): (p: Palace)
    ensures TianXing(month) == AddB(p, -4)
  {
    FixIndexAdd(11 + (month - 1), -4);
    FixIndex(11 + (month - 1))
  }

  /** `get_jie_shen_index` as written: a six-entry table indexed by
    * `(lunar_month - 1) / 2`. */
  function JieShenAsWritten(month: int): Palace
    requires 1 <= month <= 12
  {
    [6, 6, 8, 8, 10, 10][(month - 1) / 2]
  }

  /** 解神 as the traditional rule places it: Shen for months one and two,
    * then two palaces on for every further pair of months. */
  function JieShen(month: int): (p: Palace)
    requires 1 <= month <= 12
    ensures p == FixIndex(6 + 2 * ((month - 1) / 2))
  {
    [6, 8, 10, 0, 2, 4][(month - 1) / 2]
  }

  /** `get_tian_wu_index`: a four-entry table indexed by `(lunar_month - 1) % 4`,
    * so months four apart share Tian Wu. */
  function TianWu(month: int): Palace
    requires 1 <= month <= 12
  {
    [3, 6, 0, 9][(month - 1) % 4]
  }

  /** `get_tian_yue_index`: a table by lunar month. */
  function TianYue(month: int): Palace
    requires 1 <= month <= 12
  {
    [8, 3, 2, 0, 5, 1, 9, 5, 0, 4, 8, 0][month - 1]
  }

  /** `get_yin_sha_index`: a six-entry table indexed by `(lunar_month - 1) % 6`;
    * it steps two palaces backward from Yin per month. */
  function YinSha(month: int): (p: Palace)
    requires 1 <= month <= 12
    ensures p == FixIndex(-2 * (month - 1))
  {
    [0, 10, 8, 6, 4, 2][(month - 1) % 6]
  }

  /** `get_tian_de_yue_de_index`: the year branch counted forward from You
    * and from Si. */
  function TianDeYueDe(y: Branch): (r: (Palace, Palace))
    ensures r.0 == AddB(r.1, 4)
  {
    (FixIndex(7 + y), FixIndex(3 + y))
  }

  /** `get_tian_kong_index` as written: one step after the year branch's
    * ordinal, which is read as a palace index counted from Yin. */
  function TianKongAsWritten(y: Branch): Palace
  {
    FixIndex(y + 1)
  }

  /** 天空 as the traditional rule places it: the palace one step
    * after the palace of the year branch. */
  function TianKong(y: Branch): (p: Palace)
    ensures p == AddB(DiZhiToIndex(y), 1)
  {
    FixIndexAdd(y - 2, 1);
    FixIndex(y - 1)
  }

  /** `get_xun_kong_index`: the year branch plus `(9 - stem) + 1`, moved one
    * more palace when the parities differ; the result always has the year
    * branch's parity. */
  function XunKong(g: Stem, y: Branch): (p: Palace)
    ensures p % 2 == y % 2
  {
    var x := FixIndex(y + (9 - g) + 1);
    if y % 2 != x % 2 then FixIndex(x + 1) else x
  }

  /** `get_jie_lu_kong_wang_index`: a five-entry table indexed by stem modulo
    * five; Kong Wang always sits right after Jie Lu, on an even palace. */
  function JieLuKongWang(g: Stem): (r: (Palace, Palace))
    ensures r.0 % 2 == 0 && r.1 == AddB(r.0, 1)
  {
    [(6, 7), (4, 5), (2, 3), (0, 1), (10, 11)][g % 5]
  }

  /** `get_tian_ku_tian_xu_index`: the year branch counted backward and
    * forward from Wu. */
  function TianKuTianXu(y: Branch): (r: (Palace, Palace))
    ensures (r.0 + r.1) % 12 == 8
  {
    (FixIndex(4 - y), FixIndex(4 + y))
  }

  /** `get_tian_shi_tian_shang_index`: the two stars flank the Qian Yi palace
    * opposite Ming; Tian Shang goes after it for a yang man or a yin woman
    * and before it otherwise. */
  function TianShiTianShang(ming: int, isMale: bool, y: Branch): (r: (Palace, Palace))
    ensures var qianYi := FixIndex(ming + 6);
      (isMale == (y % 2 == 0) ==> r.1 == AddB(qianYi, 1) && qianYi == AddB(r.0, 1))
      && (isMale != (y % 2 == 0) ==> r.0 == AddB(qianYi, 1) && qianYi == AddB(r.1, 1))
  {
    var qianYi := FixIndex(ming + 6);
    FixIndexAdd(qianYi - 1, 1);
    var sameYinYang := isMale == (y % 2 == 0);
    if sameYinYang then (FixIndex(qianYi - 1), FixIndex(qianYi + 1))
    else (FixIndex(qianYi + 1), FixIndex(qianYi - 1))
  }

  /** `get_nian_jie_index`: a table by year branch, which counts the branch
    * backward from Xu. */
  function NianJie(y: Branch): (p: Palace)
    ensures p == FixIndex(8 - y)
  {
    [8, 7, 6, 5, 4, 3, 2, 1, 0, 11, 10, 9][y]
  }

  // ---------------------------------------------------------------------
  // Starting palaces of the twelve-spirit rings

  /** `get_chang_sheng_12_start_index`: where Chang Sheng starts for each
    * bureau (every bureau has a case; the `default` is unreachable). */
  function ChangShengStart(j: WuXingJu): Palace
  {
    match j
    case ShuiEr => 6
    case MuSan => 9
    case JinSi => 3
    case TuWu => 6
    case HuoLiu => 0
  }

  /** `get_jiang_qian_12_start_index`: Jiang Xing by the year branch's triad. */
  function JiangQianStart(y: Branch): Palace
  {
    if y == Yin || y == Wu || y == Xu then 4
    else if y == Shen || y == Zi || y == Chen then 10
    else if y == Si || y == You || y == Chou then 7
    else 1
  }
}
