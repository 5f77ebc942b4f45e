/** Properties of the Zi Wei star placements: the Zi Wei search, the triad
  * rules written out as tables, the shifts of the month and hour rules, the
  * branch-to-palace numbering, and the tables that disagree with their
  * rhymes. */
module ZiWeiStarProperties {
  import opened GanZhi
  import opened CArith
  import opened ZiWeiStar
  import SP = LiuRenShenShaProperties

  // ---------------------------------------------------------------------
  // The Zi Wei star

  /** For a lunar day of at least one the topped-up day holds the bureau
    * number at least once, so the quotient counted from Yin is at least one. */
  lemma ZiWeiQuotientPositive(day: int, j: WuXingJu)
    requires day >= 1
    ensures (day + ZiWeiOffset(day, j)) / JuNumber(j) >= 1
  {
    var n := JuNumber(j);
    var x := day + ZiWeiOffset(day, j);
    var q := x / n;
    ModUnique(x, n, q, 0);
    MulBound(n, q);
  }

  /** A day that divides by the bureau number needs no top-up: Zi Wei sits at
    * the quotient counted from Yin. */
  lemma ZiWeiDivisibleDay(day: int, j: WuXingJu)
    requires Divisible(day, j, 0)
    ensures ZiWeiOffset(day, j) == 0
    ensures ZiWeiPosition(day, j) == FixIndex(day / JuNumber(j) - 1)
  {
    if ZiWeiOffset(day, j) > 0 {
      ZiWeiOffsetLeast(day, j, 0);
    }
  }

  /** On the first lunar day Zi Wei sits in Chou, Chen, Hai, Wu and You for
    * the Water 2, Wood 3, Metal 4, Earth 5 and Fire 6 bureaus. */
  lemma ZiWeiFirstDay()
    ensures ZiWeiPosition(1, ShuiEr) == DiZhiToIndex(Chou)
    ensures ZiWeiPosition(1, MuSan) == DiZhiToIndex(Chen)
    ensures ZiWeiPosition(1, JinSi) == DiZhiToIndex(Hai)
    ensures ZiWeiPosition(1, TuWu) == DiZhiToIndex(Wu)
    ensures ZiWeiPosition(1, HuoLiu) == DiZhiToIndex(You)
  {
    ModUnique(-1, 2, -1, 1);
    ModUnique(-1, 3, -1, 2);
    ModUnique(-1, 4, -1, 3);
    ModUnique(-1, 5, -1, 4);
    ModUnique(-1, 6, -1, 5);
  }

  // ---------------------------------------------------------------------
  // Branches and palaces

  /** `di_zhi_to_index` is a bijection: counting two branches on from a
    * palace's number gives back the branch. */
  lemma DiZhiToIndexRoundTrip(z: Branch, p: Palace)
    ensures AddB(DiZhiToIndex(z), 2) == z
    ensures DiZhiToIndex(AddB(p, 2)) == p
  {
    FixIndexAdd(z - 2, 2);
    DivMod12(AddB(p, 2) - 2, (p + 2) / 12 * -1, p);
  }

  /** Different branches have different palaces. */
  lemma DiZhiToIndexInjective(a: Branch, b: Branch)
    requires DiZhiToIndex(a) == DiZhiToIndex(b)
    ensures a == b
  {
    DiZhiToIndexRoundTrip(a, 0);
    DiZhiToIndexRoundTrip(b, 0);
  }

  // ---------------------------------------------------------------------
  // Triad tables

  /** Xian Chi, the peach blossom, is the branch after the triad's meng branch. */
  lemma XianChiByMeng(y: Branch)
    ensures XianChi(y) == DiZhiToIndex(AddB(MengOf(y), 1))
  {
  }

  /** Hua Gai is the tomb branch of the triad, eight after its meng branch. */
  lemma HuaGaiByMeng(y: Branch)
    ensures HuaGai(y) == DiZhiToIndex(AddB(MengOf(y), 8))
  {
  }

  /** Jiang Xing starts at the triad's central branch, four after its meng branch. */
  lemma JiangQianStartByMeng(y: Branch)
    ensures JiangQianStart(y) == DiZhiToIndex(AddB(MengOf(y), 4))
  {
  }

  /** Huo Xing and Ling Xing start alike for the three branches of a triad. */
  lemma HuoLingStartByTriad(y: Branch)
    ensures HuoLingStart(y) == HuoLingStart(AddB(y, 4))
  {
  }

  /** A later hour moves Huo Xing and Ling Xing one palace on. */
  lemma HuoLingHourStep(y: Branch, hour: Branch)
    requires hour < 11
    ensures HuoLing(y, hour + 1).0 == AddB(HuoLing(y, hour).0, 1)
    ensures HuoLing(y, hour + 1).1 == AddB(HuoLing(y, hour).1, 1)
  {
    FixIndexAdd(HuoLingStart(y).0 + hour, 1);
    FixIndexAdd(HuoLingStart(y).1 + hour, 1);
  }

  /** Gu Chen is the cardinal branch that follows the year's season: Si for
    * spring (Yin, Mao, Chen), Shen for summer, Hai for autumn, Yin for winter. */
  lemma GuChenBySeason(y: Branch)
    ensures GuChenGuaSu(y).0 == DiZhiToIndex(AddB(Si, 3 * (FixIndex(y - 2) / 3)))
  {
  }

  /** Fei Lian moves each group of three consecutive year branches eight or
    * two branches on, alternately. */
  lemma FeiLianByGroup(y: Branch)
    ensures FeiLian(y) == DiZhiToIndex(AddB(y, if (y / 3) % 2 == 0 then 8 else 2))
  {
  }

  /** Lu Cun sits on the stem's lu branch, the same table Da Liu Ren uses for
    * 日禄. */
  lemma LuCunIsLu(g: Stem)
    ensures LuCun(g) == DiZhiToIndex(SP.LuOf(g))
  {
  }

  /** Tian Fu (福) of a yin stem is one palace behind that of its yang
    * partner. */
  lemma TianFuOfYinStem(g: Stem)
    requires g % 2 == 1
    ensures TianGuanTianFu(g).1 == AddB(TianGuanTianFu(g - 1).1, -1)
  {
  }

  // ---------------------------------------------------------------------
  // Month and hour rules

  /** A later month moves Zuo Fu one palace forward and You Bi one back. */
  lemma ZuoYouMonthStep(month: int)
    ensures ZuoYou(month + 1).0 == AddB(ZuoYou(month).0, 1)
    ensures ZuoYou(month + 1).1 == AddB(ZuoYou(month).1, -1)
  {
    FixIndexAdd(2 + month - 1, 1);
    FixIndexAdd(8 - (month - 1), -1);
  }

  /** A later hour moves Wen Chang one palace back and Wen Qu one forward. */
  lemma ChangQuHourStep(hour: Branch)
    requires hour < 11
    ensures ChangQu(hour + 1).0 == AddB(ChangQu(hour).0, -1)
    ensures ChangQu(hour + 1).1 == AddB(ChangQu(hour).1, 1)
  {
    FixIndexAdd(8 - hour, -1);
    FixIndexAdd(2 + hour, 1);
  }

  /** A later hour moves Di Kong one palace back and Di Jie one forward. */
  lemma KongJieHourStep(hour: Branch)
    requires hour < 11
    ensures KongJie(hour + 1).0 == AddB(KongJie(hour).0, -1)
    ensures KongJie(hour + 1).1 == AddB(KongJie(hour).1, 1)
  {
    FixIndexAdd(9 - hour, -1);
    FixIndexAdd(9 + hour, 1);
  }

  /** Tian Wu repeats every four months and always sits on a cardinal
    * branch. */
  lemma TianWuPeriod(month: int)
    requires 1 <= month <= 12
    ensures month + 4 <= 12 ==> TianWu(month + 4) == TianWu(month)
    ensures IsMeng(AddB(TianWu(month), 2))
  {
  }

  // ---------------------------------------------------------------------
  // Void branches

  /** `get_xun_kong_index` yields the ordinal of the void branch of the
    * year's week that has the year branch's parity. */
  lemma XunKongIsVoid(g: Stem, y: Branch)
    ensures XunKong(g, y) == KongWang(g, y).0 || XunKong(g, y) == KongWang(g, y).1
  {
    XunKongCandidates(g, y);
    VoidHeadIsCandidate(g, y);
  }

  /** The void branch of `get_xun_kong_index` is the candidate or its
    * successor. */
  lemma XunKongCandidates(g: Stem, y: Branch)
    ensures var x := FixIndex(y + (9 - g) + 1);
            XunKong(g, y) == x || XunKong(g, y) == FixIndex(x + 1)
  {
  }

  /** The candidate is the week's first void branch, its successor the
    * second. */
  lemma VoidHeadIsCandidate(g: Stem, y: Branch)
    ensures var x := FixIndex(y + (9 - g) + 1);
            KongWang(g, y).0 == x && KongWang(g, y).1 == FixIndex(x + 1)
  {
    AddBAdd(y, -(g as int), 10);
  }

  // ---------------------------------------------------------------------
  // Tables that disagree with their rhymes

  /** The Po Sui table as written sends the Mao year to You instead of Si, and
    * agrees with the rhyme for exactly seven year branches. */
  lemma PoSuiAsWrittenMisplaces(y: Branch)
    ensures PoSuiAsWritten(Mao) == DiZhiToIndex(You) && PoSui(Mao) == DiZhiToIndex(Si)
    ensures PoSuiAsWritten(y) == PoSui(y) <==> y in {Zi, Chou, Yin, Chen, Wu, Wei, Shen}
  {
  }

  /** The Jie Shen table as written sends the third month to Shen instead of
    * Xu, and agrees with the rhyme only for the first two months. */
  lemma JieShenAsWrittenMisplaces(month: int)
    requires 1 <= month <= 12
    ensures JieShenAsWritten(3) == DiZhiToIndex(Shen) && JieShen(3) == DiZhiToIndex(Xu)
    ensures JieShenAsWritten(month) == JieShen(month) <==> month <= 2
  {
  }

  /** Tian Kong as written lands two palaces after the rhyme's palace, for
    * every year: the Zi year gets Mao instead of Chou. */
  lemma TianKongAsWrittenMisplaces(y: Branch)
    ensures TianKongAsWritten(Zi) == DiZhiToIndex(Mao) && TianKong(Zi) == DiZhiToIndex(Chou)
    ensures TianKongAsWritten(y) == AddB(TianKong(y), 2)
    ensures TianKongAsWritten(y) != TianKong(y)
  {
    FixIndexAdd(y - 1, 2);
  }
}
