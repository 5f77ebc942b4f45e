/** Properties of the spirits and killers of src/da_liu_ren/da_liu_ren_shen_sha.cpp:
  * how the spirits relate to one another, what the tables cover, and what the
  * branch index of `build_zhi_mapping` holds. */
module LiuRenShenShaProperties {
  import opened GanZhi
  import opened CArith
  import G = LiuRenGuaTi
  import opened LiuRenShenSha
  /** Every branch of a group of four (branches four apart) finds the same
    * meng and the same zhong branch. */
  lemma GroupSearch(b: Branch, c: Branch)
    requires (c - b) % 4 == 0
    ensures MengOf(c) == MengOf(b) && ZhongOf(c) == ZhongOf(b)
  {
    var hb, hc := MengOf(b), MengOf(c);
    var zb, zc := ZhongOf(b), ZhongOf(c);
    SameResidue(hb, b, c, hc);
    SameResidue(zb, b, c, zc);
  }

  /** Four apart from one branch, four apart from the next. */
  lemma SameResidue(x: Branch, b: int, c: int, y: Branch)
    requires (x - b) % 4 == 0 && (c - b) % 4 == 0 && (y - c) % 4 == 0
    requires (IsMeng(x) && IsMeng(y)) || (IsZhong(x) && IsZhong(y))
    ensures x == y
  {
    var q1, q2, q3 := (x - b) / 4, (c - b) / 4, (y - c) / 4;
    assert y - x == 4 * (q2 + q3 - q1);
  }

  /** The month and day breakers sit across from the month and day. */
  lemma Breakers(e: ShenShaEngine)
    ensures Position(e, Basic(YuePo)) == AddB(Position(e, Basic(YueJian)), 6)
    ensures Position(e, Basic(RiPo)) == AddB(Position(e, Basic(RiJian)), 6)
  {
  }

  /** The heaven shaman is the heaven physician and the earth shaman the
    * earth physician, which sits across from it. */
  lemma PhysicianShaman(e: ShenShaEngine)
    ensures Position(e, Month(TianWu)) == Position(e, Month(TianYi))
    ensures Position(e, Month(DiWu)) == Position(e, Month(DiYi))
    ensures Position(e, Month(DiYi)) == AddB(Position(e, Month(TianYi)), 6)
  {
  }

  /** The three mounds are the widow star, the five tombs sit across from
    * them and the lonely star four past them. */
  lemma MoundsAndTombs(e: ShenShaEngine)
    ensures Position(e, Month(SanQiu)) == Position(e, Month(GuaSu))
    ensures Position(e, Month(WuMu)) == AddB(Position(e, Month(SanQiu)), 6)
    ensures Position(e, Month(GuChen)) == AddB(Position(e, Month(GuaSu)), 4)
  {
  }

  /** `calculate` fills the heavenly edict and the flying soul from one
    * function, and the death breath and the lying word from another. */
  lemma TwinSpirits(e: ShenShaEngine)
    ensures Position(e, Month(FeiHun)) == Position(e, Month(TianZhao))
    ensures Position(e, Month(ManYu)) == Position(e, Month(SiQi))
  {
  }

  /** The year, month and day post horses are meng branches, across from the
    * meng branch of their branch's group, as `calc_yi_ma` of the pattern
    * tests computes them; the day's is taken from the engine's own day
    * branch. */
  lemma PostHorses(e: ShenShaEngine)
    ensures Position(e, Year(NianYiMa)) == AddB(MengOf(e.baZi.yearZhi), 6)
    ensures Position(e, Month(YueYiMa)) == AddB(MengOf(e.baZi.monthZhi), 6)
    ensures Position(e, Day(RiYiMa)) == AddB(MengOf(e.dayZhi), 6)
    ensures IsMeng(Position(e, Year(NianYiMa))) && IsMeng(Position(e, Month(YueYiMa)))
    ensures IsMeng(Position(e, Day(RiYiMa)))
  {
    G.YiMaIsMeng(e.baZi.yearZhi);
    G.YiMaIsMeng(e.baZi.monthZhi);
    G.YiMaIsMeng(e.dayZhi);
  }

  /** The peach blossom and the salty pool are one spirit: the zhong branch
    * just after the meng branch of the day branch's group. */
  lemma PeachBlossom(e: ShenShaEngine)
    ensures Position(e, Day(XianChi)) == Position(e, Day(TaoHua))
    ensures Position(e, Day(TaoHua)) == AddB(MengOf(e.baZi.dayZhi), 1)
    ensures IsZhong(Position(e, Day(TaoHua)))
  {
    var h := MengOf(e.baZi.dayZhi);
    assert TaoHuaOf(h) == AddB(h, 1) && IsZhong(AddB(h, 1));
  }

  /** The six harmonies pair every branch with the one that sums with it to
    * 1 modulo 12; the pairing is total and its own inverse. */
  lemma HeInvolution(b: Branch)
    ensures b in HeTable()
    ensures He(b) == AddB(1, -(b as int))
    ensures He(He(b)) == b && He(b) != b
  {
  }

  /** `calc_po_sui` only ever gives You, Si or Chou: its last case cannot be
    * reached. */
  lemma PoSuiRange(m: Branch)
    ensures PoSuiOf(m) == You || PoSuiOf(m) == Si || PoSuiOf(m) == Chou
    ensures PoSuiOf(m) == [You, Si, Chou][MonthOffset(m) % 3]
  {
    var k := MonthOffset(m);
    CRemRange(k, 3);
    CRemRange(k - 1, 3);
    CRemRange(k - 2, 3);
    if k % 3 == 1 {
      assert CRem(k - 1, 3) == 0;
    } else if k % 3 == 2 {
      assert CRem(k - 1, 3) != 0 && CRem(k - 2, 3) == 0;
    }
  }

  /** `calc_sang_che`'s table index `offset / 3` is always inside its
    * four-entry table, once per season. */
  lemma SangCheRange(m: Branch)
    ensures 0 <= MonthOffset(m) / 3 < 4 && MonthOffset(m) / 3 == Season(m)
    ensures SangCheOf(m) == [You, Zi, Mao, Wu][Season(m)]
  {
  }

  /** The year and month punishments follow Yin to Si to Shen and back, Chou
    * to Xu to Wei and back, swap Zi and Mao, and send the self-punishing
    * branches Chen, Wu, You and Hai to Zi; elsewhere they are the
    * punishment table. */
  lemma PunishCycles(b: Branch)
    ensures IsMeng(b) && b != Hai ==> Punish(Punish(Punish(b))) == b
    ensures b == Chou || b == Xu || b == Wei ==> Punish(Punish(Punish(b))) == b
    ensures b == Zi || b == Mao ==> Punish(Punish(b)) == b
    ensures b == Chen || b == Wu || b == You || b == Hai ==> Punish(b) == Zi
    ensures XingOf(b) != b ==> Punish(b) == XingOf(b)
    ensures XingOf(b) == b ==> Punish(b) == Zi
  {
  }

  /** The day emolument, blade and virtue are the day branch exactly when the
    * day pillar is one of their listed pairs, and Zi otherwise. */
  lemma DayPairs(e: ShenShaEngine)
    ensures var g := e.baZi.dayGan;
            var d := e.baZi.dayZhi;
            (RiLuPair(g, d) ==> Position(e, Day(RiLu)) == d) && (!RiLuPair(g, d) ==> Position(e, Day(RiLu)) == Zi)
            && (YangRenPair(g, d) ==> Position(e, Day(YangRen)) == d)
            && (!YangRenPair(g, d) ==> Position(e, Day(YangRen)) == Zi)
            && (RiDePair(g, d) ==> Position(e, Day(RiDe)) == d) && (!RiDePair(g, d) ==> Position(e, Day(RiDe)) == Zi)
  {
  }

  /** `calc_ri_lu`'s pairs give every stem exactly one emolument branch
    * (Wu shares Bing's and Ji shares Ding's). */
  lemma RiLuPairsUnique(g: Stem, z: Branch)
    ensures RiLuPair(g, z) <==> z == LuOf(g)
  {
  }

  /** The emolument branch of each stem. */
  function LuOf(g: Stem): (z: Branch)
    ensures RiLuPair(g, z)
  {
    [Yin, Mao, Si, Wu, Si, Wu, Shen, You, Hai, Zi][g]
  }

  /** All three months of a season share their imperial writ, heavenly joy
    * and fire ghost. */
  lemma SeasonTables(m: Branch)
    ensures HuangShuOf(m) == [Yin, Si, Shen, Hai][Season(m)]
    ensures TianXiOf(m) == [Xu, Chou, Chen, Wei][Season(m)]
    ensures HuoGuiOf(m) == [Si, Shen, Hai, Yin][Season(m)]
  {
  }

  /** The month `m2` of the same season as `m` has the same seasonal
    * spirits. */
  lemma SameSeason(m: Branch, m2: Branch)
    requires Season(m) == Season(m2)
    ensures HuangShuOf(m) == HuangShuOf(m2) && TianXiOf(m) == TianXiOf(m2)
    ensures HuoGuiOf(m) == HuoGuiOf(m2) && SangCheOf(m) == SangCheOf(m2)
  {
    SeasonTables(m);
    SeasonTables(m2);
    SangCheRange(m);
    SangCheRange(m2);
  }

  /** The day marvel of a stem and the branch ceremony of a branch in closed
    * form: Wu counted back for the first six, one past the index for the
    * rest. */
  lemma RiQiZhiYiClosedForm(g: Stem, z: Branch)
    ensures RiQiOf(g) == if g <= 5 then 6 - g else g + 1
    ensures ZhiYiOf(z) == if z <= 5 then 6 - z else (z + 1) % 12
  {
    if g <= 5 {
      DivMod12(Wu - g, 0, 6 - g);
    } else {
      DivMod12(Wei + g - Geng, 0, g + 1);
    }
    if z <= 5 {
      DivMod12(Wu - z, 0, 6 - z);
    } else if z < 11 {
      DivMod12(Wei + z - Wu, 0, z + 1);
    } else {
      DivMod12(Wei + z - Wu, 1, 0);
    }
  }

  /** The day marvel and the branch ceremony never repeat: distinct stems
    * (branches) give distinct branches. */
  lemma RiQiZhiYiInjective(g1: Stem, g2: Stem, z1: Branch, z2: Branch)
    ensures RiQiOf(g1) == RiQiOf(g2) ==> g1 == g2
    ensures ZhiYiOf(z1) == ZhiYiOf(z2) ==> z1 == z2
  {
    RiQiZhiYiClosedForm(g1, z1);
    RiQiZhiYiClosedForm(g2, z2);
  }

  /** The week ceremony is the head of the day's week, the week's fourth day
    * branch (xun ding) comes one after it. */
  lemma WeekSpirits(e: ShenShaEngine)
    ensures Position(e, Day(XunYi)) == XunShou(e.baZi.dayGan, e.baZi.dayZhi)
    ensures Position(e, Day(XunDing)) == AddB(Position(e, Day(XunYi)), 1)
    ensures Position(e, Day(XunQi)) == G.MarvelOfHead(Position(e, Day(XunYi)))
  {
    var k := KongWang(e.baZi.dayGan, e.baZi.dayZhi).1;
    assert Position(e, Day(XunYi)) == AddB(k, 1);
    assert Position(e, Day(XunDing)) == AddB(k, 2);
    AddBAdd(k, 1, 1);
    assert Position(e, Day(XunQi)) == G.XunQi(e.baZi.dayGan, e.baZi.dayZhi);
    G.XunQiByWeek(e.baZi.dayGan, e.baZi.dayZhi);
  }

  /** The position of a mapped spirit in `MappedOrder`, -1 for the two
    * spirits left out of the index. */
  function MappedIndex(s: ShenSha): (i: int)
    ensures -1 <= i < |MappedOrder()|
    ensures i < 0 <==> s == Day(RiDe) || s == Day(RiLu)
  {
    match s
    case Basic(b) => BasicIndex(b)
    case Year(y) => 5 + YearIndex(y)
    case Month(m) => 17 + MonthIndex(m)
    case Day(d) => if d == RiDe || d == RiLu then -1 else 55 + DayIndex(d)
  }

  function BasicIndex(s: BasicShenSha): int
  {
    match s
    case TaiSui => 0 case YueJian => 1 case RiJian => 2 case YuePo => 3 case RiPo => 4
  }

  function YearIndex(s: YearShenSha): int
  {
    match s
    case NianYiMa => 0 case DaHao => 1 case XiaoHao => 2 case BingFu => 3 case SuiDe => 4 case
    SuiXing => 5 case SuiHe => 6 case JieSha => 7 case FeiLian => 8 case SangMen => 9 case
    DiaoKe => 10 case WangShen => 11
  }

  function MonthIndex(s: MonthShenSha): int
  {
    match s
    case YueYiMa => 0 case HuangShu => 1 case HuangEn => 2 case TianZhao => 3 case FeiHun => 4
    case TianXi => 5 case ShengQi => 6 case TianMa => 7 case SanQiu => 8 case WuMu => 9 case
    SiQi => 10 case ManYu => 11 case GuChen => 12 case GuaSu => 13 case TianYi => 14 case DiYi
    => 15 case TianWu => 16 case DiWu => 17 case PoSui => 18 case YueYan => 19 case XueZhi => 20
    case XueJi => 21 case SangChe => 22 case XinShen => 23 case TianJi => 24 case SangHun => 25
    case TianGui => 26 case DaShi => 27 case XiaoShi => 28 case YueHe => 29 case YueXing => 30
    case HuoGui => 31 case TianMu => 32 case JianShen => 33 case JianMen => 34 case YaoShen =>
    35 case FeiHuo => 36 case HongWan => 37
  }

  function DayIndex(s: DayShenSha): int
  {
    match s
    case RiYiMa => 0 case XunQi => 1 case RiQi => 2 case XunYi => 3 case ZhiYi => 4 case XunDing
    => 5 case ChengShen => 6 case TaoHua => 7 case XianChi => 8 case ZeiFu => 9 case SiFu => 10
    case SiShen => 11 case ZhiDe => 12 case YangRen => 13 case JieShen => 14 case RiDe => 15
    case RiLu => 16
  }

  /** No spirit is indexed twice, and the day virtue and emolument are not
    * indexed at all. */
  lemma MappedOrderDistinct()
    ensures Distinct(MappedOrder())
    ensures Day(RiDe) !in MappedOrder() && Day(RiLu) !in MappedOrder()
  {
    var o := MappedOrder();
    forall i | 0 <= i < |o|
      ensures MappedIndex(o[i]) == i
    {
      MappedIndexAt(i);
    }
  }

  /** `MappedIndex` inverts `MappedOrder`. */
  lemma MappedIndexAt(i: int)
    requires 0 <= i < |MappedOrder()|
    ensures MappedIndex(MappedOrder()[i]) == i
  {
    var o := MappedOrder();
    if i < 5 {
      assert o[i] == Basic(BasicAt(i));
      GroupIndexAt(i);
    } else if i < 17 {
      assert o[i] == Year(YearAt(i - 5));
      GroupIndexAt(i - 5);
    } else if i < 55 {
      assert o[i] == Month(MonthAt(i - 17));
      GroupIndexAt(i - 17);
    } else {
      assert o[i] == Day(DayAt(i - 55));
      GroupIndexAt(i - 55);
    }
  }

  /** Each group's index inverts its order. */
  lemma GroupIndexAt(k: int)
    ensures 0 <= k < 5 ==> BasicIndex(BasicAt(k)) == k
    ensures 0 <= k < 12 ==> YearIndex(YearAt(k)) == k
    ensures 0 <= k < 38 ==> MonthIndex(MonthAt(k)) == k
    ensures 0 <= k < 15 ==> DayIndex(DayAt(k)) == k && DayAt(k) != RiDe && DayAt(k) != RiLu
  {
  }

  /** `get_shensha_on_zhi` after `calculate`: the spirits on branch `b`, in
    * mapping order, each exactly once; every mapped spirit is listed on its
    * own branch and on no other. */
  lemma OnZhiSpec(e: ShenShaEngine, b: Branch)
    ensures var pos := Positions(e);
            var m := Mapping(pos, MappedOrder());
            var r := if b in m then m[b] else [];
            (forall s :: s in r <==> s in MappedOrder() && Position(e, s) == b)
            && Distinct(r)
  {
    var pos := Positions(e);
    assert forall s :: s in MappedOrder() ==> s in AllShenSha();
    MappingLists(pos, MappedOrder(), b);
    LabelsAtMembers(pos, MappedOrder(), b);
    MappedOrderDistinct();
    LabelsAtDistinct(pos, MappedOrder(), b);
  }

}
