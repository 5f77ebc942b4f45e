/** The gua-ti (卦体) pattern tests of src/da_liu_ren/da_liu_ren_guati.cpp:
  * predicates over the four lessons, the three transmissions and the plate,
  * and `judge_all`, which lists the patterns that hold in a fixed order. */
module LiuRenGuaTi {
  import opened GanZhi
  import opened LiuRenPlate
  import opened LiuRenSanChuan

  /** The parts of the birth chart the tests read: the year and month
    * branches and the day pillar. */
  datatype Pillars = Pillars(yearZhi: Branch, monthZhi: Branch, dayGan: Stem, dayZhi: Branch)

  /** The thirteen pattern names, in the order `judge_all` tries them. */
  datatype GuaTi =
    | FuYinGua | FanYinGua | LongDe | SanQi | LiuYi | ZhuYin | ZhuoLun
    | XuanGai | GuanJue | JiuChou | LuoWang | LianZhu | LianRu

  function AllGuaTi(): seq<GuaTi>
  {
    [FuYinGua, FanYinGua, LongDe, SanQi, LiuYi, ZhuYin, ZhuoLun,
     XuanGai, GuanJue, JiuChou, LuoWang, LianZhu, LianRu]
  }

  /** `SiKe::get_gan` and `get_zhi`: the day stem and the day branch, the
    * lower parts of the first and third lessons. */
  function DayStem(sk: SiKe): Stem { sk.first.gan }
  function DayBranch(sk: SiKe): Branch { sk.third.lowerZhi }

  /** `b` is one of the three transmissions. */
  predicate InTransmission(t: Transmission, b: Branch)
  {
    b == t.chu || b == t.zhong || b == t.mo
  }

  // ------------------------------------------------------------ helpers --

  /** `calc_xun_qi`: the week's marvel, read off the branch after the second
    * void branch. */
  function XunQi(gan: Stem, zhi: Branch): (r: Branch)
    ensures r == Zi || r == Chou || r == Hai
  {
    MarvelOfHead(AddB(KongWang(gan, zhi).1, 1))
  }

  function MarvelOfHead(xunShou: Branch): (r: Branch)
    ensures r == Zi || r == Chou || r == Hai
  {
    if xunShou == Xu || xunShou == Zi then Chou
    else if xunShou == Shen || xunShou == Wu then Zi
    else if xunShou == Yin || xunShou == Chen then Hai
    else Chou
  }

  /** The branch after the second void branch is the week head, so the marvel
    * is read off the week head. */
  lemma XunQiByWeek(gan: Stem, zhi: Branch)
    ensures XunQi(gan, zhi) == MarvelOfHead(XunShou(gan, zhi))
  {
    var k := KongWang(gan, zhi);
    assert AddB(k.1, 1) == XunShou(gan, zhi);
  }

  /** `calc_tian_ma`: Wu advanced by twice the month's distance from Yin. */
  function TianMa(monthZhi: Branch): (r: Branch)
  {
    AddB(Wu, 2 * ((monthZhi - Yin + 12) % 12))
  }

  /** The heavenly horse is Wu advanced by twice the month's signed distance
    * from Yin. */
  lemma TianMaClosedForm(monthZhi: Branch)
    ensures TianMa(monthZhi) == AddB(Wu, 2 * monthZhi - 4)
  {
    var m := monthZhi as int;
    var q1 := (m + 10) / 12;
    var k := (m - Yin + 12) % 12;
    DivMod12(m + 10, q1, k);
    var y := 2 * m + 2;
    DivMod12(6 + 2 * k, y / 12 + 2 * (1 - q1), y % 12);
  }

  /** The heavenly horse always has Wu's (yang) parity. */
  lemma TianMaIsYang(monthZhi: Branch)
    ensures IsYangBranch(TianMa(monthZhi))
  {
    var k := (monthZhi - Yin + 12) % 12;
    if k < 3 {
      DivMod12(6 + 2 * k, 0, 6 + 2 * k);
    } else if k < 9 {
      DivMod12(6 + 2 * k, 1, 2 * k - 6);
    } else {
      DivMod12(6 + 2 * k, 2, 2 * k - 18);
    }
  }

  /** The heavenly horse moves two steps for each step of the month. */
  lemma TianMaStep(monthZhi: Branch)
    ensures TianMa(AddB(monthZhi, 1)) == AddB(TianMa(monthZhi), 2)
  {
    var m := monthZhi as int;
    TianMaClosedForm(monthZhi);
    TianMaClosedForm(AddB(monthZhi, 1));
    AddBAdd(Wu, 2 * m - 4, 2);
    if m == 11 {
      assert AddB(monthZhi, 1) == 0;
    } else {
      assert AddB(monthZhi, 1) == m + 1;
    }
  }

  /** `calc_yi_ma`: step +4 at most three times to the meng branch of the
    * same group, then take its opposite. */
  method CalcYiMa(zhi: Branch) returns (r: Branch)
    ensures r == AddB(MengOf(zhi), 6)
  {
    var temp := zhi;
    for i := 0 to 3
      invariant temp == AddB(zhi, 4 * i) && i <= MengIndex(zhi)
    {
      if IsMeng(temp) {
        break;
      }
      AddBAdd(zhi, 4 * i, 4);
      temp := AddB(temp, 4);
    }
    r := AddB(temp, 6);
  }

  /** The post horse is always a meng branch and lies in the same group of
    * four as the branch it is taken for, shifted by six. */
  lemma YiMaIsMeng(zhi: Branch)
    ensures IsMeng(AddB(MengOf(zhi), 6))
    ensures (AddB(MengOf(zhi), 6) - zhi - 6) % 4 == 0
  {
    var h := MengOf(zhi);
    var r := AddB(h, 6);
    MengZhongResidues(h);
    MengZhongResidues(r);
    DivMod12(h as int + 6, (h as int + 6) / 12, r);
  }

  // ------------------------------------------------- the pattern tests --

  /** `is_fu_yin`: the day branch's upper spirit is the day branch itself. */
  predicate IsFuYin(sk: SiKe) { sk.zhiYangShen == DayBranch(sk) }

  /** `is_fan_yin`: the day branch's upper spirit is its opposite. */
  predicate IsFanYin(sk: SiKe) { sk.zhiYangShen == AddB(DayBranch(sk), 6) }

  /** The two can never hold together. */
  lemma FuFanYinExclusive(sk: SiKe)
    ensures !(IsFuYin(sk) && IsFanYin(sk))
  {
  }

  /** `is_long_de`: the initial transmission is the month general and the
    * year branch is among the transmissions. */
  predicate IsLongDe(bz: Pillars, yueJiang: Branch, t: Transmission)
  {
    t.chu == yueJiang && InTransmission(t, bz.yearZhi)
  }

  /** `is_san_qi`: the week's marvel is among the transmissions. */
  predicate IsSanQi(bz: Pillars, t: Transmission)
  {
    InTransmission(t, XunQi(bz.dayGan, bz.dayZhi))
  }

  /** `is_liu_yi`: the week head is among the transmissions. */
  predicate IsLiuYi(bz: Pillars, t: Transmission)
  {
    InTransmission(t, XunShou(bz.dayGan, bz.dayZhi))
  }

  /** `is_zhu_yin`: Xu stands over Si on the plate, and Si, Xu and Mao are
    * all among the transmissions. */
  predicate IsZhuYin(p: Plate, t: Transmission)
    requires ValidPlate(p)
  {
    At(p, Si) == Xu && InTransmission(t, Si) && InTransmission(t, Xu) && InTransmission(t, Mao)
  }

  /** `is_zhuo_lun`: the initial transmission is Mao, and either Mao is the
    * stem's upper spirit on a Geng or Xin day, or Mao stands over Shen or
    * You. */
  predicate IsZhuoLun(p: Plate, sk: SiKe, t: Transmission)
    requires ValidPlate(p)
  {
    if t.chu != Mao then false
    else if sk.ganYangShen == Mao && (DayStem(sk) == Geng || DayStem(sk) == Xin) then true
    else Lin(p, Mao) == Shen || Lin(p, Mao) == You
  }

  /** `is_zhuo_lun` as a single condition. */
  lemma ZhuoLunCondition(p: Plate, sk: SiKe, t: Transmission)
    requires ValidPlate(p)
    ensures IsZhuoLun(p, sk, t) <==>
              t.chu == Mao
              && ((sk.ganYangShen == Mao && (DayStem(sk) == Geng || DayStem(sk) == Xin))
                  || At(p, Shen) == Mao || At(p, You) == Mao)
  {
    var x := Lin(p, Mao);
    assert At(p, x) == Mao;
    if At(p, Shen) == Mao {
      assert Lin(p, At(p, Shen)) == Shen;
    }
    if At(p, You) == Mao {
      assert Lin(p, At(p, You)) == You;
    }
  }

  /** `is_xuan_gai`: Zi, Mao and the heavenly horse are all among the
    * transmissions. */
  predicate IsXuanGai(bz: Pillars, t: Transmission)
  {
    InTransmission(t, Zi) && InTransmission(t, Mao) && InTransmission(t, TianMa(bz.monthZhi))
  }

  /** `is_guan_jue`, in its simplified form: Xu is among the transmissions. */
  predicate IsGuanJue(bz: Pillars, t: Transmission)
  {
    InTransmission(t, Xu)
  }

  /** `is_jiu_chou`: a Yi, Wu, Ji, Xin or Ren day on a Zi, Mao, Wu or You
    * branch whose upper spirit is Chou. */
  predicate IsJiuChou(sk: SiKe)
  {
    var g := DayStem(sk);
    var z := DayBranch(sk);
    (g == Yi || g == WuGan || g == Ji || g == Xin || g == Ren)
    && (z == Zi || z == Mao || z == Wu || z == You)
    && sk.zhiYangShen == Chou
  }

  /** The seven branches `is_luo_wang` scans: the four upper spirits of the
    * lessons and the three transmissions. */
  function LuoWangBranches(sk: SiKe, t: Transmission): (r: seq<Branch>)
    ensures |r| == 7
  {
    [sk.ganYangShen, sk.second.upper, sk.zhiYangShen, sk.fourth.upper, t.chu, t.zhong, t.mo]
  }

  /** `is_luo_wang`: the four tombs Chen, Xu, Chou and Wei all occur among
    * those seven branches. */
  predicate IsLuoWang(sk: SiKe, t: Transmission)
  {
    var all := LuoWangBranches(sk, t);
    Chen in all && Xu in all && Chou in all && Wei in all
  }

  /** The flag loop of `is_luo_wang`. */
  method CheckLuoWang(sk: SiKe, t: Transmission) returns (r: bool)
    ensures r == IsLuoWang(sk, t)
  {
    var all := LuoWangBranches(sk, t);
    var hasChen, hasXu, hasChou, hasWei := false, false, false, false;
    for i := 0 to 7
      invariant hasChen == (Chen in all[..i]) && hasXu == (Xu in all[..i])
      invariant hasChou == (Chou in all[..i]) && hasWei == (Wei in all[..i])
    {
      assert all[..i + 1] == all[..i] + [all[i]];
      var z := all[i];
      if z == Chen { hasChen := true; }
      if z == Xu { hasXu := true; }
      if z == Chou { hasChou := true; }
      if z == Wei { hasWei := true; }
    }
    assert all[..7] == all;
    r := hasChen && hasXu && hasChou && hasWei;
  }

  /** `is_lian_zhu`: the transmissions climb one branch at a time. */
  predicate IsLianZhu(t: Transmission)
  {
    t.zhong == (t.chu + 1) % 12 && t.mo == (t.zhong + 1) % 12
  }

  /** `is_lian_ru`: the transmissions descend one branch at a time. */
  predicate IsLianRu(t: Transmission)
  {
    t.zhong == (t.chu - 1 + 12) % 12 && t.mo == (t.zhong - 1 + 12) % 12
  }

  /** Climbing and descending are the steps +1 and -1 on the branch circle;
    * no transmission does both, and Zi-Chou-Yin climbs while Yin-Chou-Zi
    * descends. */
  lemma LianZhuLianRu(t: Transmission)
    ensures IsLianZhu(t) <==> t.zhong == AddB(t.chu, 1) && t.mo == AddB(t.zhong, 1)
    ensures IsLianRu(t) <==> t.zhong == AddB(t.chu, -1) && t.mo == AddB(t.zhong, -1)
    ensures !(IsLianZhu(t) && IsLianRu(t))
    ensures IsLianZhu(Transmission(Zi, Chou, Yin)) && IsLianRu(Transmission(Yin, Chou, Zi))
  {
    DivMod12(t.chu - 1 + 12, (t.chu + 11) / 12, (t.chu + 11) % 12);
    DivMod12(t.chu - 1, (t.chu + 11) / 12 - 1, (t.chu + 11) % 12);
    DivMod12(t.zhong - 1 + 12, (t.zhong + 11) / 12, (t.zhong + 11) % 12);
    DivMod12(t.zhong - 1, (t.zhong + 11) / 12 - 1, (t.zhong + 11) % 12);
  }

  // -------------------------------------------------------- judge_all --

  /** Whether pattern `g` holds for the chart, plate, lessons and
    * transmissions. */
  predicate Holds(g: GuaTi, bz: Pillars, yueJiang: Branch, p: Plate, sk: SiKe, t: Transmission)
    requires ValidPlate(p)
  {
    match g
    case FuYinGua => IsFuYin(sk)
    case FanYinGua => IsFanYin(sk)
    case LongDe => IsLongDe(bz, yueJiang, t)
    case SanQi => IsSanQi(bz, t)
    case LiuYi => IsLiuYi(bz, t)
    case ZhuYin => IsZhuYin(p, t)
    case ZhuoLun => IsZhuoLun(p, sk, t)
    case XuanGai => IsXuanGai(bz, t)
    case GuanJue => IsGuanJue(bz, t)
    case JiuChou => IsJiuChou(sk)
    case LuoWang => IsLuoWang(sk, t)
    case LianZhu => IsLianZhu(t)
    case LianRu => IsLianRu(t)
  }

  /** The position of a pattern in the order of the checks. */
  function Rank(g: GuaTi): (k: nat)
    ensures k < 13 && AllGuaTi()[k] == g
  {
    match g
    case FuYinGua => 0 case FanYinGua => 1 case LongDe => 2 case SanQi => 3
    case LiuYi => 4 case ZhuYin => 5 case ZhuoLun => 6 case XuanGai => 7
    case GuanJue => 8 case JiuChou => 9 case LuoWang => 10 case LianZhu => 11
    case LianRu => 12
  }

  /** The verdicts of the thirteen tests, in check order. */
  function Verdicts(bz: Pillars, yueJiang: Branch, p: Plate, sk: SiKe, t: Transmission): (v: seq<bool>)
    requires ValidPlate(p)
    ensures |v| == 13 && forall g :: v[Rank(g)] == Holds(g, bz, yueJiang, p, sk, t)
  {
    seq(13, i requires 0 <= i < 13 => Holds(AllGuaTi()[i], bz, yueJiang, p, sk, t))
  }

  /** The patterns of `gs` whose verdict in `v` is true, in the order of `gs`. */
  function Select(gs: seq<GuaTi>, v: seq<bool>): seq<GuaTi>
    requires |v| == 13
  {
    if gs == [] then []
    else Select(gs[..|gs| - 1], v) + (if v[Rank(gs[|gs| - 1])] then [gs[|gs| - 1]] else [])
  }

  /** The `i`-th check of the list has rank `i`. */
  lemma RankOfCheck(i: int)
    requires 0 <= i < 13
    ensures Rank(AllGuaTi()[i]) == i
  {
  }

  /** Extending the prefix of `gs` by one pattern appends that pattern
    * exactly when its verdict is true. */
  lemma SelectStep(gs: seq<GuaTi>, v: seq<bool>, i: nat)
    requires |v| == 13 && i < |gs|
    ensures Select(gs[..i + 1], v) == Select(gs[..i], v) + (if v[Rank(gs[i])] then [gs[i]] else [])
  {
    assert gs[..i + 1][..i] == gs[..i];
  }

  /** One test of `judge_all`, dispatched on the pattern's name. */
  method Test(g: GuaTi, bz: Pillars, yueJiang: Branch, p: Plate, sk: SiKe, t: Transmission)
    returns (holds: bool)
    requires ValidPlate(p)
    ensures holds == Holds(g, bz, yueJiang, p, sk, t)
  {
    match g {
      case FuYinGua => holds := IsFuYin(sk);
      case FanYinGua => holds := IsFanYin(sk);
      case LongDe => holds := IsLongDe(bz, yueJiang, t);
      case SanQi => holds := IsSanQi(bz, t);
      case LiuYi => holds := IsLiuYi(bz, t);
      case ZhuYin => holds := IsZhuYin(p, t);
      case ZhuoLun => holds := IsZhuoLun(p, sk, t);
      case XuanGai => holds := IsXuanGai(bz, t);
      case GuanJue => holds := IsGuanJue(bz, t);
      case JiuChou => holds := IsJiuChou(sk);
      case LuoWang => holds := CheckLuoWang(sk, t);
      case LianZhu => holds := IsLianZhu(t);
      case LianRu => holds := IsLianRu(t);
    }
  }

  /** `judge_all`: each test in turn, appending its name when it holds. */
  method JudgeAll(bz: Pillars, yueJiang: Branch, p: Plate, sk: SiKe, t: Transmission)
    returns (names: seq<GuaTi>)
    requires ValidPlate(p)
    ensures names == Select(AllGuaTi(), Verdicts(bz, yueJiang, p, sk, t))
  {
    var all := AllGuaTi();
    ghost var v := Verdicts(bz, yueJiang, p, sk, t);
    names := [];
    for i := 0 to 13
      invariant names == Select(all[..i], v)
    {
      var g := all[i];
      SelectStep(all, v, i);
      RankOfCheck(i);
      var holds := Test(g, bz, yueJiang, p, sk, t);
      if holds {
        names := names + [g];
      }
    }
    assert all[..13] == all;
  }

  /** The names `Select` keeps are exactly those of `gs` with a true
    * verdict. */
  lemma {:induction false} SelectMembers(gs: seq<GuaTi>, v: seq<bool>)
    requires |v| == 13
    ensures forall g :: g in Select(gs, v) <==> g in gs && v[Rank(g)]
  {
    if gs != [] {
      SelectMembers(gs[..|gs| - 1], v);
      assert gs == gs[..|gs| - 1] + [gs[|gs| - 1]];
    }
  }

  /** When `gs` is in check order, so is what `Select` keeps. */
  lemma {:induction false} SelectOrdered(gs: seq<GuaTi>, v: seq<bool>)
    requires |v| == 13
    requires forall i, j :: 0 <= i < j < |gs| ==> Rank(gs[i]) < Rank(gs[j])
    ensures forall i, j :: 0 <= i < j < |Select(gs, v)| ==> Rank(Select(gs, v)[i]) < Rank(Select(gs, v)[j])
  {
    if gs != [] {
      var init := gs[..|gs| - 1];
      var last := gs[|gs| - 1];
      forall i, j | 0 <= i < j < |init|
        ensures Rank(init[i]) < Rank(init[j])
      {
        assert init[i] == gs[i] && init[j] == gs[j];
      }
      SelectOrdered(init, v);
      SelectMembers(init, v);
      var prev := Select(init, v);
      forall l | l in prev
        ensures Rank(l) < Rank(last)
      {
        var i :| 0 <= i < |init| && init[i] == l;
        assert gs[i] == l;
      }
    }
  }

  /** Selecting from the full check list keeps a name exactly when its
    * verdict is true, in check order and without repeats. */
  lemma SelectAll(v: seq<bool>)
    requires |v| == 13
    ensures var r := Select(AllGuaTi(), v);
            (forall g :: g in r <==> v[Rank(g)])
            && (forall i, j :: 0 <= i < j < |r| ==> Rank(r[i]) < Rank(r[j]))
            && (forall i, j :: 0 <= i < j < |r| ==> r[i] != r[j])
  {
    var all := AllGuaTi();
    forall i, j | 0 <= i < j < |all|
      ensures Rank(all[i]) < Rank(all[j])
    {
    }
    SelectMembers(all, v);
    SelectOrdered(all, v);
    forall g: GuaTi
      ensures g in all
    {
      assert all[Rank(g)] == g;
    }
  }

  /** What `judge_all` promises: a name appears exactly when its test holds,
    * at most once, and in the order of the checks. */
  lemma JudgeAllSpec(bz: Pillars, yueJiang: Branch, p: Plate, sk: SiKe, t: Transmission)
    requires ValidPlate(p)
    ensures var r := Select(AllGuaTi(), Verdicts(bz, yueJiang, p, sk, t));
            (forall g :: g in r <==> Holds(g, bz, yueJiang, p, sk, t))
            && (forall i, j :: 0 <= i < j < |r| ==> Rank(r[i]) < Rank(r[j]))
            && (forall i, j :: 0 <= i < j < |r| ==> r[i] != r[j])
  {
    SelectAll(Verdicts(bz, yueJiang, p, sk, t));
  }
}
