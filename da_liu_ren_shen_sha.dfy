/** The spirits and killers (神煞) of src/da_liu_ren/da_liu_ren_shen_sha.cpp:
  * each is a branch computed from the year, month and day of the chart by a
  * fixed offset or a small table; `calculate` collects them and
  * `build_zhi_mapping` indexes them by branch. */
module LiuRenShenSha {
  import opened GanZhi
  import opened CArith
  import G = LiuRenGuaTi

  /** The engine's inputs: the chart, and the day branch passed to the
    * constructor separately (read by the day post horse and by `zhi_yi`). */
  datatype ShenShaEngine = ShenShaEngine(baZi: G.Pillars, dayZhi: Branch)

  /** The spirits `calculate` computes, in the four groups of its source:
    * the basic spirits, and those of the year, the month and the day. */
  datatype ShenSha =
    | Basic(basic: BasicShenSha)
    | Year(year: YearShenSha)
    | Month(month: MonthShenSha)
    | Day(day: DayShenSha)

  datatype BasicShenSha = TaiSui | YueJian | RiJian | YuePo | RiPo

  datatype YearShenSha =
    | NianYiMa | DaHao | XiaoHao | BingFu | SuiDe | SuiXing | SuiHe | JieSha | FeiLian
    | SangMen | DiaoKe | WangShen

  datatype MonthShenSha =
    | YueYiMa | HuangShu | HuangEn | TianZhao | FeiHun | TianXi | ShengQi | TianMa | SanQiu
    | WuMu | SiQi | ManYu | GuChen | GuaSu | TianYi | DiYi | TianWu | DiWu | PoSui | YueYan
    | XueZhi | XueJi | SangChe | XinShen | TianJi | SangHun | TianGui | DaShi | XiaoShi
    | YueHe | YueXing | HuoGui | TianMu | JianShen | JianMen | YaoShen | FeiHuo | HongWan

  /** The day spirits; the last two are computed but not indexed by
    * `build_zhi_mapping`. */
  datatype DayShenSha =
    | RiYiMa | XunQi | RiQi | XunYi | ZhiYi | XunDing | ChengShen | TaoHua | XianChi | ZeiFu
    | SiFu | SiShen | ZhiDe | YangRen | JieShen
    | RiDe | RiLu

  // ------------------------------------------------------ group search --

  /** `find_meng_zhi`: step +4 at most three times to a meng branch. */
  method FindMengZhi(start: Branch) returns (r: Branch)
    ensures r == MengOf(start)
  {
    var zhi := start;
    for i := 0 to 3
      invariant zhi == AddB(start, 4 * i) && i <= MengIndex(start)
    {
      if IsMeng(zhi) {
        return zhi;
      }
      AddBAdd(start, 4 * i, 4);
      zhi := AddB(zhi, 4);
    }
    assert false;
    r := Yin;
  }

  /** `find_zhong_zhi`: step +4 at most three times to a zhong branch. */
  method FindZhongZhi(start: Branch) returns (r: Branch)
    ensures r == ZhongOf(start)
  {
    var zhi := start;
    for i := 0 to 3
      invariant zhi == AddB(start, 4 * i) && i <= ZhongIndex(start)
    {
      if IsZhong(zhi) {
        return zhi;
      }
      AddBAdd(start, 4 * i, 4);
      zhi := AddB(zhi, 4);
    }
    assert false;
    r := Zi;
  }

  // ------------------------------------------------------------ tables --

  /** The month's distance from Yin, the first month of spring. */
  function MonthOffset(m: Branch): (k: int)
    ensures 0 <= k < 12
  {
    (m - Yin + 12) % 12
  }

  /** The season of a month: 0 spring (Yin, Mao, Chen) to 3 winter (Hai, Zi,
    * Chou). */
  function Season(m: Branch): (s: nat)
    ensures s < 4
  {
    MonthOffset(m) / 3
  }

  /** The six harmonies as a lookup table. */
  function HeTable(): map<Branch, Branch>
  {
    map[Zi := Chou, Chou := Zi, Yin := Hai, Hai := Yin, Mao := Xu, Xu := Mao,
        Chen := You, You := Chen, Si := Shen, Shen := Si, Wu := Wei, Wei := Wu]
  }

  /** `calc_sui_he` / `calc_yue_he`: the harmony partner, or Zi when the
    * table has no entry. */
  function He(b: Branch): Branch
  {
    if b in HeTable() then HeTable()[b] else Zi
  }

  /** The punishment cycles Yin-Si-Shen and Chou-Xu-Wei and the pair Zi-Mao;
    * every other branch goes to Zi. */
  function Punish(b: Branch): Branch
  {
    if b == Yin then Si
    else if b == Si then Shen
    else if b == Shen then Yin
    else if b == Chou then Xu
    else if b == Xu then Wei
    else if b == Wei then Chou
    else if b == Zi then Mao
    else if b == Mao then Zi
    else Zi
  }

  /** `calc_huang_shu`: the season's first month; winter and any other month
    * give Hai. */
  function HuangShuOf(m: Branch): Branch
  {
    if m == Yin || m == Mao || m == Chen then Yin
    else if m == Si || m == Wu || m == Wei then Si
    else if m == Shen || m == You || m == Xu then Shen
    else Hai
  }

  /** `calc_tian_xi`: Xu, Chou, Chen, and Wei by default. */
  function TianXiOf(m: Branch): Branch
  {
    if m == Yin || m == Mao || m == Chen then Xu
    else if m == Si || m == Wu || m == Wei then Chou
    else if m == Shen || m == You || m == Xu then Chen
    else Wei
  }

  /** `calc_huo_gui`: Si, Shen, Hai, Yin by season, Zi past every case. */
  function HuoGuiOf(m: Branch): Branch
  {
    if m == Yin || m == Mao || m == Chen then Si
    else if m == Si || m == Wu || m == Wei then Shen
    else if m == Shen || m == You || m == Xu then Hai
    else if m == Hai || m == Zi || m == Chou then Yin
    else Zi
  }

  /** `calc_po_sui`: You, Si or Chou by the month's distance from Yin
    * modulo 3, with C++ remainders, and Zi past every case. */
  function PoSuiOf(m: Branch): Branch
  {
    var offset := MonthOffset(m);
    if CRem(offset, 3) == 0 then You
    else if CRem(offset - 1, 3) == 0 then Si
    else if CRem(offset - 2, 3) == 0 then Chou
    else Zi
  }

  /** `calc_xue_ji`: Chou onward for the even months from Yin, Wei onward for
    * the odd ones (counted from Mao). */
  function XueJiOf(m: Branch): Branch
  {
    var offset := MonthOffset(m);
    if offset % 2 == 0 then AddB(Chou, offset / 2)
    else AddB(Wei, ((m - Mao + 12) % 12) / 2)
  }

  /** `calc_sang_che`: the season's entry of You, Zi, Mao, Wu. */
  function SangCheOf(m: Branch): Branch
  {
    var n := MonthOffset(m) / 3;
    [You, Zi, Mao, Wu][n]
  }

  /** `calc_ri_qi`: Wu counted back by the stem for Jia to Ji, Wei counted
    * on from Geng for the others. */
  function RiQiOf(g: Stem): Branch
  {
    var d := g - Jia;
    if d <= 5 then AddB(Wu, -1 * d) else AddB(Wei, g - Geng)
  }

  /** `calc_zhi_yi`: Wu counted back by the branch for Zi to Si, Wei counted
    * on from Wu for the others. */
  function ZhiYiOf(z: Branch): Branch
  {
    var d := z - Zi;
    if d <= 5 then AddB(Wu, -1 * d) else AddB(Wei, z - Wu)
  }

  /** `calc_tao_hua`: the peach blossom of the day branch's group. */
  function TaoHuaOf(meng: Branch): Branch
  {
    if meng == Shen then You
    else if meng == Yin then Mao
    else if meng == Si then Wu
    else if meng == Hai then Zi
    else Zi
  }

  /** The (day stem, day branch) pairs of `calc_ri_de`, `calc_ri_lu` and
    * `calc_yang_ren`. */
  predicate RiDePair(g: Stem, z: Branch)
  {
    ((g == Jia || g == WuGan || g == Geng) && (z == Chou || z == Wei))
    || ((g == Yi || g == Ji) && (z == Zi || z == Shen))
    || ((g == Bing || g == Ding) && (z == Hai || z == You))
    || ((g == Ren || g == Gui) && (z == Mao || z == Si))
    || (g == Xin && (z == Wu || z == Yin))
  }

  predicate RiLuPair(g: Stem, z: Branch)
  {
    (g == Jia && z == Yin) || (g == Yi && z == Mao) || ((g == Bing || g == WuGan) && z == Si)
    || ((g == Ding || g == Ji) && z == Wu) || (g == Geng && z == Shen) || (g == Xin && z == You)
    || (g == Ren && z == Hai) || (g == Gui && z == Zi)
  }

  predicate YangRenPair(g: Stem, z: Branch)
  {
    (g == Jia && z == Mao) || (g == Yi && z == Chen) || (g == Bing && z == Wu)
    || (g == Ding && z == Wei) || (g == WuGan && z == Wu) || (g == Ji && z == Wei)
    || (g == Geng && z == You) || (g == Xin && z == Xu) || (g == Ren && z == Zi)
    || (g == Gui && z == Chou)
  }

  // ---------------------------------------------------------- calc_* --

  /** The branch of each spirit, as the `calc_*` functions and `calculate`
    * compute it. */
  function Position(e: ShenShaEngine, s: ShenSha): Branch
  {
    match s
    case Basic(b) => BasicPosition(e.baZi, b)
    case Year(y) => YearPosition(e.baZi.yearZhi, y)
    case Month(m) => MonthPosition(e.baZi, m)
    case Day(d) => DayPosition(e, d)
  }

  function BasicPosition(p: G.Pillars, s: BasicShenSha): Branch
  {
    var m := p.monthZhi;
    var d := p.dayZhi;
    match s
    case TaiSui => p.yearZhi
    case YueJian => m
    case RiJian => d
    case YuePo => AddB(m, 6)
    case RiPo => AddB(d, 6)
  }

  /** `calc_nian_yi_ma`, `calc_da_hao`, ... from the year branch. */
  function YearPosition(y: Branch, s: YearShenSha): Branch
  {
    match s
    case NianYiMa => AddB(MengOf(y), 6)
    case DaHao => AddB(y, 6)
    case XiaoHao => AddB(y, 5)
    case BingFu => AddB(y, -1)
    case SuiDe => AddB(y, 3)
    case SuiXing => Punish(y)
    case SuiHe => He(y)
    case JieSha => AddB(y, -3)
    case FeiLian => AddB(y, -5)
    case SangMen => AddB(y, 3)
    case DiaoKe => AddB(y, -3)
    case WangShen => AddB(MengOf(y), -2)
  }

  /** The month spirits; `calc_fei_huo` reads the year and `calc_hong_wan`
    * the day. */
  function MonthPosition(p: G.Pillars, s: MonthShenSha): Branch
  {
    var m := p.monthZhi;
    match s
    case YueYiMa => AddB(MengOf(m), 6)
    case HuangShu => HuangShuOf(m)
    case HuangEn => AddB(Wei, MonthOffset(m) * 2)
    case TianZhao => AddB(m, -3)
    case FeiHun => AddB(m, -3)
    case TianXi => TianXiOf(m)
    case ShengQi => AddB(m, -2)
    case TianMa => G.TianMa(m)
    case SanQiu => AddB(MengOf(m), -1)
    case WuMu => AddB(AddB(MengOf(m), -1), 6)
    case SiQi => AddB(m, 4)
    case ManYu => AddB(m, 4)
    case GuChen => AddB(AddB(MengOf(m), -1), 4)
    case GuaSu => AddB(MengOf(m), -1)
    case TianYi => AddB(m, 2)
    case DiYi => AddB(AddB(m, 2), 6)
    case TianWu => AddB(m, 2)
    case DiWu => AddB(AddB(m, 2), 6)
    case PoSui => PoSuiOf(m)
    case YueYan => AddB(Zi, (Zi - m + 12) % 12)
    case XueZhi => AddB(m, -1)
    case XueJi => XueJiOf(m)
    case SangChe => SangCheOf(m)
    case XinShen => AddB(You, MonthOffset(m))
    case TianJi => AddB(You, (Yin - m + 12) % 12)
    case SangHun => AddB(MengOf(m), 5)
    case TianGui => AddB(MengOf(m), 7)
    case DaShi => AddB(ZhongOf(m), -3)
    case XiaoShi => m
    case YueHe => He(m)
    case YueXing => Punish(m)
    case HuoGui => HuoGuiOf(m)
    case TianMu => AddB(m, 4)
    case JianShen => AddB(m, 3)
    case JianMen => AddB(m, -3)
    case YaoShen => AddB(m, 5)
    case FeiHuo => AddB(p.yearZhi, -4)
    case HongWan => AddB(MengOf(p.dayZhi), 9)
  }

  /** The day spirits; the day post horse and `calc_zhi_yi` read the
    * engine's own day branch. */
  function DayPosition(e: ShenShaEngine, s: DayShenSha): Branch
  {
    var d := e.baZi.dayZhi;
    var g := e.baZi.dayGan;
    match s
    case RiYiMa => AddB(MengOf(e.dayZhi), 6)
    case XunQi => G.XunQi(g, d)
    case RiQi => RiQiOf(g)
    case XunYi => AddB(KongWang(g, d).1, 1)
    case ZhiYi => ZhiYiOf(e.dayZhi)
    case XunDing => AddB(KongWang(g, d).1, 2)
    case ChengShen => AddB(d, 4)
    case TaoHua => TaoHuaOf(MengOf(d))
    case XianChi => TaoHuaOf(MengOf(d))
    case ZeiFu => AddB(MengOf(d), 7)
    case SiFu => AddB(MengOf(d), 8)
    case SiShen => AddB(MengOf(d), -1)
    case ZhiDe => AddB(d, 5)
    case YangRen => if YangRenPair(g, d) then d else Zi
    case JieShen => AddB(d, 6)
    case RiDe => if RiDePair(g, d) then d else Zi
    case RiLu => if RiLuPair(g, d) then d else Zi
  }

  // ------------------------------------------------- build_zhi_mapping --

  /** The spirits `build_zhi_mapping` indexes, in its order: the basic,
    * year, month and day spirits. */
  function MappedOrder(): seq<ShenSha>
  {
    BasicOrder() + YearOrder() + MonthOrder() + DayOrder()
  }

  function BasicOrder(): seq<ShenSha>
  {
    seq(5, k requires 0 <= k < 5 => Basic(BasicAt(k)))
  }

  function YearOrder(): seq<ShenSha>
  {
    seq(12, k requires 0 <= k < 12 => Year(YearAt(k)))
  }

  function MonthOrder(): seq<ShenSha>
  {
    seq(38, k requires 0 <= k < 38 => Month(MonthAt(k)))
  }

  function DayOrder(): seq<ShenSha>
  {
    seq(15, k requires 0 <= k < 15 => Day(DayAt(k)))
  }

  /** The `k`-th spirit of each group in `build_zhi_mapping`. */
  function BasicAt(k: int): BasicShenSha
    requires 0 <= k < 5
  {
    match k
    case 0 => TaiSui case 1 => YueJian case 2 => RiJian case 3 => YuePo case _ => RiPo
  }

  function YearAt(k: int): YearShenSha
    requires 0 <= k < 12
  {
    match k
    case 0 => NianYiMa case 1 => DaHao case 2 => XiaoHao case 3 => BingFu case 4 => SuiDe case 5
    => SuiXing case 6 => SuiHe case 7 => JieSha case 8 => FeiLian case 9 => SangMen case 10 =>
    DiaoKe case _ => WangShen
  }

  function MonthAt(k: int): MonthShenSha
    requires 0 <= k < 38
  {
    match k
    case 0 => YueYiMa case 1 => HuangShu case 2 => HuangEn case 3 => TianZhao case 4 => FeiHun
    case 5 => TianXi case 6 => ShengQi case 7 => TianMa case 8 => SanQiu case 9 => WuMu case 10
    => SiQi case 11 => ManYu case 12 => GuChen case 13 => GuaSu case 14 => TianYi case 15 =>
    DiYi case 16 => TianWu case 17 => DiWu case 18 => PoSui case 19 => YueYan case 20 => XueZhi
    case 21 => XueJi case 22 => SangChe case 23 => XinShen case 24 => TianJi case 25 => SangHun
    case 26 => TianGui case 27 => DaShi case 28 => XiaoShi case 29 => YueHe case 30 => YueXing
    case 31 => HuoGui case 32 => TianMu case 33 => JianShen case 34 => JianMen case 35 =>
    YaoShen case 36 => FeiHuo case _ => HongWan
  }

  function DayAt(k: int): DayShenSha
    requires 0 <= k < 15
  {
    match k
    case 0 => RiYiMa case 1 => XunQi case 2 => RiQi case 3 => XunYi case 4 => ZhiYi case 5 =>
    XunDing case 6 => ChengShen case 7 => TaoHua case 8 => XianChi case 9 => ZeiFu case 10 =>
    SiFu case 11 => SiShen case 12 => ZhiDe case 13 => YangRen case _ => JieShen
  }

  /** Every spirit `calculate` computes. */
  function AllShenSha(): seq<ShenSha>
  {
    MappedOrder() + [Day(RiDe), Day(RiLu)]
  }

  /** The branch of every spirit. */
  function Positions(e: ShenShaEngine): (pos: map<ShenSha, Branch>)
    ensures forall s :: s in pos <==> s in AllShenSha()
    ensures forall s :: s in pos ==> pos[s] == Position(e, s)
  {
    map s | s in AllShenSha() :: Position(e, s)
  }

  /** The index after appending `labels` in order, each to the list of its
    * branch. */
  function Mapping(pos: map<ShenSha, Branch>, labels: seq<ShenSha>): map<Branch, seq<ShenSha>>
    requires forall s :: s in labels ==> s in pos
  {
    if labels == [] then map[]
    else
      var prev := Mapping(pos, labels[..|labels| - 1]);
      var s := labels[|labels| - 1];
      var b := pos[s];
      prev[b := (if b in prev then prev[b] else []) + [s]]
  }

  /** The labels of `labels` whose branch is `b`, in order. */
  function LabelsAt(pos: map<ShenSha, Branch>, labels: seq<ShenSha>, b: Branch): seq<ShenSha>
    requires forall s :: s in labels ==> s in pos
  {
    if labels == [] then []
    else
      LabelsAt(pos, labels[..|labels| - 1], b)
      + (if pos[labels[|labels| - 1]] == b then [labels[|labels| - 1]] else [])
  }

  /** The list of each branch in the index is the in-order list of labels on
    * that branch, and a branch has an entry exactly when some label is on
    * it. */
  lemma {:induction false} MappingLists(pos: map<ShenSha, Branch>, labels: seq<ShenSha>, b: Branch)
    requires forall s :: s in labels ==> s in pos
    ensures var m := Mapping(pos, labels);
            (if b in m then m[b] else []) == LabelsAt(pos, labels, b)
            && (b in m <==> LabelsAt(pos, labels, b) != [])
  {
    if labels != [] {
      var init := labels[..|labels| - 1];
      assert forall s :: s in init ==> s in labels;
      MappingLists(pos, init, b);
      var s := labels[|labels| - 1];
      if pos[s] == b {
        var prev := Mapping(pos, init);
        assert (if b in prev then prev[b] else []) + [s] == LabelsAt(pos, init, b) + [s];
      }
    }
  }

  /** A label is on the list of branch `b` exactly when it is one of the
    * labels and its branch is `b`. */
  lemma {:induction false} LabelsAtMembers(pos: map<ShenSha, Branch>, labels: seq<ShenSha>, b: Branch)
    requires forall s :: s in labels ==> s in pos
    ensures forall s :: s in LabelsAt(pos, labels, b) <==> s in labels && pos[s] == b
  {
    if labels != [] {
      var init := labels[..|labels| - 1];
      assert labels == init + [labels[|labels| - 1]];
      assert forall s :: s in init ==> s in labels;
      LabelsAtMembers(pos, init, b);
    }
  }

  /** No element of `s` is repeated. */
  predicate Distinct<T(==)>(s: seq<T>)
  {
    forall i, j :: 0 <= i < j < |s| ==> s[i] != s[j]
  }

  /** When the labels do not repeat, no branch's list does. */
  lemma {:induction false} LabelsAtDistinct(pos: map<ShenSha, Branch>, labels: seq<ShenSha>, b: Branch)
    requires forall s :: s in labels ==> s in pos
    requires Distinct(labels)
    ensures Distinct(LabelsAt(pos, labels, b))
  {
    if labels != [] {
      var init := labels[..|labels| - 1];
      var last := labels[|labels| - 1];
      assert forall s :: s in init ==> s in labels;
      forall i, j | 0 <= i < j < |init|
        ensures init[i] != init[j]
      {
        assert init[i] == labels[i] && init[j] == labels[j];
      }
      LabelsAtDistinct(pos, init, b);
      LabelsAtMembers(pos, init, b);
      var prev := LabelsAt(pos, init, b);
      if pos[last] == b {
        forall k | 0 <= k < |init|
          ensures init[k] != last
        {
          assert init[k] == labels[k];
        }
        var r := prev + [last];
        assert LabelsAt(pos, labels, b) == r;
        forall i, j | 0 <= i < j < |r|
          ensures r[i] != r[j]
        {
          if j == |prev| {
            assert r[i] == prev[i] && prev[i] in prev;
          } else {
            assert r[i] == prev[i] && r[j] == prev[j];
          }
        }
      } else {
        assert LabelsAt(pos, labels, b) == prev;
      }
    }
  }

  /** The result of `calculate`: the spirits' branches and the branch index. */
  class ShenShaResult {
    var positions: map<ShenSha, Branch>
    var zhiToShenSha: map<Branch, seq<ShenSha>>

    constructor ()
      ensures positions == map[] && zhiToShenSha == map[]
    {
      positions := map[];
      zhiToShenSha := map[];
    }

    /** `build_zhi_mapping`: clear the index, then append every mapped spirit
      * to the list of its branch. */
    method BuildZhiMapping()
      modifies this
      requires forall s :: s in MappedOrder() ==> s in positions
      ensures positions == old(positions)
      ensures zhiToShenSha == Mapping(positions, MappedOrder())
    {
      zhiToShenSha := map[];
      var order := MappedOrder();
      for i := 0 to |order|
        invariant positions == old(positions)
        invariant forall s :: s in order[..i] ==> s in positions
        invariant zhiToShenSha == Mapping(positions, order[..i])
      {
        assert order[..i + 1][..i] == order[..i];
        var s := order[i];
        var b := positions[s];
        var list := if b in zhiToShenSha then zhiToShenSha[b] else [];
        zhiToShenSha := zhiToShenSha[b := list + [s]];
      }
      assert order[..|order|] == order;
    }

    /** `get_shensha_on_zhi`: the list of a branch, or an empty one. */
    method GetShenShaOnZhi(zhi: Branch) returns (r: seq<ShenSha>)
      ensures r == if zhi in zhiToShenSha then zhiToShenSha[zhi] else []
    {
      if zhi in zhiToShenSha {
        r := zhiToShenSha[zhi];
      } else {
        r := [];
      }
    }
  }

  /** `calculate`: every spirit's branch, then the branch index. */
  method Calculate(e: ShenShaEngine) returns (result: ShenShaResult)
    ensures fresh(result)
    ensures result.positions == Positions(e)
    ensures result.zhiToShenSha == Mapping(Positions(e), MappedOrder())
  {
    result := new ShenShaResult();
    result.positions := Positions(e);
    assert forall s :: s in MappedOrder() ==> s in AllShenSha();
    result.BuildZhiMapping();
  }
}
