/** The pattern analyzer (格局) of a Zi Wei chart. Given the star names of the
  * twelve palaces, the branch of each palace and the index of the Ming
  * palace, it lists the auspicious patterns (吉格) and the inauspicious ones
  * (凶格) that the chart shows, scores them, and names the pairs of main
  * stars that share a palace (双星). The analyzer never changes after it is
  * built, so it is a value here. */
module ZiWeiGeJu {
  import opened GanZhi
  import opened Wrappers
  import opened ZiWeiSanFang

  // ---------------------------------------------------------------------
  // The analyzer and its helpers

  /** `GeJuAnalyzer`: the palace star lists, the palace branches and the Ming
    * palace index it was built with. */
  datatype Chart = Chart(starsInGong: seq<seq<string>>, gongDiZhi: seq<Branch>, mingGongIndex: int)

  /** Both per-palace tables have one entry per palace, as the fixed-size
    * arrays of the constructor do. */
  predicate WellSized(c: Chart)
  {
    |c.starsInGong| == 12 && |c.gongDiZhi| == 12
  }

  /** The star list of a palace; any index is first brought into the ring. */
  function GongStars(c: Chart, gongIndex: int): seq<string>
    requires WellSized(c)
  {
    c.starsInGong[FixIndex(gongIndex)]
  }

  /** `get_gong_di_zhi`. */
  function GongDiZhi(c: Chart, gongIndex: int): Branch
    requires WellSized(c)
  {
    c.gongDiZhi[FixIndex(gongIndex)]
  }

  /** `gong_has_star`. */
  predicate GongHasStar(c: Chart, gongIndex: int, starName: string)
    requires WellSized(c)
  {
    starName in GongStars(c, gongIndex)
  }

  /** `gong_has_all_stars` and `gong_has_any_star` as predicates. */
  predicate GongHasAll(c: Chart, gongIndex: int, names: seq<string>)
    requires WellSized(c)
  {
    AllIn(names, GongStars(c, gongIndex))
  }

  predicate GongHasAny(c: Chart, gongIndex: int, names: seq<string>)
    requires WellSized(c)
  {
    AnyIn(names, GongStars(c, gongIndex))
  }

  /** `gong_has_all_stars`: returns false at the first missing star. */
  method GongHasAllStars(c: Chart, gongIndex: int, names: seq<string>) returns (b: bool)
    requires WellSized(c)
    ensures b <==> forall k :: 0 <= k < |names| ==> names[k] in c.starsInGong[FixIndex(gongIndex)]
  {
    b := HasAll(c.starsInGong[FixIndex(gongIndex)], names);
  }

  /** `gong_has_any_star`: returns true at the first star present. */
  method GongHasAnyStar(c: Chart, gongIndex: int, names: seq<string>) returns (b: bool)
    requires WellSized(c)
    ensures b <==> exists k :: 0 <= k < |names| && names[k] in c.starsInGong[FixIndex(gongIndex)]
  {
    b := HasAny(c.starsInGong[FixIndex(gongIndex)], names);
  }

  /** With no names to look for, every one is present and none is. */
  lemma GongHasEmptyList(c: Chart, gongIndex: int)
    requires WellSized(c)
    ensures GongHasAll(c, gongIndex, []) && !GongHasAny(c, gongIndex, [])
  {
    MembershipEdgeCases(GongStars(c, gongIndex), "");
  }

  /** `get_zhu_xing_in_gong`: the main stars of a palace in list order. */
  method GetZhuXingInGong(c: Chart, gongIndex: int) returns (zhuXing: seq<string>)
    requires WellSized(c)
    ensures zhuXing == MainStars(GongStars(c, gongIndex))
    ensures forall s :: s in zhuXing <==> s in GongStars(c, gongIndex) && s in ZhengYao
  {
    var stars := c.starsInGong[FixIndex(gongIndex)];
    zhuXing := [];
    for k := 0 to |stars|
      invariant zhuXing == MainStars(stars[..k])
    {
      assert stars[..k + 1][..k] == stars[..k];
      if stars[k] in ZhengYao {
        zhuXing := zhuXing + [stars[k]];
      }
    }
    assert stars[..|stars|] == stars;
    forall s
      ensures s in zhuXing <==> s in stars && s in ZhengYao
    {
      MainStarsMember(stars, s);
    }
  }

  /** The Ming palace's neighbours and four positions. */
  function Ming(c: Chart): int { c.mingGongIndex }

  function Left(c: Chart): int { GetJiaGongInfo(c.mingGongIndex).leftGong }

  function Right(c: Chart): int { GetJiaGongInfo(c.mingGongIndex).rightGong }

  function CaiBo(c: Chart): int { GetSanFangSiZheng(c.mingGongIndex).caiBoIndex }

  /** `san_fang_has_star` and its list forms, on the Ming palace. */
  predicate SanFangHas(c: Chart, starName: string)
    requires WellSized(c)
  {
    starName in SanFangStars(c.starsInGong, c.mingGongIndex)
  }

  predicate SanFangHasAll(c: Chart, names: seq<string>)
    requires WellSized(c)
  {
    AllIn(names, SanFangStars(c.starsInGong, c.mingGongIndex))
  }

  predicate SanFangHasAny(c: Chart, names: seq<string>)
    requires WellSized(c)
  {
    AnyIn(names, SanFangStars(c.starsInGong, c.mingGongIndex))
  }

  /** How many of `names` occur in `pool`. */
  function CountIn(names: seq<string>, pool: seq<string>): (r: nat)
    ensures r <= |names|
  {
    if names == [] then 0
    else CountIn(names[..|names| - 1], pool) + (if names[|names| - 1] in pool then 1 else 0)
  }

  /** The three transformation markers that `check_ke_quan_lu_jia` counts. */
  const KeQuanLu: seq<string> := ["化科", "化权", "化禄"]

  /** The four malefic stars that `check_si_sha_chong_ming` counts. */
  const SiSha: seq<string> := ["擎羊", "陀罗", "火星", "铃星"]

  /** A star sits on one side or the other of the Ming palace. */
  predicate OnEitherSide(c: Chart, starName: string)
    requires WellSized(c)
  {
    GongHasStar(c, Left(c), starName) || GongHasStar(c, Right(c), starName)
  }

  /** A palace among the four positions other than the Ming index itself
    * holds the star. The comparison is against the Ming index as given. */
  predicate BoZhao(c: Chart, starName: string)
    requires WellSized(c)
  {
    var idx := AllIndices(GetSanFangSiZheng(c.mingGongIndex));
    exists k :: 0 <= k < 4 && idx[k] != c.mingGongIndex && GongHasStar(c, idx[k], starName)
  }

  // ---------------------------------------------------------------------
  // Patterns

  /** `GeJuType`: one constructor per check. */
  datatype GeJuType =
    | ZiFuTongGong | ZiFuChaoYuan | TianFuChaoYuan | JunChenQingHui | FuXiangChaoYuan
    | JiYueTongLiang | JiLiangJiaHui | RiYueBingMing | RiZhaoLeiMen | YueLangTianMen
    | MingZhuChuHai | RiYueBoZhao | YangLiangChangLu | TanWuTongXing | TanLingJiaHui
    | HuoTanGeJu | LingTanGeJu | SanQiJiaHui | ShuangLuJiaMing | ShuangLuJiaCai
    | KeQuanLuJia | ZuoYouJiaMing | ChangQuJiaMing | KuiYueJiaMing | LuMaJiaoChiGeJu
    | QuanLuXunFeng
    | LingChangTuoWu | JiJiTongGong | JuRiTongGong | MingXiangLiangJia | MaTouDaiJian
    | LiangJiJiaMing | HuoLingJiaMing | KongJieJiaMing | YangTuoJiaJi | SiShaChongMing
    | MinggongWuZhuXing

  /** `GeJuInfo` without its description text. */
  datatype GeJuInfo = GeJuInfo(kind: GeJuType, name: string, isJi: bool, score: int,
                               keyStars: seq<string>, keyGongs: seq<int>)

  /** The auspicious checks, in the order `analyze_ji_ge` runs them. */
  function JiCheck(i: nat): GeJuType
    requires i < 26
  {
    match i
    case 0 => ZiFuTongGong case 1 => ZiFuChaoYuan case 2 => TianFuChaoYuan
    case 3 => JunChenQingHui case 4 => FuXiangChaoYuan case 5 => JiYueTongLiang
    case 6 => JiLiangJiaHui case 7 => RiYueBingMing case 8 => RiZhaoLeiMen
    case 9 => YueLangTianMen case 10 => MingZhuChuHai case 11 => RiYueBoZhao
    case 12 => YangLiangChangLu case 13 => TanWuTongXing case 14 => TanLingJiaHui
    case 15 => HuoTanGeJu case 16 => LingTanGeJu case 17 => SanQiJiaHui
    case 18 => ShuangLuJiaMing case 19 => ShuangLuJiaCai case 20 => KeQuanLuJia
    case 21 => ZuoYouJiaMing case 22 => ChangQuJiaMing case 23 => KuiYueJiaMing
    case 24 => LuMaJiaoChiGeJu case _ => QuanLuXunFeng
  }

  /** The inauspicious checks, in the order `analyze_xiong_ge` runs them. */
  function XiongCheck(i: nat): GeJuType
    requires i < 11
  {
    match i
    case 0 => LingChangTuoWu case 1 => JiJiTongGong case 2 => JuRiTongGong
    case 3 => MingXiangLiangJia case 4 => MaTouDaiJian case 5 => LiangJiJiaMing
    case 6 => HuoLingJiaMing case 7 => KongJieJiaMing case 8 => YangTuoJiaJi
    case 9 => SiShaChongMing case _ => MinggongWuZhuXing
  }

  /** The checks of each analyzer as a list, in order. */
  function JiOrder(): (r: seq<GeJuType>)
    ensures |r| == 26 && forall i :: 0 <= i < 26 ==> r[i] == JiCheck(i)
  {
    seq(26, i requires 0 <= i < 26 => JiCheck(i))
  }

  function XiongOrder(): (r: seq<GeJuType>)
    ensures |r| == 11 && forall i :: 0 <= i < 11 ==> r[i] == XiongCheck(i)
  {
    seq(11, i requires 0 <= i < 11 => XiongCheck(i))
  }

  /** The position of a check within its analyzer's order. */
  function Rank(t: GeJuType): nat
  {
    match t
    case ZiFuTongGong => 0 case ZiFuChaoYuan => 1 case TianFuChaoYuan => 2
    case JunChenQingHui => 3 case FuXiangChaoYuan => 4 case JiYueTongLiang => 5
    case JiLiangJiaHui => 6 case RiYueBingMing => 7 case RiZhaoLeiMen => 8
    case YueLangTianMen => 9 case MingZhuChuHai => 10 case RiYueBoZhao => 11
    case YangLiangChangLu => 12 case TanWuTongXing => 13 case TanLingJiaHui => 14
    case HuoTanGeJu => 15 case LingTanGeJu => 16 case SanQiJiaHui => 17
    case ShuangLuJiaMing => 18 case ShuangLuJiaCai => 19 case KeQuanLuJia => 20
    case ZuoYouJiaMing => 21 case ChangQuJiaMing => 22 case KuiYueJiaMing => 23
    case LuMaJiaoChiGeJu => 24 case QuanLuXunFeng => 25
    case LingChangTuoWu => 0 case JiJiTongGong => 1 case JuRiTongGong => 2
    case MingXiangLiangJia => 3 case MaTouDaiJian => 4 case LiangJiJiaMing => 5
    case HuoLingJiaMing => 6 case KongJieJiaMing => 7 case YangTuoJiaJi => 8
    case SiShaChongMing => 9 case MinggongWuZhuXing => 10
  }

  /** Whether a check is one of the auspicious ones (its `is_ji`). */
  predicate IsJiType(t: GeJuType)
  {
    !(t.LingChangTuoWu? || t.JiJiTongGong? || t.JuRiTongGong? ||
      t.MingXiangLiangJia? || t.MaTouDaiJian? || t.LiangJiJiaMing? || t.HuoLingJiaMing? ||
      t.KongJieJiaMing? || t.YangTuoJiaJi? || t.SiShaChongMing? || t.MinggongWuZhuXing?)
  }

  /** The score each check gives. */
  function Score(t: GeJuType): int
  {
    match t
    case ZiFuTongGong => 80 case ZiFuChaoYuan => 70 case TianFuChaoYuan => 65
    case JunChenQingHui => 75 case FuXiangChaoYuan => 70 case JiYueTongLiang => 60
    case JiLiangJiaHui => 60 case RiYueBingMing => 80 case RiZhaoLeiMen => 70
    case YueLangTianMen => 70 case MingZhuChuHai => 65 case RiYueBoZhao => 65
    case YangLiangChangLu => 70 case TanWuTongXing => 65 case TanLingJiaHui => 55
    case HuoTanGeJu => 60 case LingTanGeJu => 55 case SanQiJiaHui => 80
    case ShuangLuJiaMing => 70 case ShuangLuJiaCai => 68 case KeQuanLuJia => 75
    case ZuoYouJiaMing => 65 case ChangQuJiaMing => 70 case KuiYueJiaMing => 72
    case LuMaJiaoChiGeJu => 68 case QuanLuXunFeng => 70
    case LingChangTuoWu => -70 case JiJiTongGong => -50 case JuRiTongGong => -40
    case MingXiangLiangJia => -30 case MaTouDaiJian => -65 case LiangJiJiaMing => -60
    case HuoLingJiaMing => -55 case KongJieJiaMing => -50 case YangTuoJiaJi => -70
    case SiShaChongMing => -65 case MinggongWuZhuXing => -25
  }

  /** The name each check reports. */
  function Name(t: GeJuType): string
  {
    match t
    case ZiFuTongGong => "紫府同宫" case ZiFuChaoYuan => "紫府朝垣" case TianFuChaoYuan => "天府朝垣"
    case JunChenQingHui => "君臣庆会" case FuXiangChaoYuan => "府相朝垣" case JiYueTongLiang => "机月同梁格"
    case JiLiangJiaHui => "机梁夹会" case RiYueBingMing => "日月并明" case RiZhaoLeiMen => "日照雷门"
    case YueLangTianMen => "月朗天门" case MingZhuChuHai => "明珠出海" case RiYueBoZhao => "日月夹照"
    case YangLiangChangLu => "阳梁昌禄格" case TanWuTongXing => "贪武同行" case TanLingJiaHui => "贪铃夹会"
    case HuoTanGeJu => "火贪格" case LingTanGeJu => "铃贪格" case SanQiJiaHui => "三奇嘉会"
    case ShuangLuJiaMing => "双禄夹命" case ShuangLuJiaCai => "双禄夹财" case KeQuanLuJia => "科权禄夹"
    case ZuoYouJiaMing => "左右夹命" case ChangQuJiaMing => "昌曲夹命" case KuiYueJiaMing => "魁钺夹命"
    case LuMaJiaoChiGeJu => "禄马交驰" case QuanLuXunFeng => "权禄巡逢"
    case LingChangTuoWu => "铃昌陀武" case JiJiTongGong => "巨机同宫" case JuRiTongGong => "巨日同宫"
    case MingXiangLiangJia => "命无正曜" case MaTouDaiJian => "马头带箭" case LiangJiJiaMing => "羊陀夹命"
    case HuoLingJiaMing => "煞星夹命" case KongJieJiaMing => "空劫夹命" case YangTuoJiaJi => "羊陀夹忌"
    case SiShaChongMing => "四煞冲命" case MinggongWuZhuXing => "命宫无主星"
  }

  /** The key stars each check reports. */
  function KeyStars(t: GeJuType): seq<string>
  {
    match t
    case ZiFuTongGong => ["紫微", "天府"] case ZiFuChaoYuan => ["紫微", "天府"]
    case TianFuChaoYuan => ["天府"] case JunChenQingHui => ["紫微", "天相", "天府"]
    case FuXiangChaoYuan => ["天府", "天相"] case JiYueTongLiang => ["天机", "太阴", "天同", "天梁"]
    case JiLiangJiaHui => ["天机", "天梁"] case RiYueBingMing => ["太阳", "太阴"]
    case RiZhaoLeiMen => ["太阳"] case YueLangTianMen => ["太阴"] case MingZhuChuHai => ["太阴"]
    case RiYueBoZhao => ["太阳", "太阴"] case YangLiangChangLu => ["太阳", "天梁", "文昌", "禄存"]
    case TanWuTongXing => ["贪狼", "武曲"] case TanLingJiaHui => ["贪狼", "铃星"]
    case HuoTanGeJu => ["贪狼", "火星"] case LingTanGeJu => ["贪狼", "铃星"]
    case SanQiJiaHui => ["化禄", "化权", "化科"] case ShuangLuJiaMing => ["禄存", "化禄"]
    case ShuangLuJiaCai => ["禄存", "化禄"] case KeQuanLuJia => KeQuanLu
    case ZuoYouJiaMing => ["左辅", "右弼"] case ChangQuJiaMing => ["文昌", "文曲"]
    case KuiYueJiaMing => ["天魁", "天钺"] case LuMaJiaoChiGeJu => ["禄存", "天马"]
    case QuanLuXunFeng => ["化权", "化禄"]
    case LingChangTuoWu => ["铃星", "文昌", "陀罗", "武曲"] case JiJiTongGong => ["巨门", "天机"]
    case JuRiTongGong => ["巨门", "太阳"] case MingXiangLiangJia => []
    case MaTouDaiJian => ["擎羊"] case LiangJiJiaMing => ["擎羊", "陀罗"]
    case HuoLingJiaMing => SiSha case KongJieJiaMing => ["地空", "地劫"]
    case YangTuoJiaJi => ["擎羊", "陀罗", "化忌"] case SiShaChongMing => SiSha
    case MinggongWuZhuXing => []
  }

  /** The palaces each check reports: the Ming palace, with its two
    * neighbours for the flanking checks, or the Cai Bo palace with its two
    * neighbours for 双禄夹财. */
  function KeyGongs(c: Chart, t: GeJuType): seq<int>
  {
    match t
    case ShuangLuJiaMing | KeQuanLuJia | ZuoYouJiaMing | ChangQuJiaMing | KuiYueJiaMing
       | KongJieJiaMing | LiangJiJiaMing | YangTuoJiaJi =>
      [c.mingGongIndex, Left(c), Right(c)]
    case ShuangLuJiaCai =>
      [CaiBo(c), GetJiaGongInfo(CaiBo(c)).leftGong, GetJiaGongInfo(CaiBo(c)).rightGong]
    case _ => [c.mingGongIndex]
  }

  /** The record a check returns when it fires. */
  function Entry(c: Chart, t: GeJuType): (e: GeJuInfo)
    ensures e.kind == t
  {
    GeJuInfo(t, Name(t), IsJiType(t), Score(t), KeyStars(t), KeyGongs(c, t))
  }

  /** The conditions of the auspicious checks, one per `check_*`. */
  predicate IsZiFuTongGong(c: Chart) requires WellSized(c)
  { GongHasAll(c, Ming(c), ["紫微", "天府"]) }

  predicate IsZiFuChaoYuan(c: Chart) requires WellSized(c)
  { GongHasStar(c, Ming(c), "紫微") && SanFangHas(c, "天府") }

  predicate IsTianFuChaoYuan(c: Chart) requires WellSized(c)
  { GongHasStar(c, Ming(c), "天府") && SanFangHasAny(c, ["禄存", "化禄"]) }

  predicate IsJunChenQingHui(c: Chart) requires WellSized(c)
  { GongHasStar(c, Ming(c), "紫微") && SanFangHasAll(c, ["天相", "天府"]) }

  predicate IsFuXiangChaoYuan(c: Chart) requires WellSized(c)
  { GongHasAll(c, Ming(c), ["天府", "天相"]) }

  predicate IsJiYueTongLiang(c: Chart) requires WellSized(c)
  { SanFangHasAll(c, ["天机", "太阴", "天同", "天梁"]) }

  predicate IsJiLiangJiaHui(c: Chart) requires WellSized(c)
  {
    (GongHasStar(c, Ming(c), "天机") && SanFangHas(c, "天梁")) ||
    (GongHasStar(c, Ming(c), "天梁") && SanFangHas(c, "天机"))
  }

  predicate IsRiYueBingMing(c: Chart) requires WellSized(c)
  { GongHasAll(c, Ming(c), ["太阳", "太阴"]) && (GongDiZhi(c, Ming(c)) == Mao || GongDiZhi(c, Ming(c)) == You) }

  predicate IsRiZhaoLeiMen(c: Chart) requires WellSized(c)
  { GongHasStar(c, Ming(c), "太阳") && GongDiZhi(c, Ming(c)) == Mao }

  predicate IsYueLangTianMen(c: Chart) requires WellSized(c)
  { GongHasStar(c, Ming(c), "太阴") && GongDiZhi(c, Ming(c)) == Hai }

  predicate IsMingZhuChuHai(c: Chart) requires WellSized(c)
  { GongHasStar(c, Ming(c), "太阴") && GongDiZhi(c, Ming(c)) == You }

  predicate IsRiYueBoZhao(c: Chart) requires WellSized(c)
  { BoZhao(c, "太阳") && BoZhao(c, "太阴") }

  predicate IsYangLiangChangLu(c: Chart) requires WellSized(c)
  { GongHasAll(c, Ming(c), ["太阳", "天梁"]) && SanFangHasAll(c, ["文昌", "禄存"]) }

  predicate IsTanWuTongXing(c: Chart) requires WellSized(c)
  { GongHasAll(c, Ming(c), ["贪狼", "武曲"]) }

  predicate IsTanLingJiaHui(c: Chart) requires WellSized(c)
  {
    (GongHasStar(c, Ming(c), "贪狼") && SanFangHas(c, "铃星")) ||
    (GongHasStar(c, Ming(c), "铃星") && SanFangHas(c, "贪狼"))
  }

  predicate IsHuoTan(c: Chart) requires WellSized(c)
  { GongHasAll(c, Ming(c), ["贪狼", "火星"]) }

  predicate IsLingTan(c: Chart) requires WellSized(c)
  { GongHasAll(c, Ming(c), ["贪狼", "铃星"]) }

  predicate IsSanQiJiaHui(c: Chart) requires WellSized(c)
  { SanFangHasAll(c, ["化禄", "化权", "化科"]) }

  predicate IsShuangLuJiaMing(c: Chart) requires WellSized(c)
  { GongHasAny(c, Left(c), ["禄存", "化禄"]) && GongHasAny(c, Right(c), ["禄存", "化禄"]) }

  predicate IsShuangLuJiaCai(c: Chart) requires WellSized(c)
  {
    var jia := GetJiaGongInfo(CaiBo(c));
    GongHasAny(c, jia.leftGong, ["禄存", "化禄"]) && GongHasAny(c, jia.rightGong, ["禄存", "化禄"])
  }

  predicate IsKeQuanLuJia(c: Chart) requires WellSized(c)
  { CountIn(KeQuanLu, GongStars(c, Left(c)) + GongStars(c, Right(c))) >= 2 }

  predicate IsZuoYouJia(c: Chart) requires WellSized(c)
  { GongHasStar(c, Left(c), "左辅") && GongHasStar(c, Right(c), "右弼") }

  predicate IsChangQuJiaMing(c: Chart) requires WellSized(c)
  {
    (GongHasStar(c, Left(c), "文昌") && GongHasStar(c, Right(c), "文曲")) ||
    (GongHasStar(c, Left(c), "文曲") && GongHasStar(c, Right(c), "文昌"))
  }

  predicate IsKuiYueJiaMing(c: Chart) requires WellSized(c)
  {
    (GongHasStar(c, Left(c), "天魁") && GongHasStar(c, Right(c), "天钺")) ||
    (GongHasStar(c, Left(c), "天钺") && GongHasStar(c, Right(c), "天魁"))
  }

  predicate IsLuMaJiaoChi(c: Chart) requires WellSized(c)
  {
    GongHasAll(c, Ming(c), ["禄存", "天马"]) ||
    (GongHasStar(c, Ming(c), "禄存") && SanFangHas(c, "天马")) ||
    (GongHasStar(c, Ming(c), "天马") && SanFangHas(c, "禄存"))
  }

  predicate IsQuanLuXunFeng(c: Chart) requires WellSized(c)
  { SanFangHasAll(c, ["化权", "化禄"]) }

  /** The conditions of the inauspicious checks. */
  predicate IsLingChangTuoWu(c: Chart) requires WellSized(c)
  { GongHasAll(c, Ming(c), ["铃星", "文昌", "陀罗", "武曲"]) }

  predicate IsJiJiTongGong(c: Chart) requires WellSized(c)
  { GongHasAll(c, Ming(c), ["巨门", "天机"]) && (GongDiZhi(c, Ming(c)) == Chen || GongDiZhi(c, Ming(c)) == Xu) }

  predicate IsJuRiTongGong(c: Chart) requires WellSized(c)
  { GongHasAll(c, Ming(c), ["巨门", "太阳"]) }

  /** Shared by 命无正曜 and 命宫无主星. */
  predicate IsMingWuZhengYao(c: Chart) requires WellSized(c)
  { MainStars(GongStars(c, Ming(c))) == [] }

  predicate IsMaTouDaiJian(c: Chart) requires WellSized(c)
  { GongHasStar(c, Ming(c), "擎羊") && GongDiZhi(c, Ming(c)) == Wu }

  predicate IsYangTuoJiaMing(c: Chart) requires WellSized(c)
  {
    (GongHasStar(c, Left(c), "擎羊") && GongHasStar(c, Right(c), "陀罗")) ||
    (GongHasStar(c, Left(c), "陀罗") && GongHasStar(c, Right(c), "擎羊"))
  }

  predicate IsShaXingJiaMing(c: Chart) requires WellSized(c)
  { FlankedBy(c.starsInGong, Ming(c), ShaXing) }

  predicate IsKongJieJiaMing(c: Chart) requires WellSized(c)
  {
    (GongHasStar(c, Left(c), "地空") && GongHasStar(c, Right(c), "地劫")) ||
    (GongHasStar(c, Left(c), "地劫") && GongHasStar(c, Right(c), "地空"))
  }

  predicate IsYangTuoJiaJi(c: Chart) requires WellSized(c)
  { GongHasStar(c, Ming(c), "化忌") && GongHasAny(c, Left(c), ["擎羊", "陀罗"]) && GongHasAny(c, Right(c), ["擎羊", "陀罗"]) }

  predicate IsSiShaChongMing(c: Chart) requires WellSized(c)
  { CountIn(SiSha, SanFangStars(c.starsInGong, Ming(c))) >= 3 }

  /** The condition under which each `check_*` returns a record. */
  predicate Fires(c: Chart, t: GeJuType)
    requires WellSized(c)
  {
    match t
    case ZiFuTongGong => IsZiFuTongGong(c)
    case ZiFuChaoYuan => IsZiFuChaoYuan(c)
    case TianFuChaoYuan => IsTianFuChaoYuan(c)
    case JunChenQingHui => IsJunChenQingHui(c)
    case FuXiangChaoYuan => IsFuXiangChaoYuan(c)
    case JiYueTongLiang => IsJiYueTongLiang(c)
    case JiLiangJiaHui => IsJiLiangJiaHui(c)
    case RiYueBingMing => IsRiYueBingMing(c)
    case RiZhaoLeiMen => IsRiZhaoLeiMen(c)
    case YueLangTianMen => IsYueLangTianMen(c)
    case MingZhuChuHai => IsMingZhuChuHai(c)
    case RiYueBoZhao => IsRiYueBoZhao(c)
    case YangLiangChangLu => IsYangLiangChangLu(c)
    case TanWuTongXing => IsTanWuTongXing(c)
    case TanLingJiaHui => IsTanLingJiaHui(c)
    case HuoTanGeJu => IsHuoTan(c)
    case LingTanGeJu => IsLingTan(c)
    case SanQiJiaHui => IsSanQiJiaHui(c)
    case ShuangLuJiaMing => IsShuangLuJiaMing(c)
    case ShuangLuJiaCai => IsShuangLuJiaCai(c)
    case KeQuanLuJia => IsKeQuanLuJia(c)
    case ZuoYouJiaMing => IsZuoYouJia(c)
    case ChangQuJiaMing => IsChangQuJiaMing(c)
    case KuiYueJiaMing => IsKuiYueJiaMing(c)
    case LuMaJiaoChiGeJu => IsLuMaJiaoChi(c)
    case QuanLuXunFeng => IsQuanLuXunFeng(c)
    case LingChangTuoWu => IsLingChangTuoWu(c)
    case JiJiTongGong => IsJiJiTongGong(c)
    case JuRiTongGong => IsJuRiTongGong(c)
    case MingXiangLiangJia => IsMingWuZhengYao(c)
    case MaTouDaiJian => IsMaTouDaiJian(c)
    case LiangJiJiaMing => IsYangTuoJiaMing(c)
    case HuoLingJiaMing => IsShaXingJiaMing(c)
    case KongJieJiaMing => IsKongJieJiaMing(c)
    case YangTuoJiaJi => IsYangTuoJiaJi(c)
    case SiShaChongMing => IsSiShaChongMing(c)
    case MinggongWuZhuXing => IsMingWuZhengYao(c)
  }

  /** `check_*`: the record when the pattern is present, nothing otherwise. */
  function Check(c: Chart, t: GeJuType): Option<GeJuInfo>
    requires WellSized(c)
  {
    if Fires(c, t) then Some(Entry(c, t)) else None
  }

  /** Running checks in order and keeping the records they return. */
  function Collect(c: Chart, order: seq<GeJuType>): seq<GeJuInfo>
    requires WellSized(c)
  {
    if order == [] then []
    else
      var t := order[|order| - 1];
      Collect(c, order[..|order| - 1]) + (if Fires(c, t) then [Entry(c, t)] else [])
  }

  /** `analyze_ji_ge`, `analyze_xiong_ge` and `analyze_all`. */
  function AnalyzeJiGe(c: Chart): seq<GeJuInfo>
    requires WellSized(c)
  {
    Collect(c, JiOrder())
  }

  function AnalyzeXiongGe(c: Chart): seq<GeJuInfo>
    requires WellSized(c)
  {
    Collect(c, XiongOrder())
  }

  function AnalyzeAll(c: Chart): seq<GeJuInfo>
    requires WellSized(c)
  {
    AnalyzeJiGe(c) + AnalyzeXiongGe(c)
  }

  // ---------------------------------------------------------------------
  // The checks that loop

  /** `check_ke_quan_lu_jia`: counts the transformations found on either
    * neighbour and fires at two. */
  method CheckKeQuanLuJia(c: Chart) returns (r: Option<GeJuInfo>)
    requires WellSized(c)
    ensures r == Check(c, KeQuanLuJia)
  {
    var jiaGong := GetJiaGongInfo(c.mingGongIndex);
    var siHuaList := KeQuanLu;
    var pool := GongStars(c, jiaGong.leftGong) + GongStars(c, jiaGong.rightGong);
    var count := 0;
    for k := 0 to |siHuaList|
      invariant count == CountIn(siHuaList[..k], pool)
    {
      assert siHuaList[..k + 1][..k] == siHuaList[..k];
      if GongHasStar(c, jiaGong.leftGong, siHuaList[k]) || GongHasStar(c, jiaGong.rightGong, siHuaList[k]) {
        count := count + 1;
      }
    }
    assert siHuaList[..|siHuaList|] == siHuaList;
    if count >= 2 {
      r := Some(Entry(c, KeQuanLuJia));
    } else {
      r := None;
    }
  }

  /** `check_si_sha_chong_ming`: counts the four malefic stars among the four
    * positions and fires at three. */
  method CheckSiShaChongMing(c: Chart) returns (r: Option<GeJuInfo>)
    requires WellSized(c)
    ensures r == Check(c, SiShaChongMing)
  {
    var shaCount := 0;
    var siSha := SiSha;
    for k := 0 to |siSha|
      invariant shaCount == CountIn(siSha[..k], SanFangStars(c.starsInGong, c.mingGongIndex))
    {
      assert siSha[..k + 1][..k] == siSha[..k];
      var has := SanFangHasStar(c.starsInGong, c.mingGongIndex, siSha[k]);
      if has {
        shaCount := shaCount + 1;
      }
    }
    assert siSha[..|siSha|] == siSha;
    if shaCount >= 3 {
      r := Some(Entry(c, SiShaChongMing));
    } else {
      r := None;
    }
  }

  /** `check_ri_yue_bo_zhao`: scans the four positions, skipping the Ming
    * index, for 太阳 and for 太阴. */
  method CheckRiYueBoZhao(c: Chart) returns (r: Option<GeJuInfo>)
    requires WellSized(c)
    ensures r == Check(c, RiYueBoZhao)
  {
    var sanFang := AllIndices(GetSanFangSiZheng(c.mingGongIndex));
    var hasTaiYang := false;
    var hasTaiYin := false;
    for k := 0 to |sanFang|
      invariant hasTaiYang <==> exists j :: 0 <= j < k && sanFang[j] != c.mingGongIndex && GongHasStar(c, sanFang[j], "太阳")
      invariant hasTaiYin <==> exists j :: 0 <= j < k && sanFang[j] != c.mingGongIndex && GongHasStar(c, sanFang[j], "太阴")
    {
      var gong := sanFang[k];
      if gong != c.mingGongIndex {
        if GongHasStar(c, gong, "太阳") { hasTaiYang := true; }
        if GongHasStar(c, gong, "太阴") { hasTaiYin := true; }
      }
    }
    if hasTaiYang && hasTaiYin {
      r := Some(Entry(c, RiYueBoZhao));
    } else {
      r := None;
    }
  }

  /** `get_total_score`: the sum of the scores of `analyze_all`. */
  function SumScores(list: seq<GeJuInfo>): int
  {
    if list == [] then 0 else SumScores(list[..|list| - 1]) + list[|list| - 1].score
  }

  method GetTotalScore(c: Chart) returns (total: int)
    requires WellSized(c)
    ensures total == SumScores(AnalyzeAll(c))
  {
    var all := AnalyzeAll(c);
    total := 0;
    for k := 0 to |all|
      invariant total == SumScores(all[..k])
    {
      assert all[..k + 1][..k] == all[..k];
      total := total + all[k].score;
    }
    assert all[..|all|] == all;
  }

  // ---------------------------------------------------------------------
  // Properties of the analysis

  /** Each analyzer lists its checks at their ranks, and holds only
    * auspicious checks or only inauspicious ones. */
  lemma OrdersRanked()
    ensures forall i :: 0 <= i < 26 ==> Rank(JiCheck(i)) == i && IsJiType(JiCheck(i))
    ensures forall i :: 0 <= i < 11 ==> Rank(XiongCheck(i)) == i && !IsJiType(XiongCheck(i))
  {
  }

  /** Every check is run by the analyzer of its kind, at its rank. */
  lemma EveryCheckRun(t: GeJuType)
    ensures IsJiType(t) ==> Rank(t) < 26 && JiCheck(Rank(t)) == t
    ensures !IsJiType(t) ==> Rank(t) < 11 && XiongCheck(Rank(t)) == t
  {
  }

  /** Auspicious checks score above zero, inauspicious ones below. */
  lemma ScoreSign(t: GeJuType)
    ensures IsJiType(t) ==> Score(t) > 0
    ensures !IsJiType(t) ==> Score(t) < 0
  {
  }

  /** An order whose checks sit at their ranks. */
  predicate Ranked(order: seq<GeJuType>)
  {
    forall i :: 0 <= i < |order| ==> Rank(order[i]) == i
  }

  /** Both analyzers' orders are ranked, and hold only checks of their kind. */
  lemma AnalyzerOrders()
    ensures Ranked(JiOrder()) && Ranked(XiongOrder())
    ensures forall i :: 0 <= i < |JiOrder()| ==> IsJiType(JiOrder()[i])
    ensures forall i :: 0 <= i < |XiongOrder()| ==> !IsJiType(XiongOrder()[i])
  {
    OrdersRanked();
  }

  /** Every record of a run comes from a check of the order that fired, and
    * the records follow the order with no check twice. */
  lemma CollectSound(c: Chart, order: seq<GeJuType>)
    requires WellSized(c) && Ranked(order)
    ensures forall k :: 0 <= k < |Collect(c, order)| ==>
      var e := Collect(c, order)[k];
      Rank(e.kind) < |order| && order[Rank(e.kind)] == e.kind && Fires(c, e.kind) && e == Entry(c, e.kind)
    ensures forall k, l :: 0 <= k < l < |Collect(c, order)| ==>
      Rank(Collect(c, order)[k].kind) < Rank(Collect(c, order)[l].kind)
  {
    CollectFromOrder(c, order);
    CollectInOrder(c, order);
  }

  /** Every record of a run is the record of a check of the order that fired. */
  lemma {:induction false} CollectFromOrder(c: Chart, order: seq<GeJuType>)
    requires WellSized(c) && Ranked(order)
    ensures forall k :: 0 <= k < |Collect(c, order)| ==>
      var e := Collect(c, order)[k];
      Rank(e.kind) < |order| && order[Rank(e.kind)] == e.kind && Fires(c, e.kind) && e == Entry(c, e.kind)
  {
    if order != [] {
      var init := order[..|order| - 1];
      assert Ranked(init);
      CollectFromOrder(c, init);
      var prev := Collect(c, init);
      assert forall k :: 0 <= k < |prev| ==> Collect(c, order)[k] == prev[k];
    }
  }

  /** The records of a run follow the ranks of their checks. */
  lemma {:induction false} CollectInOrder(c: Chart, order: seq<GeJuType>)
    requires WellSized(c) && Ranked(order)
    ensures forall k :: 0 <= k < |Collect(c, order)| ==> Rank(Collect(c, order)[k].kind) < |order|
    ensures forall k, l :: 0 <= k < l < |Collect(c, order)| ==>
      Rank(Collect(c, order)[k].kind) < Rank(Collect(c, order)[l].kind)
  {
    if order != [] {
      var init := order[..|order| - 1];
      assert Ranked(init);
      CollectInOrder(c, init);
      var prev := Collect(c, init);
      assert forall k :: 0 <= k < |prev| ==> Collect(c, order)[k] == prev[k];
    }
  }

  /** Every check of the order that fires leaves its record. */
  lemma {:induction false} CollectComplete(c: Chart, order: seq<GeJuType>, i: nat)
    requires WellSized(c) && i < |order| && Fires(c, order[i])
    ensures exists k :: 0 <= k < |Collect(c, order)| && Collect(c, order)[k].kind == order[i]
  {
    var init := order[..|order| - 1];
    var prev := Collect(c, init);
    if i < |order| - 1 {
      CollectComplete(c, init, i);
      var k :| 0 <= k < |prev| && prev[k].kind == init[i];
      assert Collect(c, order)[k] == prev[k];
    } else {
      assert Collect(c, order)[|prev|].kind == order[i];
    }
  }

  /** An auspicious check's record is in `analyze_ji_ge` exactly when the
    * check fires, and likewise for the inauspicious ones. */
  lemma JiGeMember(c: Chart, t: GeJuType)
    requires WellSized(c) && IsJiType(t)
    ensures (exists k :: 0 <= k < |AnalyzeJiGe(c)| && AnalyzeJiGe(c)[k].kind == t) <==> Fires(c, t)
  {
    AnalyzerOrders();
    EveryCheckRun(t);
    var order := JiOrder();
    assert order[Rank(t)] == t;
    CollectSound(c, order);
    if Fires(c, t) {
      CollectComplete(c, order, Rank(t));
      var k :| 0 <= k < |Collect(c, order)| && Collect(c, order)[k].kind == order[Rank(t)];
      assert AnalyzeJiGe(c)[k].kind == t;
    }
  }

  lemma XiongGeMember(c: Chart, t: GeJuType)
    requires WellSized(c) && !IsJiType(t)
    ensures (exists k :: 0 <= k < |AnalyzeXiongGe(c)| && AnalyzeXiongGe(c)[k].kind == t) <==> Fires(c, t)
  {
    AnalyzerOrders();
    EveryCheckRun(t);
    var order := XiongOrder();
    assert order[Rank(t)] == t;
    CollectSound(c, order);
    if Fires(c, t) {
      CollectComplete(c, order, Rank(t));
      var k :| 0 <= k < |Collect(c, order)| && Collect(c, order)[k].kind == order[Rank(t)];
      assert AnalyzeXiongGe(c)[k].kind == t;
    }
  }

  /** Auspicious records come first, each marked auspicious with a positive
    * score; inauspicious ones follow, marked so, with negative scores; and no
    * check appears twice. */
  lemma AnalyzeAllShape(c: Chart)
    requires WellSized(c)
    ensures forall k :: 0 <= k < |AnalyzeJiGe(c)| ==> AnalyzeJiGe(c)[k].isJi && AnalyzeJiGe(c)[k].score > 0
    ensures forall k :: 0 <= k < |AnalyzeXiongGe(c)| ==> !AnalyzeXiongGe(c)[k].isJi && AnalyzeXiongGe(c)[k].score < 0
    ensures forall k, l :: 0 <= k < l < |AnalyzeAll(c)| ==> AnalyzeAll(c)[k].kind != AnalyzeAll(c)[l].kind
    ensures forall k, l :: 0 <= k < l < |AnalyzeAll(c)| && AnalyzeAll(c)[l].isJi ==> AnalyzeAll(c)[k].isJi
  {
    AnalyzerOrders();
    CollectSound(c, JiOrder());
    CollectSound(c, XiongOrder());
    var ji := AnalyzeJiGe(c);
    var xiong := AnalyzeXiongGe(c);
    forall k | 0 <= k < |ji|
      ensures ji[k].isJi && ji[k].score > 0
    {
      ScoreSign(ji[k].kind);
    }
    forall k | 0 <= k < |xiong|
      ensures !xiong[k].isJi && xiong[k].score < 0
    {
      ScoreSign(xiong[k].kind);
    }
    var all := AnalyzeAll(c);
    assert forall k :: 0 <= k < |ji| ==> all[k] == ji[k];
    assert forall k :: 0 <= k < |xiong| ==> all[|ji| + k] == xiong[k];
  }

  /** The total score is the auspicious sum, never negative, plus the
    * inauspicious sum, never positive. */
  lemma {:induction false} SumScoresAppend(a: seq<GeJuInfo>, b: seq<GeJuInfo>)
    ensures SumScores(a + b) == SumScores(a) + SumScores(b)
    decreases |b|
  {
    if b == [] {
      assert a + b == a;
    } else {
      assert (a + b)[..|a + b| - 1] == a + b[..|b| - 1];
      SumScoresAppend(a, b[..|b| - 1]);
    }
  }

  lemma {:induction false} SumScoresSign(list: seq<GeJuInfo>, positive: bool)
    requires forall k :: 0 <= k < |list| ==> if positive then list[k].score > 0 else list[k].score < 0
    ensures positive ==> SumScores(list) >= 0
    ensures !positive ==> SumScores(list) <= 0
    ensures list != [] && positive ==> SumScores(list) > 0
    ensures list != [] && !positive ==> SumScores(list) < 0
  {
    if list != [] {
      SumScoresSign(list[..|list| - 1], positive);
    }
  }

  lemma TotalScoreSplit(c: Chart)
    requires WellSized(c)
    ensures SumScores(AnalyzeAll(c)) == SumScores(AnalyzeJiGe(c)) + SumScores(AnalyzeXiongGe(c))
    ensures SumScores(AnalyzeJiGe(c)) >= 0 && SumScores(AnalyzeXiongGe(c)) <= 0
  {
    SumScoresAppend(AnalyzeJiGe(c), AnalyzeXiongGe(c));
    AnalyzeAllShape(c);
    SumScoresSign(AnalyzeJiGe(c), true);
    SumScoresSign(AnalyzeXiongGe(c), false);
  }

  /** 命无正曜 and 命宫无主星 are reported together, exactly when the Ming
    * palace has no main star. */
  lemma EmptyMingTogether(c: Chart)
    requires WellSized(c)
    ensures (exists k :: 0 <= k < |AnalyzeXiongGe(c)| && AnalyzeXiongGe(c)[k].kind == MingXiangLiangJia)
      <==> MainStars(GongStars(c, c.mingGongIndex)) == []
    ensures (exists k :: 0 <= k < |AnalyzeXiongGe(c)| && AnalyzeXiongGe(c)[k].kind == MinggongWuZhuXing)
      <==> MainStars(GongStars(c, c.mingGongIndex)) == []
  {
    EmptyMingReported(c, MingXiangLiangJia);
    EmptyMingReported(c, MinggongWuZhuXing);
  }

  /** Either empty-Ming check is reported exactly when the Ming palace has
    * no main star. */
  lemma EmptyMingReported(c: Chart, t: GeJuType)
    requires WellSized(c) && (t == MingXiangLiangJia || t == MinggongWuZhuXing)
    ensures (exists k :: 0 <= k < |AnalyzeXiongGe(c)| && AnalyzeXiongGe(c)[k].kind == t)
      <==> MainStars(GongStars(c, c.mingGongIndex)) == []
  {
    XiongGeMember(c, t);
    assert Fires(c, t) == IsMingWuZhengYao(c);
  }

  /** The branch a check needs the Ming palace to sit on, if any. */
  predicate BranchGateMet(c: Chart, t: GeJuType)
    requires WellSized(c)
  {
    var dz := GongDiZhi(c, c.mingGongIndex);
    match t
    case RiYueBingMing => dz == Mao || dz == You
    case YueLangTianMen => dz == Hai
    case MingZhuChuHai => dz == You
    case RiZhaoLeiMen => dz == Mao
    case MaTouDaiJian => dz == Wu
    case JiJiTongGong => dz == Chen || dz == Xu
    case _ => true
  }

  /** No branch-gated pattern is reported off its branches. */
  lemma BranchGates(c: Chart)
    requires WellSized(c)
    ensures forall k :: 0 <= k < |AnalyzeAll(c)| ==> BranchGateMet(c, AnalyzeAll(c)[k].kind)
  {
    AnalyzerOrders();
    CollectSound(c, JiOrder());
    CollectSound(c, XiongOrder());
    var ji := AnalyzeJiGe(c);
    var xiong := AnalyzeXiongGe(c);
    var all := AnalyzeAll(c);
    forall k | 0 <= k < |all|
      ensures BranchGateMet(c, all[k].kind)
    {
      var t := all[k].kind;
      if k < |ji| { assert all[k] == ji[k]; } else { assert all[k] == xiong[k - |ji|]; }
      assert Fires(c, t);
    }
  }

  /** Counting one more name adds one exactly when that name is present. */
  lemma CountInStep(names: seq<string>, pool: seq<string>, k: nat)
    requires 0 < k <= |names|
    ensures CountIn(names[..k], pool) == CountIn(names[..k - 1], pool) + (if names[k - 1] in pool then 1 else 0)
  {
    assert names[..k][..k - 1] == names[..k - 1];
  }

  /** Of three names, at least two are present exactly when two distinct
    * positions are. */
  lemma CountThreeAtLeastTwo(names: seq<string>, pool: seq<string>)
    requires |names| == 3
    ensures CountIn(names, pool) >= 2 <==>
      exists i, j :: 0 <= i < j < 3 && names[i] in pool && names[j] in pool
  {
    CountInStep(names, pool, 1);
    CountInStep(names, pool, 2);
    CountInStep(names, pool, 3);
    assert names[..0] == [] && names[..3] == names;
    var b0, b1, b2 := names[0] in pool, names[1] in pool, names[2] in pool;
    if CountIn(names, pool) >= 2 {
      if b0 && b1 { assert 0 < 1; } else if b0 && b2 { assert 0 < 2; } else { assert b1 && b2; }
    }
  }

  /** Of four names, at least three are present exactly when no two
    * positions are both missing. */
  lemma CountFourAtLeastThree(names: seq<string>, pool: seq<string>)
    requires |names| == 4
    ensures CountIn(names, pool) >= 3 <==>
      forall i, j :: 0 <= i < j < 4 && names[i] !in pool ==> names[j] in pool
  {
    CountInStep(names, pool, 1);
    CountInStep(names, pool, 2);
    CountInStep(names, pool, 3);
    CountInStep(names, pool, 4);
    assert names[..0] == [] && names[..4] == names;
  }

  /** 科权禄夹 fires exactly when two different transformations each sit on
    * a neighbour of the Ming palace. */
  lemma KeQuanLuThreshold(c: Chart)
    requires WellSized(c)
    ensures Fires(c, KeQuanLuJia) <==>
      exists i, j :: 0 <= i < j < 3 && OnEitherSide(c, KeQuanLu[i]) && OnEitherSide(c, KeQuanLu[j])
  {
    CountThreeAtLeastTwo(KeQuanLu, GongStars(c, Left(c)) + GongStars(c, Right(c)));
  }

  /** 四煞冲命 fires exactly when at most one of the four malefic stars is
    * missing from the four positions: no two of them are both absent. */
  lemma SiShaThreshold(c: Chart)
    requires WellSized(c)
    ensures Fires(c, SiShaChongMing) <==>
      forall i, j :: 0 <= i < j < 4 && !SanFangHas(c, SiSha[i]) ==> SanFangHas(c, SiSha[j])
  {
    CountFourAtLeastThree(SiSha, SanFangStars(c.starsInGong, c.mingGongIndex));
  }

  // ---------------------------------------------------------------------
  // Pairs of main stars

  /** `ShuangXingType`. */
  datatype ShuangXingType = Unknown | ZiWeiTianFu | ZiWeiTanLang | ZiWeiQiSha | WuQuTanLang | TaiYangTaiYin

  /** `ShuangXingInfo` without its description texts. */
  datatype ShuangXingInfo = ShuangXingInfo(kind: ShuangXingType, xing1Name: string, xing2Name: string, gongIndex: int)

  /** The type `analyze_shuang_xing` gives the two main stars of a palace,
    * tested in its order. */
  function PairType(xing1: string, xing2: string): ShuangXingType
  {
    if (xing1 == "紫微" && xing2 == "天府") || (xing1 == "天府" && xing2 == "紫微") then ZiWeiTianFu
    else if (xing1 == "紫微" && xing2 == "贪狼") || (xing1 == "贪狼" && xing2 == "紫微") then ZiWeiTanLang
    else if (xing1 == "紫微" && xing2 == "七杀") || (xing1 == "七杀" && xing2 == "紫微") then ZiWeiQiSha
    else if (xing1 == "武曲" && xing2 == "贪狼") || (xing1 == "贪狼" && xing2 == "武曲") then WuQuTanLang
    else if (xing1 == "太阳" && xing2 == "太阴") || (xing1 == "太阴" && xing2 == "太阳") then TaiYangTaiYin
    else Unknown
  }

  /** The type of a pair depends only on the unordered pair of names, and
    * a listed type names two different main stars. */
  lemma PairTypeUnordered(xing1: string, xing2: string)
    ensures PairType(xing1, xing2) == PairType(xing2, xing1)
    ensures PairType(xing1, xing2) != Unknown ==> xing1 != xing2 && xing1 in ZhengYao && xing2 in ZhengYao
  {
  }

  /** The pairs among the first `n` palaces. */
  function ShuangXingUpTo(c: Chart, n: nat): seq<ShuangXingInfo>
    requires WellSized(c) && n <= 12
  {
    if n == 0 then []
    else
      var zhuXing := MainStars(GongStars(c, n - 1));
      ShuangXingUpTo(c, n - 1) +
      (if |zhuXing| == 2 then [ShuangXingInfo(PairType(zhuXing[0], zhuXing[1]), zhuXing[0], zhuXing[1], n - 1)] else [])
  }

  /** `analyze_shuang_xing`. */
  method AnalyzeShuangXing(c: Chart) returns (list: seq<ShuangXingInfo>)
    requires WellSized(c)
    ensures list == ShuangXingUpTo(c, 12)
  {
    list := [];
    for i := 0 to 12
      invariant list == ShuangXingUpTo(c, i)
    {
      var zhuXing := GetZhuXingInGong(c, i);
      if |zhuXing| == 2 {
        var xing1 := zhuXing[0];
        var xing2 := zhuXing[1];
        var info := ShuangXingInfo(PairType(xing1, xing2), xing1, xing2, i);
        list := list + [info];
      }
    }
  }

  /** Every entry is a palace with exactly two main stars, named in list
    * order, and the palaces ascend. */
  lemma {:induction false} ShuangXingSound(c: Chart, n: nat)
    requires WellSized(c) && n <= 12
    ensures forall k :: 0 <= k < |ShuangXingUpTo(c, n)| ==>
      var e := ShuangXingUpTo(c, n)[k];
      0 <= e.gongIndex < n && MainStars(GongStars(c, e.gongIndex)) == [e.xing1Name, e.xing2Name] &&
      e.kind == PairType(e.xing1Name, e.xing2Name)
    ensures forall k, l :: 0 <= k < l < |ShuangXingUpTo(c, n)| ==>
      ShuangXingUpTo(c, n)[k].gongIndex < ShuangXingUpTo(c, n)[l].gongIndex
  {
    if n > 0 {
      ShuangXingSound(c, n - 1);
      var prev := ShuangXingUpTo(c, n - 1);
      var zhuXing := MainStars(GongStars(c, n - 1));
      assert forall k :: 0 <= k < |prev| ==> ShuangXingUpTo(c, n)[k] == prev[k];
      if |zhuXing| == 2 {
        assert zhuXing == [zhuXing[0], zhuXing[1]];
      }
    }
  }

  /** Every palace with exactly two main stars has its entry. */
  lemma {:induction false} ShuangXingComplete(c: Chart, n: nat, p: nat)
    requires WellSized(c) && p < n <= 12 && |MainStars(GongStars(c, p))| == 2
    ensures exists k :: 0 <= k < |ShuangXingUpTo(c, n)| && ShuangXingUpTo(c, n)[k].gongIndex == p
  {
    var prev := ShuangXingUpTo(c, n - 1);
    if p < n - 1 {
      ShuangXingComplete(c, n - 1, p);
      var k :| 0 <= k < |prev| && prev[k].gongIndex == p;
      assert ShuangXingUpTo(c, n)[k] == prev[k];
    } else {
      assert ShuangXingUpTo(c, n)[|prev|].gongIndex == p;
    }
  }
}
