/** The three directions and four positions (三方四正) of a Zi Wei chart: a
  * palace with its opposite palace and its two triad partners, the two
  * neighbours that flank it (夹宫), and the empty palaces (空宫) that borrow
  * the main stars of their opposite palace. Palace star lists hold star
  * names as strings. */
module ZiWeiSanFang {
  import opened GanZhi
  import opened ZiWeiStar

  // ---------------------------------------------------------------------
  // Star name sets

  /** The fourteen main stars (正曜) by name. */
  const ZhengYao: set<string> := {"紫微", "天机", "太阳", "武曲", "天同", "廉贞",
                                  "天府", "太阴", "贪狼", "巨门", "天相", "天梁", "七杀", "破军"}

  /** The auspicious stars that can flank a palace (吉星). */
  const JiXing: set<string> := {"左辅", "右弼", "文昌", "文曲", "天魁", "天钺", "禄存"}

  /** The malefic stars that can flank a palace (煞星). */
  const ShaXing: set<string> := {"擎羊", "陀罗", "火星", "铃星", "地空", "地劫"}

  /** The main-star names are exactly the names of the fourteen main stars. */
  lemma ZhengYaoNames(s: string)
    ensures s in ZhengYao <==> exists x :: ZhName(x) == s
  {
    if s in ZhengYao {
      if s == "紫微" { assert ZhName(ZiWei) == s; }
      else if s == "天机" { assert ZhName(TianJi) == s; }
      else if s == "太阳" { assert ZhName(TaiYang) == s; }
      else if s == "武曲" { assert ZhName(WuQu) == s; }
      else if s == "天同" { assert ZhName(TianTong) == s; }
      else if s == "廉贞" { assert ZhName(LianZhen) == s; }
      else if s == "天府" { assert ZhName(TianFu) == s; }
      else if s == "太阴" { assert ZhName(TaiYin) == s; }
      else if s == "贪狼" { assert ZhName(TanLang) == s; }
      else if s == "巨门" { assert ZhName(JuMen) == s; }
      else if s == "天相" { assert ZhName(TianXiang) == s; }
      else if s == "天梁" { assert ZhName(TianLiang) == s; }
      else if s == "七杀" { assert ZhName(QiSha) == s; }
      else { assert ZhName(PoJun) == s; }
    }
  }

  /** No auspicious or malefic flanking star is a main star, and no star is
    * both auspicious and malefic. */
  lemma StarSetsDisjoint()
    ensures ZhengYao * JiXing == {} && ZhengYao * ShaXing == {} && JiXing * ShaXing == {}
  {
  }

  /** `is_zhu_xing`: the name is one of the fourteen main stars. */
  predicate IsZhuXing(name: string)
  {
    name in ZhengYao
  }

  /** The main stars of a star list, in list order. */
  function MainStars(list: seq<string>): (r: seq<string>)
    ensures forall k :: 0 <= k < |r| ==> r[k] in ZhengYao
  {
    if list == [] then []
    else MainStars(list[..|list| - 1]) + (if list[|list| - 1] in ZhengYao then [list[|list| - 1]] else [])
  }

  /** A name is among the main stars of a list exactly when it is in the list
    * and is a main star; a list has none exactly when no entry is one. */
  lemma {:induction false} MainStarsMember(list: seq<string>, s: string)
    ensures s in MainStars(list) <==> s in list && s in ZhengYao
    ensures MainStars(list) == [] <==> forall k :: 0 <= k < |list| ==> list[k] !in ZhengYao
  {
    if list != [] {
      var init := list[..|list| - 1];
      MainStarsMember(init, s);
      assert list == init + [list[|list| - 1]];
      assert forall k :: 0 <= k < |init| ==> init[k] == list[k];
    }
  }

  /** Picking the main stars distributes over concatenation. */
  lemma {:induction false} MainStarsAppend(a: seq<string>, b: seq<string>)
    ensures MainStars(a + b) == MainStars(a) + MainStars(b)
    decreases |b|
  {
    if b == [] {
      assert a + b == a;
    } else {
      var init := b[..|b| - 1];
      assert (a + b)[..|a + b| - 1] == a + init;
      MainStarsAppend(a, init);
    }
  }

  /** A list of main stars is its own selection of main stars. */
  lemma {:induction false} MainStarsKeeps(list: seq<string>)
    requires forall k :: 0 <= k < |list| ==> list[k] in ZhengYao
    ensures MainStars(list) == list
  {
    if list != [] {
      var init := list[..|list| - 1];
      MainStarsKeeps(init);
      assert list == init + [list[|list| - 1]];
    }
  }

  /** Picking the main stars twice is picking them once. */
  lemma MainStarsIdempotent(list: seq<string>)
    ensures MainStars(MainStars(list)) == MainStars(list)
  {
    MainStarsKeeps(MainStars(list));
  }

  // ---------------------------------------------------------------------
  // Membership over star lists

  /** Every name of `names` is in `pool`. */
  predicate AllIn(names: seq<string>, pool: seq<string>)
  {
    forall k :: 0 <= k < |names| ==> names[k] in pool
  }

  /** Some name of `names` is in `pool`. */
  predicate AnyIn(names: seq<string>, pool: seq<string>)
  {
    exists k :: 0 <= k < |names| && names[k] in pool
  }

  /** The edge cases of the membership tests: the empty list of names is
    * all present and none present, and a single name is present in either
    * sense exactly when it is in the pool. */
  lemma MembershipEdgeCases(pool: seq<string>, x: string)
    ensures AllIn([], pool) && !AnyIn([], pool)
    ensures AllIn([x], pool) <==> x in pool
    ensures AnyIn([x], pool) <==> x in pool
  {
    assert [x][0] == x;
  }

  /** Testing names one by one: `AllIn` of a concatenation is `AllIn` of both
    * parts, and `AnyIn` of either. */
  lemma MembershipAppend(a: seq<string>, b: seq<string>, pool: seq<string>)
    ensures AllIn(a + b, pool) <==> AllIn(a, pool) && AllIn(b, pool)
    ensures AnyIn(a + b, pool) <==> AnyIn(a, pool) || AnyIn(b, pool)
  {
    assert forall k :: 0 <= k < |a| ==> (a + b)[k] == a[k];
    assert forall k :: 0 <= k < |b| ==> (a + b)[|a| + k] == b[k];
  }

  /** The loop of `san_fang_has_all_stars` and `gong_has_all_stars`: returns
    * false at the first name not in the pool. */
  method HasAll(pool: seq<string>, names: seq<string>) returns (b: bool)
    ensures b <==> AllIn(names, pool)
  {
    for k := 0 to |names|
      invariant forall j :: 0 <= j < k ==> names[j] in pool
    {
      if names[k] !in pool {
        return false;
      }
    }
    return true;
  }

  /** The loop of `san_fang_has_any_star` and `gong_has_any_star`: returns
    * true at the first name in the pool. */
  method HasAny(pool: seq<string>, names: seq<string>) returns (b: bool)
    ensures b <==> AnyIn(names, pool)
  {
    for k := 0 to |names|
      invariant forall j :: 0 <= j < k ==> names[j] !in pool
    {
      if names[k] in pool {
        return true;
      }
    }
    return false;
  }

  /** The flag loops of `is_ji_xing_jia` and `is_sha_xing_jia`: stops at the
    * first star of the list that belongs to `kind`. */
  method SideHas(list: seq<string>, kind: set<string>) returns (found: bool)
    ensures found <==> exists k :: 0 <= k < |list| && list[k] in kind
  {
    found := false;
    var k := 0;
    while k < |list| && !found
      invariant 0 <= k <= |list|
      invariant !found ==> forall j :: 0 <= j < k ==> list[j] !in kind
      invariant found ==> 0 < k && list[k - 1] in kind
    {
      if list[k] in kind {
        found := true;
      }
      k := k + 1;
    }
  }

  // ---------------------------------------------------------------------
  // The four positions and the flanking palaces

  /** `SanFangSiZheng`: a palace, its opposite palace and the Cai Bo and Guan
    * Lu palaces of its triad. */
  datatype SanFangSiZheng = SanFangSiZheng(benGongIndex: int, duiGongIndex: int, caiBoIndex: int, guanLuIndex: int)

  /** `get_all_indices`: the four palaces in the order ben, dui, cai bo, guan
    * lu. */
  function AllIndices(s: SanFangSiZheng): seq<int>
  {
    [s.benGongIndex, s.duiGongIndex, s.caiBoIndex, s.guanLuIndex]
  }

  /** `get_san_fang_si_zheng`: the palace itself, six palaces on, and four
    * and eight palaces on. */
  function GetSanFangSiZheng(gongIndex: int): (r: SanFangSiZheng)
    ensures r.benGongIndex == FixIndex(gongIndex)
  {
    var g := FixIndex(gongIndex);
    SanFangSiZheng(g, FixIndex(g + 6), FixIndex(g + 8), FixIndex(g + 4))
  }

  /** One step forward of less than a full turn wraps at most once. */
  lemma Wrap12(x: int)
    requires 0 <= x < 24
    ensures FixIndex(x) == if x < 12 then x else x - 12
  {
    if x < 12 { DivMod12(x, 0, x); } else { DivMod12(x, 1, x - 12); }
  }

  /** The four positions of a palace in closed form. */
  lemma SanFangClosedForm(gongIndex: int)
    ensures var s := GetSanFangSiZheng(gongIndex); var b := s.benGongIndex;
            s.duiGongIndex == (if b < 6 then b + 6 else b - 6) &&
            s.caiBoIndex == (if b < 4 then b + 8 else b - 4) &&
            s.guanLuIndex == (if b < 8 then b + 4 else b - 8)
  {
    var b: int := FixIndex(gongIndex);
    Wrap12(b + 6);
    Wrap12(b + 8);
    Wrap12(b + 4);
  }

  /** The four palaces are distinct palaces of the ring. The palace and its
    * two partners form a triad (their indices agree modulo four), while the
    * opposite palace lies outside it; the opposite of the opposite is the
    * palace itself. */
  lemma SanFangShape(gongIndex: int)
    ensures forall j :: 0 <= j < 4 ==> 0 <= AllIndices(GetSanFangSiZheng(gongIndex))[j] < 12
    ensures forall i, j :: 0 <= i < j < 4 ==>
      AllIndices(GetSanFangSiZheng(gongIndex))[i] != AllIndices(GetSanFangSiZheng(gongIndex))[j]
    ensures GetSanFangSiZheng(gongIndex).caiBoIndex % 4 == GetSanFangSiZheng(gongIndex).benGongIndex % 4
    ensures GetSanFangSiZheng(gongIndex).guanLuIndex % 4 == GetSanFangSiZheng(gongIndex).benGongIndex % 4
    ensures GetSanFangSiZheng(gongIndex).duiGongIndex % 4 != GetSanFangSiZheng(gongIndex).benGongIndex % 4
    ensures AddB(GetSanFangSiZheng(gongIndex).duiGongIndex, 6) == GetSanFangSiZheng(gongIndex).benGongIndex
  {
    var s := GetSanFangSiZheng(gongIndex);
    var b := s.benGongIndex;
    SanFangClosedForm(gongIndex);
    Wrap12(s.duiGongIndex + 6);
    var a := AllIndices(s);
    assert a == [b, s.duiGongIndex, s.caiBoIndex, s.guanLuIndex];
    if b < 4 {
      assert a == [b, b + 6, b + 8, b + 4];
    } else if b < 6 {
      assert a == [b, b + 6, b - 4, b + 4];
    } else if b < 8 {
      assert a == [b, b - 6, b - 4, b + 4];
    } else {
      assert a == [b, b - 6, b - 4, b - 8];
    }
  }

  /** Each palace of a triad has the same triad: the triad of the Cai Bo
    * palace is the Guan Lu palace and the palace itself. */
  lemma SanFangTriadShared(gongIndex: int)
    ensures var s := GetSanFangSiZheng(gongIndex);
            var t := GetSanFangSiZheng(s.caiBoIndex);
            {t.benGongIndex, t.caiBoIndex, t.guanLuIndex} == {s.benGongIndex, s.caiBoIndex, s.guanLuIndex}
  {
    var s := GetSanFangSiZheng(gongIndex);
    SanFangClosedForm(gongIndex);
    SanFangClosedForm(s.caiBoIndex);
    assert FixIndex(s.caiBoIndex) == s.caiBoIndex by { Wrap12(s.caiBoIndex); }
  }

  /** Any index names the same palace as its normal form. */
  lemma SanFangNormalises(gongIndex: int)
    ensures GetSanFangSiZheng(gongIndex + 12) == GetSanFangSiZheng(gongIndex)
    ensures GetSanFangSiZheng(FixIndex(gongIndex)) == GetSanFangSiZheng(gongIndex)
  {
    DivMod12(gongIndex + 12, gongIndex / 12 + 1, gongIndex % 12);
    Wrap12(FixIndex(gongIndex));
  }

  /** `JiaGongInfo`: a palace and the palaces on either side of it. */
  datatype JiaGongInfo = JiaGongInfo(targetGong: int, leftGong: int, rightGong: int)

  /** `get_jia_gong_info`: the palaces one before and one after. */
  function GetJiaGongInfo(gongIndex: int): (r: JiaGongInfo)
    ensures r.targetGong == FixIndex(gongIndex)
  {
    var g := FixIndex(gongIndex);
    JiaGongInfo(g, FixIndex(g - 1), FixIndex(g + 1))
  }

  /** The flanking palaces are the palace's two neighbours, both different
    * from it and from each other. */
  lemma JiaGongNeighbours(gongIndex: int)
    ensures var j := GetJiaGongInfo(gongIndex);
            AddB(j.leftGong, 1) == j.targetGong && AddB(j.targetGong, 1) == j.rightGong &&
            j.leftGong != j.targetGong && j.rightGong != j.targetGong && j.leftGong != j.rightGong
  {
  }

  // ---------------------------------------------------------------------
  // Empty palaces

  /** `KongGongInfo`: an empty palace, its opposite palace and the main stars
    * it borrows from there. */
  datatype KongGongInfo = KongGongInfo(gongIndex: int, duiGongIndex: int, jieXing: seq<string>)

  /** `is_kong_gong`: returns false at the first main star of the list. */
  method IsKongGong(zhuXingList: seq<string>) returns (b: bool)
    ensures b <==> forall k :: 0 <= k < |zhuXingList| ==> zhuXingList[k] !in ZhengYao
    ensures b <==> MainStars(zhuXingList) == []
  {
    MainStarsMember(zhuXingList, "");
    for k := 0 to |zhuXingList|
      invariant forall j :: 0 <= j < k ==> zhuXingList[j] !in ZhengYao
    {
      if zhuXingList[k] in ZhengYao {
        return false;
      }
    }
    return true;
  }

  /** `get_jie_xing_info`: the palace, its opposite palace, and the main
    * stars of the opposite palace's list in their order. */
  method GetJieXingInfo(gongIndex: int, duiGongZhuXing: seq<string>) returns (info: KongGongInfo)
    ensures info == KongGongInfo(FixIndex(gongIndex), FixIndex(FixIndex(gongIndex) + 6), MainStars(duiGongZhuXing))
  {
    var g: int := FixIndex(gongIndex);
    var duiGong := FixIndex(g + 6);
    info := KongGongInfo(g, duiGong, []);
    for k := 0 to |duiGongZhuXing|
      invariant info == KongGongInfo(g, duiGong, MainStars(duiGongZhuXing[..k]))
    {
      assert duiGongZhuXing[..k + 1][..k] == duiGongZhuXing[..k];
      if duiGongZhuXing[k] in ZhengYao {
        info := info.(jieXing := info.jieXing + [duiGongZhuXing[k]]);
      }
    }
    assert duiGongZhuXing[..|duiGongZhuXing|] == duiGongZhuXing;
  }

  /** The empty palaces among the first `n`, each borrowing from its opposite
    * palace. */
  function AllKongGong(stars: seq<seq<string>>, n: nat): seq<KongGongInfo>
    requires n <= |stars| == 12
  {
    if n == 0 then []
    else
      var i := n - 1;
      AllKongGong(stars, i) +
      (if MainStars(stars[i]) == [] then [KongGongInfo(i, FixIndex(i + 6), MainStars(stars[FixIndex(i + 6)]))] else [])
  }

  /** `get_all_kong_gong` lists only empty palaces, in ascending order, each
    * with the main stars of the palace six on. */
  lemma {:induction false} AllKongGongSound(stars: seq<seq<string>>, n: nat)
    requires n <= |stars| == 12
    ensures forall k :: 0 <= k < |AllKongGong(stars, n)| ==>
      var e := AllKongGong(stars, n)[k];
      0 <= e.gongIndex < n && MainStars(stars[e.gongIndex]) == [] &&
      e.duiGongIndex == AddB(e.gongIndex, 6) && e.jieXing == MainStars(stars[e.duiGongIndex])
    ensures forall k, l :: 0 <= k < l < |AllKongGong(stars, n)| ==>
      AllKongGong(stars, n)[k].gongIndex < AllKongGong(stars, n)[l].gongIndex
  {
    if n > 0 {
      AllKongGongSound(stars, n - 1);
      var prev := AllKongGong(stars, n - 1);
      assert forall k :: 0 <= k < |prev| ==> AllKongGong(stars, n)[k] == prev[k];
    }
  }

  /** `get_all_kong_gong` lists every empty palace. */
  lemma {:induction false} AllKongGongComplete(stars: seq<seq<string>>, n: nat, p: nat)
    requires p < n <= |stars| == 12 && MainStars(stars[p]) == []
    ensures exists k :: 0 <= k < |AllKongGong(stars, n)| && AllKongGong(stars, n)[k].gongIndex == p
  {
    var prev := AllKongGong(stars, n - 1);
    if p < n - 1 {
      AllKongGongComplete(stars, n - 1, p);
      var k :| 0 <= k < |prev| && prev[k].gongIndex == p;
      assert AllKongGong(stars, n)[k] == prev[k];
    } else {
      assert AllKongGong(stars, n)[|prev|].gongIndex == p;
    }
  }

  // ---------------------------------------------------------------------
  // The analyzer over a chart's star lists

  /** The stars of the four positions of a palace, palace by palace. */
  function SanFangStars(stars: seq<seq<string>>, gongIndex: int): seq<string>
    requires |stars| == 12
  {
    var s := GetSanFangSiZheng(gongIndex);
    stars[s.benGongIndex] + stars[s.duiGongIndex] + stars[s.caiBoIndex] + stars[s.guanLuIndex]
  }

  /** A star is among the four positions exactly when one of the four
    * palaces lists it. */
  lemma SanFangStarsMember(stars: seq<seq<string>>, gongIndex: int, name: string)
    requires |stars| == 12
    ensures name in SanFangStars(stars, gongIndex) <==>
      exists j :: 0 <= j < 4 && name in stars[AllIndices(GetSanFangSiZheng(gongIndex))[j]]
  {
    var s := GetSanFangSiZheng(gongIndex);
    var a := AllIndices(s);
    if name in SanFangStars(stars, gongIndex) {
      if name in stars[a[0]] {} else if name in stars[a[1]] {} else if name in stars[a[2]] {} else { assert name in stars[a[3]]; }
    }
  }

  /** The lists of the palaces `idx`, one after the other. */
  function ConcatStars(stars: seq<seq<string>>, idx: seq<int>): seq<string>
    requires |stars| == 12 && forall j :: 0 <= j < |idx| ==> 0 <= idx[j] < 12
  {
    if idx == [] then [] else ConcatStars(stars, idx[..|idx| - 1]) + stars[idx[|idx| - 1]]
  }

  /** `get_san_fang_stars`: appends the lists of the four palaces in the
    * order of `get_all_indices`. */
  method GetSanFangStars(stars: seq<seq<string>>, gongIndex: int) returns (result: seq<string>)
    requires |stars| == 12
    ensures result == SanFangStars(stars, gongIndex)
  {
    var idxs := AllIndices(GetSanFangSiZheng(gongIndex));
    result := [];
    for j := 0 to |idxs|
      invariant result == ConcatStars(stars, idxs[..j])
    {
      assert idxs[..j + 1][..j] == idxs[..j];
      result := result + stars[idxs[j]];
    }
    assert ConcatStars(stars, idxs[..1]) == stars[idxs[0]] by { assert idxs[..1][..0] == []; }
    assert ConcatStars(stars, idxs[..2]) == stars[idxs[0]] + stars[idxs[1]] by { assert idxs[..2][..1] == idxs[..1]; }
    assert ConcatStars(stars, idxs[..3]) == stars[idxs[0]] + stars[idxs[1]] + stars[idxs[2]] by { assert idxs[..3][..2] == idxs[..2]; }
    assert idxs[..4] == idxs && idxs[..4][..3] == idxs[..3];
  }

  /** `san_fang_has_star`. */
  method SanFangHasStar(stars: seq<seq<string>>, gongIndex: int, starName: string) returns (b: bool)
    requires |stars| == 12
    ensures b <==> starName in SanFangStars(stars, gongIndex)
  {
    var sanFangStars := GetSanFangStars(stars, gongIndex);
    b := starName in sanFangStars;
  }

  /** `san_fang_has_all_stars`. */
  method SanFangHasAllStars(stars: seq<seq<string>>, gongIndex: int, starNames: seq<string>) returns (b: bool)
    requires |stars| == 12
    ensures b <==> AllIn(starNames, SanFangStars(stars, gongIndex))
  {
    var sanFangStars := GetSanFangStars(stars, gongIndex);
    b := HasAll(sanFangStars, starNames);
  }

  /** `san_fang_has_any_star`. */
  method SanFangHasAnyStar(stars: seq<seq<string>>, gongIndex: int, starNames: seq<string>) returns (b: bool)
    requires |stars| == 12
    ensures b <==> AnyIn(starNames, SanFangStars(stars, gongIndex))
  {
    var sanFangStars := GetSanFangStars(stars, gongIndex);
    b := HasAny(sanFangStars, starNames);
  }

  /** `get_jia_gong_stars`: the left neighbour's stars, then the right's;
    * a star is among them exactly when a neighbour lists it. */
  method GetJiaGongStars(stars: seq<seq<string>>, gongIndex: int) returns (result: seq<string>)
    requires |stars| == 12
    ensures result == stars[GetJiaGongInfo(gongIndex).leftGong] + stars[GetJiaGongInfo(gongIndex).rightGong]
    ensures forall x :: x in result <==>
      x in stars[AddB(FixIndex(gongIndex), -1)] || x in stars[AddB(FixIndex(gongIndex), 1)]
  {
    var jiaGong := GetJiaGongInfo(gongIndex);
    result := [];
    result := result + stars[jiaGong.leftGong];
    result := result + stars[jiaGong.rightGong];
  }

  /** Both neighbours of a palace list a star of `kind`. */
  predicate FlankedBy(stars: seq<seq<string>>, gongIndex: int, kind: set<string>)
    requires |stars| == 12
  {
    var j := GetJiaGongInfo(gongIndex);
    (exists k :: 0 <= k < |stars[j.leftGong]| && stars[j.leftGong][k] in kind) &&
    (exists k :: 0 <= k < |stars[j.rightGong]| && stars[j.rightGong][k] in kind)
  }

  /** `is_ji_xing_jia`: both neighbours hold an auspicious star. */
  method IsJiXingJia(stars: seq<seq<string>>, gongIndex: int) returns (b: bool)
    requires |stars| == 12
    ensures b <==> FlankedBy(stars, gongIndex, JiXing)
  {
    var jiaGong := GetJiaGongInfo(gongIndex);
    var leftIsJi := SideHas(stars[jiaGong.leftGong], JiXing);
    var rightIsJi := SideHas(stars[jiaGong.rightGong], JiXing);
    b := leftIsJi && rightIsJi;
  }

  /** `is_sha_xing_jia`: both neighbours hold a malefic star. */
  method IsShaXingJia(stars: seq<seq<string>>, gongIndex: int) returns (b: bool)
    requires |stars| == 12
    ensures b <==> FlankedBy(stars, gongIndex, ShaXing)
  {
    var jiaGong := GetJiaGongInfo(gongIndex);
    var leftIsSha := SideHas(stars[jiaGong.leftGong], ShaXing);
    var rightIsSha := SideHas(stars[jiaGong.rightGong], ShaXing);
    b := leftIsSha && rightIsSha;
  }

  /** A palace with an empty neighbour is never flanked. */
  lemma FlankNeedsBothSides(stars: seq<seq<string>>, gongIndex: int, kind: set<string>)
    requires |stars| == 12
    requires stars[AddB(FixIndex(gongIndex), -1)] == [] || stars[AddB(FixIndex(gongIndex), 1)] == []
    ensures !FlankedBy(stars, gongIndex, kind)
  {
  }

  /** `get_all_kong_gong`: the empty palaces in ascending order, each with
    * what it borrows (see `AllKongGongSound` and `AllKongGongComplete`). */
  method GetAllKongGong(stars: seq<seq<string>>) returns (result: seq<KongGongInfo>)
    requires |stars| == 12
    ensures result == AllKongGong(stars, 12)
  {
    result := [];
    for i := 0 to 12
      invariant result == AllKongGong(stars, i)
    {
      var empty := IsKongGong(stars[i]);
      if empty {
        var duiGong := FixIndex(i + 6);
        var kongInfo := GetJieXingInfo(i, stars[duiGong]);
        result := result + [kongInfo];
      }
    }
  }
}
