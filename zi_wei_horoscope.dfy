/** The fortune periods of Zi Wei Dou Shu: the ten-year Da Xian, the yearly
  * Xiao Xian, the flowing year, month, day and hour palaces, and the flowing
  * stars of a period. Star names are modelled by the stars themselves. */
module ZiWeiHoroscope {
  import opened GanZhi
  import opened CArith
  import opened ZiWeiStar
  import R = ZiWeiRings
  import opened Wrappers
  import opened ZiWeiSiHua

  // ---------------------------------------------------------------------
  // The four transformation names of a stem

  /** The fourteen main stars in declaration order, the order in which a
    * `map<ZhuXing, SiHua>` is iterated. */
  function AllStars(): (s: seq<ZhuXing>)
    ensures |s| == 14
  {
    [ZiWei, TianJi, TaiYang, WuQu, TianTong, LianZhen, TianFu, TaiYin, TanLang, JuMen,
     TianXiang, TianLiang, QiSha, PoJun]
  }

  /** Every main star is listed, once. */
  lemma AllStarsComplete(x: ZhuXing)
    ensures x in AllStars()
    ensures forall i, k :: 0 <= i < k < 14 ==> AllStars()[i] != AllStars()[k]
  {
  }

  /** The first `n` stars of `s` that are keys of `t`, in the order of `s`. */
  function KeysOf(t: map<ZhuXing, SiHua>, s: seq<ZhuXing>, n: nat): seq<ZhuXing>
    requires n <= |s|
  {
    if n == 0 then [] else KeysOf(t, s, n - 1) + (if s[n - 1] in t then [s[n - 1]] else [])
  }

  /** `KeysOf` keeps exactly the listed keys. */
  lemma {:induction false} KeysOfMembers(t: map<ZhuXing, SiHua>, s: seq<ZhuXing>, n: nat, x: ZhuXing)
    requires n <= |s|
    ensures x in KeysOf(t, s, n) <==> x in s[..n] && x in t
  {
    if n > 0 {
      KeysOfMembers(t, s, n - 1, x);
      assert s[..n] == s[..n - 1] + [s[n - 1]];
    }
  }

  /** The first four entries of a key list, padded with empty names. */
  function Pad(keys: seq<ZhuXing>): (names: seq<Option<ZhuXing>>)
    ensures |names| == 4
  {
    seq(4, i requires 0 <= i < 4 => if i < |keys| then Some(keys[i]) else None)
  }

  /** The `si_hua` array as every period fills it: the stars of
    * `get_si_hua_table(gan)` in the map's key order, at most four. */
  function MapOrderNames(g: Stem): seq<Option<ZhuXing>>
  {
    Pad(KeysOf(SiHuaTable(g), AllStars(), 14))
  }

  /** The loop every period runs over `get_si_hua_table(gan)`: each star of
    * the map goes to the next free name while fewer than four are taken. */
  method SiHuaNamesAsWritten(g: Stem) returns (names: seq<Option<ZhuXing>>)
    ensures names == MapOrderNames(g)
  {
    var t := SiHuaTable(g);
    var stars := AllStars();
    names := [None, None, None, None];
    var siHuaIdx := 0;
    for k := 0 to 14
      invariant siHuaIdx == if |KeysOf(t, stars, k)| < 4 then |KeysOf(t, stars, k)| else 4
      invariant names == Pad(KeysOf(t, stars, k))
    {
      if stars[k] in t {
        if siHuaIdx < 4 {
          names := names[siHuaIdx := Some(stars[k])];
          siHuaIdx := siHuaIdx + 1;
        }
      }
    }
  }

  /** A stem transforms at most four stars, so the loop drops none of them:
    * a star is named exactly when the stem's table lists it. */
  lemma MapOrderNamesComplete(g: Stem, x: ZhuXing)
    ensures |KeysOf(SiHuaTable(g), AllStars(), 14)| <= 4
    ensures Some(x) in MapOrderNames(g) <==> x in SiHuaTable(g)
  {
    var keys := KeysOf(SiHuaTable(g), AllStars(), 14);
    SiHuaTableSize(g);
    KeysOfMembers(SiHuaTable(g), AllStars(), 14, x);
    AllStarsComplete(x);
    assert AllStars()[..14] == AllStars();
    if x in keys {
      var i :| 0 <= i < |keys| && keys[i] == x;
      assert MapOrderNames(g)[i] == Some(x);
    }
  }

  /** The names come out in star order, not in transformation order: for
    * Jia the first name, which is read as the Lu star, is Tai Yang, whose
    * transformation is Ji; the Lu star of Jia is Lian Zhen. */
  lemma MapOrderNamesMisorder(g: Stem)
    requires g == Jia
    ensures MapOrderNames(g)[0] == Some(TaiYang) && SiHuaTable(g)[TaiYang] == Ji
    ensures SiHuaStars(g)[0] == Some(LianZhen) && SiHuaTable(g)[LianZhen] == SiHua.Lu
  {
    JiaMapOrderFirst(g);
    assert SiHuaStars(g)[0] == Some(LianZhen);
  }

  /** Tai Yang is the first star of Jia's table in key order. */
  lemma JiaMapOrderFirst(g: Stem)
    requires g == Jia
    ensures MapOrderNames(g)[0] == Some(TaiYang)
  {
    KeysOfFirst(SiHuaTable(g), AllStars(), 14, 2);
  }

  /** The first key found is the first listed star the map holds. */
  lemma {:induction false} KeysOfFirst(t: map<ZhuXing, SiHua>, s: seq<ZhuXing>, n: nat, i: nat)
    requires i < n <= |s| && s[i] in t
    requires forall k :: 0 <= k < i ==> s[k] !in t
    ensures |KeysOf(t, s, n)| > 0 && KeysOf(t, s, n)[0] == s[i]
  {
    if n > i + 1 {
      KeysOfFirst(t, s, n - 1, i);
    } else {
      KeysOfNone(t, s, i);
    }
  }

  /** A scan that meets no key finds none. */
  lemma {:induction false} KeysOfNone(t: map<ZhuXing, SiHua>, s: seq<ZhuXing>, n: nat)
    requires n <= |s|
    requires forall k :: 0 <= k < n ==> s[k] !in t
    ensures KeysOf(t, s, n) == []
  {
    if n > 0 {
      KeysOfNone(t, s, n - 1);
    }
  }

  /** A longer scan extends the keys of a shorter one. */
  lemma {:induction false} KeysOfPrefix(t: map<ZhuXing, SiHua>, s: seq<ZhuXing>, m: nat, n: nat)
    requires m <= n <= |s|
    ensures |KeysOf(t, s, m)| <= |KeysOf(t, s, n)|
    ensures KeysOf(t, s, n)[..|KeysOf(t, s, m)|] == KeysOf(t, s, m)
  {
    if m < n {
      KeysOfPrefix(t, s, m, n - 1);
      assert KeysOf(t, s, n)[..|KeysOf(t, s, n - 1)|] == KeysOf(t, s, n - 1);
    }
  }

  /** The table of every stem has at most four stars, and `KeysOf` lists
    * each of them once. */
  lemma SiHuaTableSize(g: Stem)
    ensures |KeysOf(SiHuaTable(g), AllStars(), 14)| <= 4
  {
    var t := SiHuaTable(g);
    var keys := KeysOf(t, AllStars(), 14);
    AllStarsComplete(ZiWei);
    KeysOfDistinct(t, AllStars(), 14);
    DistinctCard(keys);
    forall x | x in keys ensures x in t.Keys {
      KeysOfMembers(t, AllStars(), 14, x);
    }
    SiHuaTableKeys(g);
    SubsetCard((set x | x in keys), t.Keys);
  }

  /** No stem transforms more than four stars. */
  lemma SiHuaTableKeys(g: Stem)
    ensures |SiHuaTable(g).Keys| <= 4
  {
    if g < Ding { SiHuaTableJiaToBing(g); }
    else if g < Geng { SiHuaTableDingToJi(g); }
    else { SiHuaTableGengToGui(g); }
  }

  /** The tables of Jia, Yi and Bing have at most four stars. */
  lemma SiHuaTableJiaToBing(g: Stem)
    requires g < Ding
    ensures |SiHuaTable(g)| <= 4
  {
  }

  /** The tables of Ding, Wu and Ji have at most four stars. */
  lemma SiHuaTableDingToJi(g: Stem)
    requires Ding <= g < Geng
    ensures |SiHuaTable(g)| <= 4
  {
  }

  /** The tables of Geng, Xin, Ren and Gui have at most four stars. */
  lemma SiHuaTableGengToGui(g: Stem)
    requires Geng <= g
    ensures |SiHuaTable(g)| <= 4
  {
  }

  /** A subset is no larger than its superset. */
  lemma SubsetCard<T>(a: set<T>, b: set<T>)
    requires a <= b
    ensures |a| <= |b|
    decreases a
  {
    if a != {} {
      var x :| x in a;
      SubsetCard(a - {x}, b - {x});
    }
  }

  /** A list drawn from a list without repeats has no repeats either. */
  lemma {:induction false} KeysOfDistinct(t: map<ZhuXing, SiHua>, s: seq<ZhuXing>, n: nat)
    requires n <= |s|
    requires forall i, k :: 0 <= i < k < |s| ==> s[i] != s[k]
    ensures forall i, k :: 0 <= i < k < |KeysOf(t, s, n)| ==> KeysOf(t, s, n)[i] != KeysOf(t, s, n)[k]
  {
    if n > 0 {
      KeysOfDistinct(t, s, n - 1);
      KeysOfMembers(t, s, n - 1, s[n - 1]);
    }
  }

  /** A list without repeats has as many elements as its set. */
  lemma {:induction false} DistinctCard<T>(q: seq<T>)
    requires forall i, k :: 0 <= i < k < |q| ==> q[i] != q[k]
    ensures |set x | x in q| == |q|
  {
    if |q| > 0 {
      var p := q[..|q| - 1];
      DistinctCard(p);
      assert (set x | x in q) == (set x | x in p) + {q[|q| - 1]};
    }
  }

  // ---------------------------------------------------------------------
  // Da Xian

  /** One decade: `DaXianData`. */
  datatype DaXian = DaXian(startAge: int, endAge: int, gongIndex: Palace, tianGan: Stem,
                           diZhi: Branch, siHua: seq<Option<ZhuXing>>)

  /** The decade stem as written, `(gan_offset + 10) % 10` with the C++
    * remainder. */
  function DaXianStemAsWritten(forward: bool, i: int): int
  {
    CRem((if forward then i else -i) + 10, 10)
  }

  /** The decade stem counted from Jia, as the comment of `arrange_da_xian`
    * describes it: forward or backward around the ten stems. */
  function DaXianStem(forward: bool, i: int): (g: Stem)
    ensures g == AddS(Jia, if forward then i else -i)
  {
    DivMod10((if forward then i else -i) + 10, (if forward then i else -i) / 10 + 1, AddS(Jia, if forward then i else -i));
    ((if forward then i else -i) + 10) % 10
  }

  /** Euclidean division by ten is determined by quotient and remainder. */
  lemma DivMod10(x: int, q: int, r: int)
    requires 0 <= r < 10 && x == 10 * q + r
    ensures x % 10 == r
  {
  }

  /** The C++ remainder yields -1, no stem at all, for the twelfth decade of
    * a backward chart, and agrees with the stem for every other decade. */
  lemma DaXianStemAsWrittenNegative(forward: bool, i: int)
    requires 0 <= i < 12
    ensures DaXianStemAsWritten(false, 11) == -1
    ensures DaXianStemAsWritten(forward, i) == DaXianStem(forward, i) <==> forward || i < 11
  {
  }

  /** The first decade has stem Jia, and each later decade steps one stem
    * forward or backward. */
  lemma DaXianStemSteps(forward: bool, i: int)
    ensures DaXianStem(forward, 0) == Jia
    ensures DaXianStem(forward, i + 1) == AddS(DaXianStem(forward, i), if forward then 1 else -1)
  {
    var n := if forward then i else -i;
    var m := if forward then i + 1 else -(i + 1);
    assert m == n + (if forward then 1 else -1);
    DivMod10(n % 10 + (if forward then 1 else -1), m / 10 - n / 10, m % 10);
  }

  /** The branch of a palace counted from Yin, as written
    * `static_cast<DiZhi>(idx)`: the palace number read as a branch. */
  function PalaceBranchAsWritten(p: Palace): Branch
  {
    p
  }

  /** The branch of a palace counted from Yin: the inverse of
    * `di_zhi_to_index`. */
  function PalaceBranch(p: Palace): (z: Branch)
    ensures DiZhiToIndex(z) == p
  {
    DivMod12(AddB(p, 2) - 2, -((p + 2) / 12), p);
    AddB(p, 2)
  }

  /** Reading the palace number as a branch names the branch two palaces
    * back: the Yin palace, number 0, is given the branch Zi. */
  lemma PalaceBranchAsWrittenMisplaces(p: Palace)
    ensures PalaceBranchAsWritten(0) == Zi && PalaceBranch(0) == Yin
    ensures DiZhiToIndex(PalaceBranchAsWritten(p)) == AddB(p, -2)
    ensures PalaceBranchAsWritten(p) != PalaceBranch(p)
  {
  }

  /** The `i`-th decade of the chart. */
  function DaXianAt(ming: int, j: WuXingJu, forward: bool, i: int): DaXian
  {
    var idx := R.Slot(ming, forward, i);
    var g := DaXianStem(forward, i);
    DaXian(JuNumber(j) + 10 * i, JuNumber(j) + 10 * i + 9, idx, g, PalaceBranch(idx), SiHuaStars(g))
  }

  /** The decades in order. */
  function Decades(ming: int, j: WuXingJu, forward: bool): (d: seq<DaXian>)
    ensures |d| == 12
  {
    seq(12, i requires 0 <= i < 12 => DaXianAt(ming, j, forward, i))
  }

  /** `arrange_da_xian`: the `i`-th decade goes to `fix_index(ming ± i)`,
    * with the corrected stem, branch and transformation order of `Decade`. */
  method ArrangeDaXian(ming: int, j: WuXingJu, isMale: bool, y: Branch) returns (r: seq<DaXian>)
    ensures r == R.Arranged(ming, R.Forward(isMale, y), Decades(ming, j, R.Forward(isMale, y)))
  {
    var result := new DaXian[12](_ => DaXian(0, 0, 0, 0, 0, [None, None, None, None]));
    var shunXing := isMale == (y % 2 == 0);
    for i := 0 to 12
      invariant forall k :: 0 <= k < i ==> result[R.Slot(ming, shunXing, k)] == DaXianAt(ming, j, shunXing, k)
    {
      var d := Decade(ming, j, shunXing, i);
      forall k | 0 <= k < i
        ensures R.Slot(ming, shunXing, k) != d.gongIndex
      {
        if R.Slot(ming, shunXing, k) == d.gongIndex {
          R.SlotInjective(ming, shunXing, k, i);
        }
      }
      result[d.gongIndex] := d;
    }
    r := result[..];
    R.ArrangedBySlots(ming, shunXing, Decades(ming, j, shunXing), r);
  }

  /** One pass of the loop of `arrange_da_xian`: the `i`-th decade, with the
    * stem, branch and transformation order corrected as `DaXianStem`,
    * `PalaceBranch` and `SiHuaStars` give them. */
  method Decade(ming: int, j: WuXingJu, shunXing: bool, i: int) returns (d: DaXian)
    ensures d == DaXianAt(ming, j, shunXing, i) && d.gongIndex == R.Slot(ming, shunXing, i)
  {
    var qiYunAge := JuNumber(j);
    var idx := if shunXing then FixIndex(ming + i) else FixIndex(ming - i);
    var startAge := qiYunAge + 10 * i;
    var endAge := startAge + 9;
    var ganOffset := if shunXing then i else -i;
    // Dafny's `%` is Euclidean, so this is the corrected stem; the C++
    // remainder gives -1 here for the twelfth backward decade
    // (`DaXianStemAsWritten`).
    var ganIdx := (ganOffset + 10) % 10;
    // Lu, Quan, Ke, Ji order, not the key order of the star map
    // (`MapOrderNames`).
    var siHua := SiHuaStars(ganIdx);
    // The palace's own branch, not the palace number cast to a branch
    // (`PalaceBranchAsWritten`).
    d := DaXian(startAge, endAge, idx, ganIdx, (idx + 2) % 12, siHua);
  }

  /** The Ming palace holds the first decade, which starts at the bureau
    * number; each decade spans ten years and sits on its own palace; the
    * next decade, one palace further in the chart's direction, starts ten
    * years later. */
  lemma DaXianChart(ming: int, j: WuXingJu, forward: bool, i: int)
    requires 0 <= i < 11
    ensures R.Arranged(ming, forward, Decades(ming, j, forward))[FixIndex(ming)].startAge == JuNumber(j)
    ensures var d := R.Arranged(ming, forward, Decades(ming, j, forward))[R.Slot(ming, forward, i)];
      d.endAge == d.startAge + 9 && d.gongIndex == R.Slot(ming, forward, i)
    ensures R.Arranged(ming, forward, Decades(ming, j, forward))[R.Slot(ming, forward, i + 1)].startAge
         == R.Arranged(ming, forward, Decades(ming, j, forward))[R.Slot(ming, forward, i)].startAge + 10
  {
    R.ArrangedStart(ming, forward, Decades(ming, j, forward));
    R.ArrangedAt(ming, forward, Decades(ming, j, forward), i);
    R.ArrangedAt(ming, forward, Decades(ming, j, forward), i + 1);
  }

  /** Every palace holds exactly one decade, which names its own palace and
    * that palace's branch (corrected, `PalaceBranch`), and carries the
    * transformations of its stem in Lu, Quan, Ke, Ji order. */
  lemma DaXianEveryPalace(ming: int, j: WuXingJu, forward: bool, p: Palace)
    ensures var d := R.Arranged(ming, forward, Decades(ming, j, forward))[p];
      d.gongIndex == p && DiZhiToIndex(d.diZhi) == p && d.siHua == SiHuaStars(d.tianGan)
    ensures multiset(R.Arranged(ming, forward, Decades(ming, j, forward))) == multiset(Decades(ming, j, forward))
  {
    R.ArrangedPermutes(ming, forward, Decades(ming, j, forward));
  }

  // ---------------------------------------------------------------------
  // Xiao Xian and the flowing periods

  /** `get_xiao_xian`: the childhood table for ages one to six, otherwise
    * the age counted from the Yin palace in the chart's direction. */
  function XiaoXian(age: int, isMale: bool, y: Branch): (p: Palace)
    ensures 1 <= age <= 6 ==> p == ChildhoodPalaces()[age - 1]
    ensures !(1 <= age <= 6) ==> p == AddB(0, if R.Forward(isMale, y) then age - 1 else -(age - 1))
  {
    if 1 <= age <= 6 then ChildhoodPalaces()[age - 1]
    else if R.Forward(isMale, y) then FixIndex(0 + (age - 1)) else FixIndex(0 - (age - 1))
  }

  /** The childhood palaces of ages one to six, counted from Yin. */
  function ChildhoodPalaces(): (t: seq<Palace>)
    ensures |t| == 6
  {
    [0, 1, 8, 3, 10, 6]
  }

  /** Ages one to six take six different palaces, age one the Yin palace,
    * which is also where the yearly count starts; at age seven both
    * directions of that count meet on the palace opposite Yin. */
  lemma XiaoXianChildhood(isMale: bool, y: Branch)
    ensures forall a, b :: 1 <= a < b <= 6 ==> XiaoXian(a, isMale, y) != XiaoXian(b, isMale, y)
    ensures XiaoXian(1, isMale, y) == 0 == AddB(0, 0)
    ensures XiaoXian(7, isMale, y) == AddB(0, 6) == 6
  {
  }

  /** From age seven on, each year moves the Xiao Xian one palace in the
    * chart's direction, and twelve years bring it back. */
  lemma XiaoXianStep(age: int, isMale: bool, y: Branch)
    requires age >= 7
    ensures XiaoXian(age + 1, isMale, y) == AddB(XiaoXian(age, isMale, y), if R.Forward(isMale, y) then 1 else -1)
    ensures XiaoXian(age + 12, isMale, y) == XiaoXian(age, isMale, y)
  {
    FixIndexAdd(age - 1, 1);
    FixIndexAdd(0 - (age - 1), -1);
    FixIndexAdd(age - 1, 12);
    FixIndexAdd(0 - (age - 1), -12);
    DivMod12(FixIndex(age - 1) + 12, 1, FixIndex(age - 1));
    DivMod12(FixIndex(0 - (age - 1)) - 12, -1, FixIndex(0 - (age - 1)));
  }

  /** A flowing period: `LiuNianData`, `LiuYueData`, `LiuRiData`,
    * `LiuShiData`, which share these fields. */
  datatype Period = Period(tianGan: Stem, diZhi: Branch, gongIndex: Palace, siHua: seq<Option<ZhuXing>>)

  /** `get_liu_nian`: the flowing year sits on the palace of the year
    * branch, `(zhi + 10) % 12`; its transformations are in Lu, Quan, Ke, Ji
    * order (`SiHuaStars`) rather than star-map order. */
  function LiuNian(yearGan: Stem, yearZhi: Branch): (r: Period)
    ensures r.gongIndex == DiZhiToIndex(yearZhi) && AddB(r.gongIndex, 2) == yearZhi
    ensures r.tianGan == yearGan && r.diZhi == yearZhi && r.siHua == SiHuaStars(yearGan)
  {
    FixIndexAdd(yearZhi - 2, 2);
    Period(yearGan, yearZhi, (yearZhi + 10) % 12, SiHuaStars(yearGan))
  }

  /** The palace of `get_liu_yue`: from the flowing year back to the birth
    * month, then forward to the flowing month. */
  function LiuYueIndex(lunarMonth: int, birthMonth: int, yearZhi: Branch): Palace
  {
    var liuNianIndex := (yearZhi + 10) % 12;
    var birthMonthIndex := FixIndex(liuNianIndex - (birthMonth - 1));
    FixIndex(birthMonthIndex + (lunarMonth - 1))
  }

  /** `get_liu_yue`, with the month stem's transformations in Lu, Quan, Ke,
    * Ji order (`SiHuaStars`) rather than star-map order. */
  function LiuYue(lunarMonth: int, birthMonth: int, monthGan: Stem, monthZhi: Branch, yearZhi: Branch): (r: Period)
    ensures r.gongIndex == AddB(DiZhiToIndex(yearZhi), lunarMonth - birthMonth)
    ensures r.tianGan == monthGan && r.diZhi == monthZhi && r.siHua == SiHuaStars(monthGan)
  {
    LiuYueShift(lunarMonth, birthMonth, yearZhi);
    Period(monthGan, monthZhi, LiuYueIndex(lunarMonth, birthMonth, yearZhi), SiHuaStars(monthGan))
  }

  /** The flowing month is the flowing year's palace shifted by the months
    * since the birth month; in the birth month it is the flowing year's
    * palace itself. */
  lemma LiuYueShift(lunarMonth: int, birthMonth: int, yearZhi: Branch)
    ensures LiuYueIndex(lunarMonth, birthMonth, yearZhi) == AddB(DiZhiToIndex(yearZhi), lunarMonth - birthMonth)
    ensures LiuYueIndex(birthMonth, birthMonth, yearZhi) == DiZhiToIndex(yearZhi)
  {
    var n := DiZhiToIndex(yearZhi);
    FixIndexAdd(n - (birthMonth - 1), lunarMonth - 1);
    DivMod12(n, 0, n);
    DivMod12(n + 0, 0, n);
  }

  /** The palace of `get_liu_ri`: the lunar day counted on from the flowing
    * month. */
  function LiuRiIndex(lunarDay: int, liuYueIndex: int): (p: Palace)
    ensures p == AddB(FixIndex(liuYueIndex), lunarDay - 1)
  {
    FixIndexAdd(liuYueIndex, lunarDay - 1);
    FixIndex(liuYueIndex + (lunarDay - 1))
  }

  /** `get_liu_ri`, with the day stem's transformations in Lu, Quan, Ke, Ji
    * order (`SiHuaStars`) rather than star-map order. */
  function LiuRi(lunarDay: int, dayGan: Stem, dayZhi: Branch, liuYueIndex: int): (r: Period)
    ensures r.gongIndex == AddB(FixIndex(liuYueIndex), lunarDay - 1)
    ensures r.tianGan == dayGan && r.diZhi == dayZhi && r.siHua == SiHuaStars(dayGan)
  {
    Period(dayGan, dayZhi, LiuRiIndex(lunarDay, liuYueIndex), SiHuaStars(dayGan))
  }

  /** The palace of `get_liu_shi`: the hour counted on from the flowing day. */
  function LiuShiIndex(hour: Branch, liuRiIndex: int): (p: Palace)
    ensures p == AddB(FixIndex(liuRiIndex), hour)
  {
    FixIndexAdd(liuRiIndex, hour);
    FixIndex(liuRiIndex + hour)
  }

  /** `get_liu_shi`, with the hour stem's transformations in Lu, Quan, Ke,
    * Ji order (`SiHuaStars`) rather than star-map order. */
  function LiuShi(hour: Branch, hourGan: Stem, liuRiIndex: int): (r: Period)
    ensures r.gongIndex == AddB(FixIndex(liuRiIndex), hour)
    ensures r.tianGan == hourGan && r.diZhi == hour && r.siHua == SiHuaStars(hourGan)
  {
    Period(hourGan, hour, LiuShiIndex(hour, liuRiIndex), SiHuaStars(hourGan))
  }

  /** The first day of a flowing month and the Zi hour of a flowing day stay
    * on the palace they start from. */
  lemma LiuRiLiuShiStart(liuYue: Palace, liuRi: Palace)
    ensures LiuRiIndex(1, liuYue) == liuYue
    ensures LiuShiIndex(Zi, liuRi) == liuRi
  {
  }

  // ---------------------------------------------------------------------
  // Flowing stars

  /** The period a flowing star belongs to; it selects the name prefix. */
  datatype Scope = Origin | Decadal | Yearly | Monthly | Daily | Hourly

  /** The ten flowing stars. */
  datatype FlowKind = Kui | Yue | Chang | Qu | Lu | Yang | Tuo | Ma | Luan | Xi

  /** A star name: a prefixed flowing star, or 年解. */
  datatype FlowStar = Prefixed(scope: Scope, kind: FlowKind) | NianJieStar

  /** The palace of the flowing Tian Ma by the branch's triad. */
  function MaIndex(zhi: Branch): (p: Palace)
  {
    if zhi == Yin || zhi == Wu || zhi == Xu then 6
    else if zhi == Shen || zhi == Zi || zhi == Chen then 0
    else if zhi == Si || zhi == You || zhi == Chou then 9
    else 3
  }

  /** Tian Ma sits opposite the triad's meng branch. */
  lemma MaIndexByMeng(zhi: Branch)
    ensures MaIndex(zhi) == DiZhiToIndex(AddB(MengOf(zhi), 6))
  {
  }

  /** The pushes of `get_horoscope_stars`, in order: 年解 first in yearly
    * scope, then the ten flowing stars. */
  function Pushes(gan: Stem, zhi: Branch, scope: Scope): (ps: seq<(Palace, FlowStar)>)
    ensures |ps| == if scope == Yearly then 11 else 10
  {
    var ky := KuiYue(gan);
    var cq := ChangQu(zhi);
    var lu := LuCun(gan);
    var yt := YangTuo(lu);
    var hx := HongLuanTianXi(zhi);
    var first := if scope == Yearly then [(NianJie(zhi), NianJieStar)] else [];
    first + [(ky.0, Prefixed(scope, Kui)), (ky.1, Prefixed(scope, Yue)), (cq.0, Prefixed(scope, Chang)),
             (cq.1, Prefixed(scope, Qu)), (lu, Prefixed(scope, FlowKind.Lu)), (yt.0, Prefixed(scope, Yang)),
             (yt.1, Prefixed(scope, Tuo)), (MaIndex(zhi), Prefixed(scope, Ma)),
             (hx.0, Prefixed(scope, Luan)), (hx.1, Prefixed(scope, Xi))]
  }

  /** The stars pushed onto palace `p`, in push order. */
  function Collect(ps: seq<(Palace, FlowStar)>, p: Palace): seq<FlowStar>
  {
    if |ps| == 0 then []
    else Collect(ps[..|ps| - 1], p) + (if ps[|ps| - 1].0 == p then [ps[|ps| - 1].1] else [])
  }

  /** `HoroscopeStarData`: a palace and its flowing stars. */
  datatype HoroscopeStars = HoroscopeStars(gongIndex: Palace, stars: seq<FlowStar>)

  /** The twelve star lists after the pushes `ps`, in order. */
  function Placed(ps: seq<(Palace, FlowStar)>): (lists: seq<seq<FlowStar>>)
    ensures |lists| == 12
  {
    if |ps| == 0 then seq(12, _ => [])
    else
      var before := Placed(ps[..|ps| - 1]);
      var (idx, star) := ps[|ps| - 1];
      before[idx := before[idx] + [star]]
  }

  /** Each palace's list holds the stars pushed onto it, in push order. */
  lemma {:induction false} PlacedCollects(ps: seq<(Palace, FlowStar)>, p: Palace)
    ensures Placed(ps)[p] == Collect(ps, p)
  {
    if |ps| > 0 {
      PlacedCollects(ps[..|ps| - 1], p);
    }
  }

  /** The `push_back`s onto the per-palace star lists, one by one. */
  method PushAll(ps: seq<(Palace, FlowStar)>) returns (lists: seq<seq<FlowStar>>)
    ensures lists == Placed(ps)
  {
    lists := seq(12, _ => []);
    for k := 0 to |ps|
      invariant lists == Placed(ps[..k])
    {
      assert ps[..k + 1][..k] == ps[..k];
      var (idx, star) := ps[k];
      lists := lists[idx := lists[idx] + [star]];
    }
    assert ps[..|ps|] == ps;
  }

  /** `get_horoscope_stars`: every palace starts empty and names its own
    * index; the stars are pushed one by one, in the order of `Pushes`. */
  method HoroscopeStarsOf(gan: Stem, zhi: Branch, scope: Scope) returns (r: seq<HoroscopeStars>)
    ensures |r| == 12
    ensures forall p: Palace :: r[p] == HoroscopeStars(p, Collect(Pushes(gan, zhi, scope), p))
  {
    var ps := Pushes(gan, zhi, scope);
    var lists := PushAll(ps);
    r := seq(12, p requires 0 <= p < 12 => HoroscopeStars(p, lists[p]));
    forall p: Palace
      ensures r[p] == HoroscopeStars(p, Collect(ps, p))
    {
      PlacedCollects(ps, p);
    }
  }

  /** The number of stars over palaces `0..n`. */
  function CountUpTo(ps: seq<(Palace, FlowStar)>, n: int): nat
    requires 0 <= n <= 12
  {
    if n == 0 then 0 else CountUpTo(ps, n - 1) + |Collect(ps, n - 1)|
  }

  /** The number of pushes onto palaces below `n`. */
  function CountBelow(ps: seq<(Palace, FlowStar)>, n: int): nat
  {
    if |ps| == 0 then 0
    else CountBelow(ps[..|ps| - 1], n) + (if ps[|ps| - 1].0 < n then 1 else 0)
  }

  /** Counting palace by palace is counting push by push. */
  lemma {:induction false} CountBelowSplit(ps: seq<(Palace, FlowStar)>, n: int)
    requires 0 <= n <= 12
    ensures CountUpTo(ps, n) == CountBelow(ps, n)
  {
    if n > 0 {
      CountBelowSplit(ps, n - 1);
      CountBelowStep(ps, n - 1);
    } else {
      CountBelowZero(ps);
    }
  }

  /** No push lands below palace zero. */
  lemma {:induction false} CountBelowZero(ps: seq<(Palace, FlowStar)>)
    ensures CountBelow(ps, 0) == 0
  {
    if |ps| > 0 {
      CountBelowZero(ps[..|ps| - 1]);
    }
  }

  /** Raising the bound by one adds the pushes onto palace `m`. */
  lemma {:induction false} CountBelowStep(ps: seq<(Palace, FlowStar)>, m: Palace)
    ensures CountBelow(ps, m + 1) == CountBelow(ps, m) + |Collect(ps, m)|
  {
    if |ps| > 0 {
      CountBelowStep(ps[..|ps| - 1], m);
    }
  }

  /** All pushes land below palace twelve. */
  lemma {:induction false} CountBelowAll(ps: seq<(Palace, FlowStar)>)
    ensures CountBelow(ps, 12) == |ps|
  {
    if |ps| > 0 {
      CountBelowAll(ps[..|ps| - 1]);
    }
  }

  /** The twelve palaces hold ten flowing stars, eleven in yearly scope with
    * 年解. */
  lemma HoroscopeStarCount(gan: Stem, zhi: Branch, scope: Scope)
    ensures CountUpTo(Pushes(gan, zhi, scope), 12) == if scope == Yearly then 11 else 10
  {
    CountBelowSplit(Pushes(gan, zhi, scope), 12);
    CountBelowAll(Pushes(gan, zhi, scope));
  }
}
