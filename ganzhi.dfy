/** The sexagenary symbols shared by every engine: the twelve Earthly Branches
  * (DiZhi, Zi = 0 .. Hai = 11), the ten Heavenly Stems (TianGan, Jia = 0 ..
  * Gui = 9), their cyclic arithmetic, and the small relation tables (five
  * elements, overcoming, lodging palaces, punishment, void branches) that the
  * engines consult. */
module GanZhi {

  type Branch = x: int | 0 <= x < 12
  type Stem = x: int | 0 <= x < 10

  const Zi: Branch := 0
  const Chou: Branch := 1
  const Yin: Branch := 2
  const Mao: Branch := 3
  const Chen: Branch := 4
  const Si: Branch := 5
  const Wu: Branch := 6
  const Wei: Branch := 7
  const Shen: Branch := 8
  const You: Branch := 9
  const Xu: Branch := 10
  const Hai: Branch := 11

  const Jia: Stem := 0
  const Yi: Stem := 1
  const Bing: Stem := 2
  const Ding: Stem := 3
  const WuGan: Stem := 4
  const Ji: Stem := 5
  const Geng: Stem := 6
  const Xin: Stem := 7
  const Ren: Stem := 8
  const Gui: Stem := 9

  /** `DiZhi + n`: steps around the cycle of twelve; `n` may be negative. */
  function AddB(b: Branch, n: int): Branch
  {
    (b + n) % 12
  }

  /** Euclidean division by twelve is determined by quotient and remainder. */
  lemma DivMod12(x: int, q: int, r: int)
    requires 0 <= r < 12 && x == 12 * q + r
    ensures x % 12 == r
  {
  }

  /** Steps compose: going `m` then `n` steps is going `m + n` steps. */
  lemma AddBAdd(b: Branch, m: int, n: int)
    ensures AddB(AddB(b, m), n) == AddB(b, m + n)
  {
    var x := b + m;
    var y := x + n;
    DivMod12(x % 12 + n, y / 12 - x / 12, y % 12);
  }

  /** Stepping twice to the same branch means the steps differ by whole turns. */
  lemma AddBCancel(b: Branch, m: int, n: int)
    requires AddB(b, m) == AddB(b, n)
    ensures (m - n) % 12 == 0
  {
    DivMod12(m - n, (b + m) / 12 - (b + n) / 12, 0);
  }

  /** `TianGan + n`: steps around the cycle of ten. */
  function AddS(s: Stem, n: int): Stem
  {
    (s + n) % 10
  }

  /** `fix_index`: normalises any integer palace or branch index into 0..11. */
  function FixIndex(i: int): Branch
  {
    i % 12
  }

  /** Normalising first and stepping afterwards is normalising the sum. */
  lemma FixIndexAdd(x: int, n: int)
    ensures AddB(FixIndex(x), n) == FixIndex(x + n)
  {
    DivMod12(x % 12 + n, (x + n) / 12 - x / 12, (x + n) % 12);
  }

  datatype Element = Wood | Fire | Earth | Metal | Water

  function BranchElement(b: Branch): Element
  {
    if b == Zi || b == Hai then Water
    else if b == Yin || b == Mao then Wood
    else if b == Si || b == Wu then Fire
    else if b == Shen || b == You then Metal
    else Earth
  }

  function StemElement(s: Stem): Element
  {
    if s <= Yi then Wood
    else if s <= Ding then Fire
    else if s <= Ji then Earth
    else if s <= Xin then Metal
    else Water
  }

  /** `wu_xing_ke(a, b)`: element `a` overcomes element `b`. */
  predicate Ke(a: Element, b: Element)
  {
    (a == Wood && b == Earth) || (a == Earth && b == Water) || (a == Water && b == Fire)
    || (a == Fire && b == Metal) || (a == Metal && b == Wood)
  }

  /** Yang parity: the even-numbered stems and branches are yang. */
  predicate IsYangStem(s: Stem) { s % 2 == 0 }
  predicate IsYangBranch(b: Branch) { b % 2 == 0 }

  /** `get_ji_gong`: the branch palace in which a stem lodges. */
  function JiGong(s: Stem): Branch
  {
    match s
    case 0 => Yin
    case 1 => Chen
    case 2 => Si
    case 3 => Wei
    case 4 => Si
    case 5 => Wei
    case 6 => Shen
    case 7 => Xu
    case 8 => Hai
    case 9 => Chou
  }

  /** `get_ji_gan`: the stems lodged in a branch, in stem order. */
  function JiGan(b: Branch): (r: seq<Stem>)
    ensures |r| <= 2
  {
    if b == Yin then [Jia]
    else if b == Chen then [Yi]
    else if b == Si then [Bing, WuGan]
    else if b == Wei then [Ding, Ji]
    else if b == Shen then [Geng]
    else if b == Xu then [Xin]
    else if b == Hai then [Ren]
    else if b == Chou then [Gui]
    else []
  }

  /** `get_ji_gan` inverts `get_ji_gong`: a stem is listed for a branch exactly
    * when it lodges there, and the list is in stem order. */
  lemma JiGanIsLodging(b: Branch)
    ensures forall g: Stem :: g in JiGan(b) <==> JiGong(g) == b
    ensures forall i, j :: 0 <= i < j < |JiGan(b)| ==> JiGan(b)[i] < JiGan(b)[j]
  {
  }

  /** The branch that `b` punishes: Yin, Si, Shen punish in a ring, so do Chou,
    * Xu, Wei; Zi and Mao punish each other; Chen, Wu, You and Hai punish
    * themselves. */
  function XingOf(b: Branch): Branch
  {
    match b
    case 0 => Mao
    case 1 => Xu
    case 2 => Si
    case 3 => Zi
    case 4 => Chen
    case 5 => Shen
    case 6 => Wu
    case 7 => Chou
    case 8 => Yin
    case 9 => You
    case 10 => Wei
    case 11 => Hai
  }

  /** `is_xing(a, b)`: `a` punishes `b`. */
  predicate IsXing(a: Branch, b: Branch) { b == XingOf(a) }

  /** The four "cardinal" (meng) branches Yin, Si, Shen, Hai. */
  predicate IsMeng(b: Branch) { b == Yin || b == Si || b == Shen || b == Hai }

  /** The four "medial" (zhong) branches Zi, Mao, Wu, You. */
  predicate IsZhong(b: Branch) { b == Zi || b == Mao || b == Wu || b == You }

  /** `get_xun_shou`: the branch that heads the ten-day week containing the
    * pillar (gan, zhi), i.e. the branch paired with Jia in that week. */
  function XunShou(gan: Stem, zhi: Branch): (r: Branch)
    ensures AddB(r, gan) == zhi
  {
    AddB(zhi, -(gan as int))
  }

  /** `get_kong_wang`: the two void branches of the week of (gan, zhi). */
  function KongWang(gan: Stem, zhi: Branch): (r: (Branch, Branch))
    ensures AddB(r.1, 1) == XunShou(gan, zhi) && r.1 == AddB(r.0, 1)
  {
    var x := XunShou(gan, zhi);
    AddBAdd(x, 11, 1);
    AddBAdd(x, 10, 1);
    DivMod12(x + 12, 1, x);
    (AddB(x, 10), AddB(x, 11))
  }

  /** The two branches of the week of (gan, zhi) are exactly those not paired
    * with any stem of that week. */
  lemma KongWangUnpaired(gan: Stem, zhi: Branch, k: int)
    requires 0 <= k < 10
    ensures AddB(XunShou(gan, zhi), k) != KongWang(gan, zhi).0
    ensures AddB(XunShou(gan, zhi), k) != KongWang(gan, zhi).1
  {
    var x := XunShou(gan, zhi);
    if AddB(x, k) == AddB(x, 10) {
      AddBCancel(x, k, 10);
      DivMod12(k - 10, -1, k + 2);
    }
    if AddB(x, k) == AddB(x, 11) {
      AddBCancel(x, k, 11);
      DivMod12(k - 11, -1, k + 1);
    }
  }

  /** The meng branch of b's group of four: the first of b, b+4, b+8 that is
    * a meng branch. The post horse is the branch opposite it. */
  function MengOf(b: Branch): (h: Branch)
    ensures IsMeng(h) && (h - b) % 4 == 0
  {
    if IsMeng(b) then b else if IsMeng(AddB(b, 4)) then AddB(b, 4) else AddB(b, 8)
  }

  /** How many steps of +4 from `b` reach its meng branch. */
  function MengIndex(b: Branch): (k: nat)
    ensures k <= 2 && AddB(b, 4 * k) == MengOf(b)
    ensures k >= 1 ==> !IsMeng(b)
    ensures k == 2 ==> !IsMeng(AddB(b, 4))
  {
    if IsMeng(b) then 0 else if IsMeng(AddB(b, 4)) then 1 else 2
  }

  /** The first of b, b+4, b+8 that is a zhong branch. */
  function ZhongOf(b: Branch): (z: Branch)
    ensures IsZhong(z) && (z - b) % 4 == 0
  {
    if IsZhong(b) then b else if IsZhong(AddB(b, 4)) then AddB(b, 4) else AddB(b, 8)
  }

  /** How many steps of +4 from `b` reach its zhong branch. */
  function ZhongIndex(b: Branch): (k: nat)
    ensures k <= 2 && AddB(b, 4 * k) == ZhongOf(b)
    ensures k >= 1 ==> !IsZhong(b)
    ensures k == 2 ==> !IsZhong(AddB(b, 4))
  {
    if IsZhong(b) then 0 else if IsZhong(AddB(b, 4)) then 1 else 2
  }

  /** The classes of branches by residue: meng holds b % 3 == 2, zhong b % 3 == 0. */
  lemma MengZhongResidues(b: Branch)
    ensures IsMeng(b) <==> b % 3 == 2
    ensures IsZhong(b) <==> b % 3 == 0
  {
  }

  /** The punishment facts of the sexagenary tests: Zi punishes Mao, Yin Si,
    * Chou Xu, and Chen, Wu, You, Hai punish themselves. */
  lemma XingExamples()
    ensures IsXing(Zi, Mao) && IsXing(Yin, Si) && IsXing(Chou, Xu)
    ensures IsXing(Chen, Chen) && IsXing(Wu, Wu) && IsXing(You, You) && IsXing(Hai, Hai)
  {
  }

  /** The punishment table is a permutation of the branches. */
  lemma XingIsPermutation(a: Branch, b: Branch)
    requires XingOf(a) == XingOf(b)
    ensures a == b
  {
  }
}
