/** The four transformations (四化) of Zi Wei Dou Shu: which main star of a
  * stem turns into Lu, Quan, Ke and Ji, and the flying transformations
  * between palaces (飞化), whose chains are searched by bounded
  * backtracking. */
module ZiWeiSiHua {
  import opened GanZhi
  import opened ZiWeiStar
  import opened Wrappers

  // ---------------------------------------------------------------------
  // The four transformation stars of a stem

  /** `static_cast<SiHua>(i)`: slot 0 is Lu, 1 Quan, 2 Ke and 3 Ji. */
  function SiHuaAt(i: int): SiHua
    requires 0 <= i < 4
  {
    [Lu, Quan, Ke, Ji][i]
  }

  /** The slot of a transformation: the inverse of `SiHuaAt`. */
  function SiHuaIndex(h: SiHua): (i: nat)
    ensures i < 4 && SiHuaAt(i) == h
  {
    match h
    case Lu => 0
    case Quan => 1
    case Ke => 2
    case Ji => 3
  }

  /** `get_si_hua_stars`: the star of each slot, if the stem has one. Every
    * stem has a Lu and a Quan star, and no star takes two slots. */
  function SiHuaStars(g: Stem): (r: seq<Option<ZhuXing>>)
    ensures |r| == 4 && r[0].Some? && r[1].Some?
    ensures forall i, k :: 0 <= i < k < 4 && r[i].Some? ==> r[i] != r[k]
  {
    if g == Jia then [Some(LianZhen), Some(PoJun), Some(WuQu), Some(TaiYang)]
    else if g == Yi then [Some(TianJi), Some(TianLiang), Some(ZiWei), Some(TaiYin)]
    else if g == Bing then [Some(TianTong), Some(TianJi), None, Some(LianZhen)]
    else if g == Ding then [Some(TaiYin), Some(TianTong), Some(TianJi), Some(JuMen)]
    else if g == WuGan then [Some(TanLang), Some(TaiYin), None, Some(TianJi)]
    else if g == GanZhi.Ji then [Some(WuQu), Some(TanLang), Some(TianLiang), None]
    else if g == Geng then [Some(TaiYang), Some(WuQu), Some(TaiYin), Some(TianTong)]
    else if g == Xin then [Some(JuMen), Some(TaiYang), None, None]
    else if g == Ren then [Some(TianLiang), Some(ZiWei), None, Some(WuQu)]
    else [Some(PoJun), Some(JuMen), Some(TaiYin), Some(TanLang)]
  }

  /** Bing, Wu, Ren and Xin have no Ke star; Ji and Xin have no Ji star. */
  lemma SiHuaStarsMissing(g: Stem)
    ensures SiHuaStars(g)[2].None? <==> g == Bing || g == WuGan || g == Ren || g == Xin
    ensures SiHuaStars(g)[3].None? <==> g == GanZhi.Ji || g == Xin
  {
  }

  /** The slots agree with `get_si_hua_table`: slot `i` holds a star exactly
    * when the table gives that star the `i`-th transformation. */
  lemma SiHuaStarsMatchTable(g: Stem, i: int, x: ZhuXing)
    requires 0 <= i < 4
    ensures SiHuaStars(g)[i] == Some(x) <==> x in SiHuaTable(g) && SiHuaTable(g)[x] == SiHuaAt(i)
  {
    if g < Ding { MatchJiaToBing(g, i, x); }
    else if g < Geng { MatchDingToJi(g, i, x); }
    else { MatchGengToGui(g, i, x); }
  }

  /** `SiHuaStarsMatchTable` for Jia, Yi and Bing. */
  lemma MatchJiaToBing(g: Stem, i: int, x: ZhuXing)
    requires g < Ding && 0 <= i < 4
    ensures SiHuaStars(g)[i] == Some(x) <==> x in SiHuaTable(g) && SiHuaTable(g)[x] == SiHuaAt(i)
  {
  }

  /** `SiHuaStarsMatchTable` for Ding, Wu and Ji. */
  lemma MatchDingToJi(g: Stem, i: int, x: ZhuXing)
    requires Ding <= g < Geng && 0 <= i < 4
    ensures SiHuaStars(g)[i] == Some(x) <==> x in SiHuaTable(g) && SiHuaTable(g)[x] == SiHuaAt(i)
  {
  }

  /** `SiHuaStarsMatchTable` for Geng, Xin, Ren and Gui. */
  lemma MatchGengToGui(g: Stem, i: int, x: ZhuXing)
    requires Geng <= g && 0 <= i < 4
    ensures SiHuaStars(g)[i] == Some(x) <==> x in SiHuaTable(g) && SiHuaTable(g)[x] == SiHuaAt(i)
  {
  }

  /** `get_star_si_hua_type`: the first slot holding the star. A stem's
    * transformation of a star is the one the table gives it. */
  method StarSiHuaType(g: Stem, star: ZhuXing) returns (r: Option<SiHua>)
    ensures r == if star in SiHuaTable(g) then Some(SiHuaTable(g)[star]) else None
  {
    var siHuaStars := SiHuaStars(g);
    var i := 0;
    while i < 4
      invariant 0 <= i <= 4
      invariant forall k :: 0 <= k < i ==> siHuaStars[k] != Some(star)
    {
      if siHuaStars[i].Some? && siHuaStars[i].value == star {
        SiHuaStarsMatchTable(g, i, star);
        return Some(SiHuaAt(i));
      }
      i := i + 1;
    }
    if star in SiHuaTable(g) {
      SiHuaStarsMatchTable(g, SiHuaIndex(SiHuaTable(g)[star]), star);
    }
    return None;
  }

  /** `SiHuaAt` and `SiHuaIndex` are inverse. */
  lemma SiHuaRoundTrip(i: int)
    requires 0 <= i < 4
    ensures SiHuaIndex(SiHuaAt(i)) == i
  {
  }

  // ---------------------------------------------------------------------
  // The palaces' transformations

  /** One slot of a palace's four transformations: the transformed star (none
    * for an empty slot, whose name is empty) and the palace it sits in, or
    * -1. */
  datatype SiHuaInfo = SiHuaInfo(kind: SiHua, starName: Option<ZhuXing>, gongIndex: int)

  /** The four transformations flown by the stem of palace `gongIndex`. */
  datatype GongGanSiHua = GongGanSiHua(gongIndex: int, gongGan: Stem, siHuaList: seq<SiHuaInfo>)

  /** A palace whose stem transforms stars inside the palace itself. */
  datatype ZiHuaInfo = ZiHuaInfo(gongIndex: int, ziHuaTypes: seq<SiHua>)

  /** A flying transformation from one palace into the palace of its star. */
  datatype FeiHuaRelation = FeiHuaRelation(fromGong: int, fromGan: Stem, toGong: int, kind: SiHua, starName: ZhuXing)

  /** A chain of flying transformations; `isHuiBen` when it returns to the
    * palace it started from. */
  datatype FeiHuaChain = FeiHuaChain(chain: seq<FeiHuaRelation>, isHuiBen: bool)

  /** The lowest palace from `j` on whose list holds `name`, or -1. */
  function FirstPalace(stars: seq<seq<string>>, name: string, j: nat): (r: int)
    requires j <= |stars|
    ensures r == -1 <==> forall k :: j <= k < |stars| ==> name !in stars[k]
    ensures r != -1 ==> j <= r < |stars| && name in stars[r]
    ensures r != -1 ==> forall k :: j <= k < r ==> name !in stars[k]
    decreases |stars| - j
  {
    if j == |stars| then -1
    else if name in stars[j] then j
    else FirstPalace(stars, name, j + 1)
  }

  /** The palace a slot's star sits in: -1 for an empty slot or a star found
    * in no palace. */
  function Target(stars: seq<seq<string>>, x: Option<ZhuXing>): int
  {
    match x
    case None => -1
    case Some(star) => FirstPalace(stars, ZhName(star), 0)
  }

  /** A slot's palace holds its star and no lower palace does; it is -1
    * exactly when the slot is empty or no palace holds the star. */
  lemma TargetMeaning(stars: seq<seq<string>>, x: Option<ZhuXing>)
    ensures -1 <= Target(stars, x) < |stars|
    ensures Target(stars, x) == -1 <==> x.None? || forall k :: 0 <= k < |stars| ==> ZhName(x.value) !in stars[k]
    ensures Target(stars, x) >= 0 ==>
      x.Some? && ZhName(x.value) in stars[Target(stars, x)] &&
      forall k :: 0 <= k < Target(stars, x) ==> ZhName(x.value) !in stars[k]
  {
  }

  /** Slot `s` of a stem whose slots are `slots`, located among the palaces. */
  function SlotInfo(stars: seq<seq<string>>, slots: seq<Option<ZhuXing>>, s: int): SiHuaInfo
    requires 0 <= s < |slots| <= 4
  {
    SiHuaInfo(SiHuaAt(s), slots[s], Target(stars, slots[s]))
  }

  /** The four slots of palace `i` with stem `g`. */
  function GongEntry(stars: seq<seq<string>>, i: int, g: Stem): GongGanSiHua
  {
    var slots := SiHuaStars(g);
    GongGanSiHua(i, g, [SlotInfo(stars, slots, 0), SlotInfo(stars, slots, 1), SlotInfo(stars, slots, 2), SlotInfo(stars, slots, 3)])
  }

  /** The table the constructor builds from the palaces' stems. */
  function Entries(stars: seq<seq<string>>, gongGanZhi: seq<(Stem, Branch)>): seq<GongGanSiHua>
  {
    seq(|gongGanZhi|, i requires 0 <= i < |gongGanZhi| => GongEntry(stars, i, gongGanZhi[i].0))
  }

  /** Slot `s` of a palace's entry carries transformation `s`, the star of
    * slot `s` of the stem, and that star's palace. */
  lemma GongEntrySlot(stars: seq<seq<string>>, i: int, g: Stem, s: int)
    requires 0 <= s < 4
    ensures |GongEntry(stars, i, g).siHuaList| == 4
    ensures GongEntry(stars, i, g).siHuaList[s] == SiHuaInfo(SiHuaAt(s), SiHuaStars(g)[s], Target(stars, SiHuaStars(g)[s]))
  {
  }

  /** Every located slot lies among the twelve palaces. */
  predicate Located(entries: seq<GongGanSiHua>)
  {
    |entries| == 12 &&
    forall i, s :: 0 <= i < 12 && 0 <= s < |entries[i].siHuaList| ==> entries[i].siHuaList[s].gongIndex < 12
  }

  // ---------------------------------------------------------------------
  // Self-transformation

  /** The transformations among the first `n` slots of `list` whose star sits
    * in palace `p`, in slot order. */
  function ZiHuaKinds(list: seq<SiHuaInfo>, p: int, n: nat): seq<SiHua>
    requires n <= |list|
  {
    if n == 0 then []
    else ZiHuaKinds(list, p, n - 1) + (if list[n - 1].gongIndex == p && list[n - 1].starName.Some? then [list[n - 1].kind] else [])
  }

  /** For palace `p` with stem `g`, a transformation among the first `n`
    * slots is listed exactly when the stem's star of that transformation sits
    * in `p` itself. */
  lemma {:induction false} ZiHuaKindsMember(stars: seq<seq<string>>, p: int, g: Stem, n: nat, t: SiHua)
    requires 0 <= p && n <= 4
    ensures t in ZiHuaKinds(GongEntry(stars, p, g).siHuaList, p, n) <==>
      SiHuaIndex(t) < n && Target(stars, SiHuaStars(g)[SiHuaIndex(t)]) == p
  {
    if n > 0 {
      ZiHuaKindsMember(stars, p, g, n - 1, t);
      GongEntrySlot(stars, p, g, n - 1);
      SiHuaRoundTrip(n - 1);
    }
  }

  /** The transformations of palace `p` whose star sits in `p` itself. */
  function OwnKinds(entries: seq<GongGanSiHua>, p: nat): seq<SiHua>
    requires p < |entries|
  {
    ZiHuaKinds(entries[p].siHuaList, p, |entries[p].siHuaList|)
  }

  /** The palaces among the first `n` that transform their own stars. */
  function AllZiHua(entries: seq<GongGanSiHua>, n: nat): seq<ZiHuaInfo>
    requires n <= |entries|
  {
    if n == 0 then []
    else AllZiHua(entries, n - 1) + (if OwnKinds(entries, n - 1) == [] then [] else [ZiHuaInfo(n - 1, OwnKinds(entries, n - 1))])
  }

  /** `get_all_zi_hua` lists only self-transforming palaces, each with its
    * transformations, in ascending order. */
  lemma {:induction false} AllZiHuaSound(entries: seq<GongGanSiHua>, n: nat)
    requires n <= |entries|
    ensures forall k :: 0 <= k < |AllZiHua(entries, n)| ==>
      0 <= AllZiHua(entries, n)[k].gongIndex < n &&
      AllZiHua(entries, n)[k].ziHuaTypes != [] &&
      AllZiHua(entries, n)[k].ziHuaTypes == OwnKinds(entries, AllZiHua(entries, n)[k].gongIndex)
    ensures forall k, l :: 0 <= k < l < |AllZiHua(entries, n)| ==>
      AllZiHua(entries, n)[k].gongIndex < AllZiHua(entries, n)[l].gongIndex
  {
    if n > 0 {
      AllZiHuaSound(entries, n - 1);
      var prev := AllZiHua(entries, n - 1);
      var ks := OwnKinds(entries, n - 1);
      if ks != [] {
        var r := prev + [ZiHuaInfo(n - 1, ks)];
        assert AllZiHua(entries, n) == r;
        assert forall k :: 0 <= k < |prev| ==> r[k] == prev[k];
      }
    }
  }

  /** `get_all_zi_hua` lists every self-transforming palace. */
  lemma {:induction false} AllZiHuaComplete(entries: seq<GongGanSiHua>, n: nat, p: nat)
    requires p < n <= |entries| && OwnKinds(entries, p) != []
    ensures exists k :: 0 <= k < |AllZiHua(entries, n)| && AllZiHua(entries, n)[k].gongIndex == p
  {
    var prev := AllZiHua(entries, n - 1);
    if p < n - 1 {
      AllZiHuaComplete(entries, n - 1, p);
      var k :| 0 <= k < |prev| && prev[k].gongIndex == p;
      assert AllZiHua(entries, n)[k] == prev[k];
    } else {
      assert AllZiHua(entries, n)[|prev|].gongIndex == p;
    }
  }

  // ---------------------------------------------------------------------
  // Flying transformations

  /** Whether a slot flies: its star was found in some palace. */
  predicate Flies(si: SiHuaInfo)
  {
    si.gongIndex >= 0 && si.starName.Some?
  }

  /** The flights out of palace `p` with stem `g` among the first `n` slots
    * of `list`, in slot order. */
  function RelationsFrom(p: int, g: Stem, list: seq<SiHuaInfo>, n: nat): seq<FeiHuaRelation>
    requires n <= |list|
  {
    if n == 0 then []
    else
      RelationsFrom(p, g, list, n - 1) +
      (if Flies(list[n - 1]) then [FeiHuaRelation(p, g, list[n - 1].gongIndex, list[n - 1].kind, list[n - 1].starName.value)]
       else [])
  }

  /** The flights out of palace `p` among the first `n` slots that land in
    * `q`. */
  function RelationsInto(p: int, g: Stem, list: seq<SiHuaInfo>, q: int, n: nat): seq<FeiHuaRelation>
    requires n <= |list|
  {
    if n == 0 then []
    else
      RelationsInto(p, g, list, q, n - 1) +
      (if list[n - 1].gongIndex == q && list[n - 1].starName.Some?
       then [FeiHuaRelation(p, g, q, list[n - 1].kind, list[n - 1].starName.value)] else [])
  }

  /** The flights into palace `q` from the first `n` palaces, by palace and
    * then by slot. */
  function RelationsTo(entries: seq<GongGanSiHua>, q: int, n: nat): seq<FeiHuaRelation>
    requires n <= |entries|
  {
    if n == 0 then []
    else RelationsTo(entries, q, n - 1) + RelationsInto(n - 1, entries[n - 1].gongGan, entries[n - 1].siHuaList, q, |entries[n - 1].siHuaList|)
  }

  /** The flights out of a palace are exactly its flying slots, each carrying
    * its transformation, star and palace. */
  lemma {:induction false} RelationsFromMeaning(p: int, g: Stem, list: seq<SiHuaInfo>, n: nat, r: FeiHuaRelation)
    requires n <= |list|
    ensures r in RelationsFrom(p, g, list, n) <==>
      r.fromGong == p && r.fromGan == g &&
      exists s :: 0 <= s < n && Flies(list[s]) && list[s] == SiHuaInfo(r.kind, Some(r.starName), r.toGong)
  {
    if n > 0 {
      RelationsFromMeaning(p, g, list, n - 1, r);
    }
  }

  /** In a palace's entry, a flight carries the stem's star of its
    * transformation into the lowest palace listing that star. */
  lemma FlightLandsOnStar(stars: seq<seq<string>>, p: int, g: Stem, r: FeiHuaRelation)
    requires r in RelationsFrom(p, g, GongEntry(stars, p, g).siHuaList, 4)
    ensures SiHuaStars(g)[SiHuaIndex(r.kind)] == Some(r.starName)
    ensures 0 <= r.toGong < |stars| && ZhName(r.starName) in stars[r.toGong]
    ensures forall k :: 0 <= k < r.toGong ==> ZhName(r.starName) !in stars[k]
  {
    var list := GongEntry(stars, p, g).siHuaList;
    RelationsFromMeaning(p, g, list, 4, r);
    var s :| 0 <= s < 4 && Flies(list[s]) && list[s] == SiHuaInfo(r.kind, Some(r.starName), r.toGong);
    GongEntrySlot(stars, p, g, s);
    SiHuaRoundTrip(s);
    TargetMeaning(stars, SiHuaStars(g)[s]);
  }

  /** A flight lands in `q` from palace `p` exactly when it is a flight out
    * of `p` whose target is `q`. */
  lemma {:induction false} RelationsIntoFrom(p: int, g: Stem, list: seq<SiHuaInfo>, q: int, n: nat, r: FeiHuaRelation)
    requires n <= |list| && q >= 0
    ensures r in RelationsInto(p, g, list, q, n) <==> r in RelationsFrom(p, g, list, n) && r.toGong == q
  {
    if n > 0 {
      RelationsIntoFrom(p, g, list, q, n - 1, r);
      RelationsFromMeaning(p, g, list, n - 1, r);
      RelationsFromMeaning(p, g, list, n, r);
    }
  }

  /** `get_fei_hua_to` lists only flights out of the palaces towards `q`. */
  lemma {:induction false} RelationsToSound(entries: seq<GongGanSiHua>, q: int, n: nat, r: FeiHuaRelation)
    requires n <= |entries| && q >= 0
    requires r in RelationsTo(entries, q, n)
    ensures 0 <= r.fromGong < n && r.toGong == q
    ensures r in RelationsFrom(r.fromGong, entries[r.fromGong].gongGan, entries[r.fromGong].siHuaList, |entries[r.fromGong].siHuaList|)
  {
    var e := entries[n - 1];
    if r in RelationsTo(entries, q, n - 1) {
      RelationsToSound(entries, q, n - 1, r);
    } else {
      assert r in RelationsInto(n - 1, e.gongGan, e.siHuaList, q, |e.siHuaList|);
      RelationsIntoFrom(n - 1, e.gongGan, e.siHuaList, q, |e.siHuaList|, r);
      RelationsFromMeaning(n - 1, e.gongGan, e.siHuaList, |e.siHuaList|, r);
    }
  }

  /** `get_fei_hua_to` lists every flight out of any palace towards `q`:
    * with `RelationsToSound`, the flights into `q` are exactly the flights
    * out of the palaces that land in `q`. */
  lemma {:induction false} RelationsToComplete(entries: seq<GongGanSiHua>, q: int, n: nat, p: int, r: FeiHuaRelation)
    requires n <= |entries| && q >= 0 && 0 <= p < n
    requires r in RelationsFrom(p, entries[p].gongGan, entries[p].siHuaList, |entries[p].siHuaList|) && r.toGong == q
    ensures r in RelationsTo(entries, q, n)
  {
    if p < n - 1 {
      RelationsToComplete(entries, q, n - 1, p, r);
    } else {
      RelationsIntoFrom(p, entries[p].gongGan, entries[p].siHuaList, q, |entries[p].siHuaList|, r);
    }
  }

  // ---------------------------------------------------------------------
  // Chains of flying transformations

  /** Each step starts where the previous one landed. */
  predicate Linked(c: seq<FeiHuaRelation>)
  {
    forall i :: 0 <= i < |c| - 1 ==> c[i].toGong == c[i + 1].fromGong
  }

  /** A recorded chain: between one step and the cap, starting at `start`,
    * linked, of transformation `t` throughout, and back home exactly when
    * its last step lands in `start`. */
  predicate WellFormedChain(ch: FeiHuaChain, start: int, cap: int, t: SiHua)
  {
    1 <= |ch.chain| <= cap && ch.chain[0].fromGong == start && Linked(ch.chain) &&
    (forall i :: 0 <= i < |ch.chain| ==> ch.chain[i].kind == t) &&
    (ch.isHuiBen <==> ch.chain[|ch.chain| - 1].toGong == start)
  }

  /** Before its last step a chain neither returns to `start` nor lands in a
    * palace twice. */
  predicate NoRevisit(c: seq<FeiHuaRelation>, start: int)
  {
    (forall i :: 0 <= i < |c| - 1 ==> c[i].toGong != start) &&
    (forall i, j :: 0 <= i < j < |c| - 1 ==> c[i].toGong != c[j].toGong)
  }

  /** The state of the search at palace `cur`: the chain so far leads from
    * `start` to `cur`, and `visited` holds exactly the palaces it landed in. */
  predicate ChainState(start: int, cur: int, t: SiHua, depth: int, chain: seq<FeiHuaRelation>, visited: set<int>)
  {
    |chain| == depth &&
    (chain == [] ==> cur == start && visited == {}) &&
    (chain != [] ==>
      chain[0].fromGong == start && chain[|chain| - 1].toGong == cur && Linked(chain) &&
      (forall i :: 0 <= i < |chain| ==> chain[i].kind == t) &&
      visited == (set i | 0 <= i < |chain| :: chain[i].toGong) &&
      (forall i :: 0 <= i < |chain| ==> chain[i].toGong != start) &&
      (forall i, j :: 0 <= i < j < |chain| ==> chain[i].toGong != chain[j].toGong))
  }

  /** The chains `find_chains_recursive` records from palace `cur`: nothing
    * at the depth bound, else what it records through each slot in turn. */
  function Chains(entries: seq<GongGanSiHua>, cur: int, t: SiHua, depth: int, maxDepth: int,
                  chain: seq<FeiHuaRelation>, visited: set<int>): seq<FeiHuaChain>
    requires Located(entries) && 0 <= cur < 12
    decreases maxDepth - depth, 2, 0
  {
    if depth >= maxDepth then []
    else SlotChains(entries, cur, t, depth, maxDepth, chain, visited, |entries[cur].siHuaList|)
  }

  /** The chains recorded through the first `n` slots of palace `cur`: a
    * slot of transformation `t` whose star was found flies one step. */
  function SlotChains(entries: seq<GongGanSiHua>, cur: int, t: SiHua, depth: int, maxDepth: int,
                      chain: seq<FeiHuaRelation>, visited: set<int>, n: nat): seq<FeiHuaChain>
    requires Located(entries) && 0 <= cur < 12 && depth < maxDepth && n <= |entries[cur].siHuaList|
    decreases maxDepth - depth, 1, n
  {
    if n == 0 then []
    else
      SlotChains(entries, cur, t, depth, maxDepth, chain, visited, n - 1) +
      SlotStep(entries, cur, t, depth, maxDepth, chain, visited, n - 1)
  }

  /** The chains recorded through slot `s` of palace `cur`. */
  function SlotStep(entries: seq<GongGanSiHua>, cur: int, t: SiHua, depth: int, maxDepth: int,
                    chain: seq<FeiHuaRelation>, visited: set<int>, s: nat): seq<FeiHuaChain>
    requires Located(entries) && 0 <= cur < 12 && depth < maxDepth && s < |entries[cur].siHuaList|
    decreases maxDepth - depth, 0, 1
  {
    var si := entries[cur].siHuaList[s];
    if si.kind == t && Flies(si)
    then Extended(entries, t, depth, maxDepth, chain, visited, FeiHuaRelation(cur, entries[cur].gongGan, si.gongIndex, t, si.starName.value))
    else []
  }

  /** The chains recorded once the search steps along `rel`: the extended
    * chain itself, then, unless it returned home or reached a visited palace,
    * what the search finds from the palace it reached. */
  function Extended(entries: seq<GongGanSiHua>, t: SiHua, depth: int, maxDepth: int,
                    chain: seq<FeiHuaRelation>, visited: set<int>, rel: FeiHuaRelation): seq<FeiHuaChain>
    requires Located(entries) && 0 <= rel.toGong < 12 && depth < maxDepth
    decreases maxDepth - depth, 0, 0
  {
    var c := chain + [rel];
    var hb := rel.toGong == c[0].fromGong;
    [FeiHuaChain(c, hb)] +
    (if !hb && rel.toGong !in visited then Chains(entries, rel.toGong, t, depth + 1, maxDepth, c, visited + {rel.toGong}) else [])
  }

  /** One step from `ChainState` at `cur` reaches `ChainState` at the target
    * when it neither returns home nor revisits. */
  lemma ChainStep(start: int, cur: int, t: SiHua, depth: int, chain: seq<FeiHuaRelation>, visited: set<int>, rel: FeiHuaRelation)
    requires ChainState(start, cur, t, depth, chain, visited)
    requires rel.fromGong == cur && rel.kind == t
    requires rel.toGong != (chain + [rel])[0].fromGong && rel.toGong !in visited
    ensures ChainState(start, rel.toGong, t, depth + 1, chain + [rel], visited + {rel.toGong})
  {
    var c := chain + [rel];
    assert forall i :: 0 <= i < |chain| ==> c[i] == chain[i];
    assert c[|chain|] == rel;
    assert (set i | 0 <= i < |c| :: c[i].toGong) == (set i | 0 <= i < |chain| :: chain[i].toGong) + {rel.toGong};
  }

  /** The chain extended by one step keeps the properties of a recorded
    * chain. */
  lemma ChainRecorded(start: int, cur: int, t: SiHua, depth: int, maxDepth: int, chain: seq<FeiHuaRelation>,
                      visited: set<int>, rel: FeiHuaRelation)
    requires ChainState(start, cur, t, depth, chain, visited) && depth < maxDepth
    requires rel.fromGong == cur && rel.kind == t
    ensures WellFormedChain(FeiHuaChain(chain + [rel], rel.toGong == (chain + [rel])[0].fromGong), start, maxDepth, t)
    ensures NoRevisit(chain + [rel], start)
  {
    var c := chain + [rel];
    assert forall i :: 0 <= i < |chain| ==> c[i] == chain[i];
    assert c[|chain|] == rel;
  }

  /** Every chain the search records is well formed and revisits nothing;
    * in particular no chain goes on after returning home. */
  predicate AllWellFormed(cs: seq<FeiHuaChain>, start: int, cap: int, t: SiHua)
  {
    forall k :: 0 <= k < |cs| ==> WellFormedChain(cs[k], start, cap, t) && NoRevisit(cs[k].chain, start)
  }

  /** Two lists of well-formed chains concatenate to one. */
  lemma AllWellFormedAppend(a: seq<FeiHuaChain>, b: seq<FeiHuaChain>, start: int, cap: int, t: SiHua)
    requires AllWellFormed(a, start, cap, t) && AllWellFormed(b, start, cap, t)
    ensures AllWellFormed(a + b, start, cap, t)
  {
    assert forall k :: |a| <= k < |a + b| ==> (a + b)[k] == b[k - |a|];
  }

  /** Every chain recorded from a search state is well formed. */
  lemma {:induction false} ChainsWellFormed(entries: seq<GongGanSiHua>, start: int, cur: int, t: SiHua,
                                            depth: int, maxDepth: int, chain: seq<FeiHuaRelation>, visited: set<int>)
    requires Located(entries) && 0 <= cur < 12
    requires ChainState(start, cur, t, depth, chain, visited)
    ensures AllWellFormed(Chains(entries, cur, t, depth, maxDepth, chain, visited), start, maxDepth, t)
    decreases maxDepth - depth, 2, 0
  {
    if depth < maxDepth {
      SlotChainsWellFormed(entries, start, cur, t, depth, maxDepth, chain, visited, |entries[cur].siHuaList|);
    }
  }

  /** Every chain recorded through the first `n` slots is well formed. */
  lemma {:induction false} SlotChainsWellFormed(entries: seq<GongGanSiHua>, start: int, cur: int, t: SiHua,
                                                depth: int, maxDepth: int, chain: seq<FeiHuaRelation>, visited: set<int>, n: nat)
    requires Located(entries) && 0 <= cur < 12 && depth < maxDepth && n <= |entries[cur].siHuaList|
    requires ChainState(start, cur, t, depth, chain, visited)
    ensures AllWellFormed(SlotChains(entries, cur, t, depth, maxDepth, chain, visited, n), start, maxDepth, t)
    decreases maxDepth - depth, 1, n
  {
    if n > 0 {
      SlotChainsWellFormed(entries, start, cur, t, depth, maxDepth, chain, visited, n - 1);
      var si := entries[cur].siHuaList[n - 1];
      if si.kind == t && Flies(si) {
        var rel := FeiHuaRelation(cur, entries[cur].gongGan, si.gongIndex, t, si.starName.value);
        ExtendedWellFormed(entries, start, cur, t, depth, maxDepth, chain, visited, rel);
      }
      AllWellFormedAppend(SlotChains(entries, cur, t, depth, maxDepth, chain, visited, n - 1),
                          SlotStep(entries, cur, t, depth, maxDepth, chain, visited, n - 1), start, maxDepth, t);
    }
  }

  /** The chains recorded along one step are well formed. */
  lemma {:induction false} ExtendedWellFormed(entries: seq<GongGanSiHua>, start: int, cur: int, t: SiHua,
                                              depth: int, maxDepth: int, chain: seq<FeiHuaRelation>, visited: set<int>,
                                              rel: FeiHuaRelation)
    requires Located(entries) && 0 <= rel.toGong < 12 && depth < maxDepth
    requires ChainState(start, cur, t, depth, chain, visited) && rel.fromGong == cur && rel.kind == t
    ensures AllWellFormed(Extended(entries, t, depth, maxDepth, chain, visited, rel), start, maxDepth, t)
    decreases maxDepth - depth, 0, 0
  {
    var c := chain + [rel];
    var hb := rel.toGong == c[0].fromGong;
    ChainRecorded(start, cur, t, depth, maxDepth, chain, visited, rel);
    var head := [FeiHuaChain(c, hb)];
    assert AllWellFormed(head, start, maxDepth, t);
    if !hb && rel.toGong !in visited {
      ChainStep(start, cur, t, depth, chain, visited, rel);
      ChainsWellFormed(entries, start, rel.toGong, t, depth + 1, maxDepth, c, visited + {rel.toGong});
      AllWellFormedAppend(head, Chains(entries, rel.toGong, t, depth + 1, maxDepth, c, visited + {rel.toGong}), start, maxDepth, t);
    } else {
      assert Extended(entries, t, depth, maxDepth, chain, visited, rel) == head + [];
    }
  }

  /** `rel` is the flight of slot `s` of its palace, a slot of
    * transformation `t` whose star was found. */
  ghost predicate SlotFlight(entries: seq<GongGanSiHua>, rel: FeiHuaRelation, t: SiHua, s: int)
    requires Located(entries)
  {
    0 <= rel.fromGong < 12 && 0 <= s < |entries[rel.fromGong].siHuaList| &&
    var si := entries[rel.fromGong].siHuaList[s];
    si.kind == t && Flies(si) &&
    rel == FeiHuaRelation(rel.fromGong, entries[rel.fromGong].gongGan, si.gongIndex, t, si.starName.value)
  }

  /** Every step of `c` is the flight of some slot of its palace. */
  ghost predicate FlightChain(entries: seq<GongGanSiHua>, c: seq<FeiHuaRelation>, t: SiHua)
    requires Located(entries)
  {
    forall i :: 0 <= i < |c| ==> IsFlight(entries, c[i], t)
  }

  /** `rel` is the flight of one of its palace's slots of transformation `t`. */
  ghost predicate IsFlight(entries: seq<GongGanSiHua>, rel: FeiHuaRelation, t: SiHua)
    requires Located(entries)
  {
    exists s :: SlotFlight(entries, rel, t, s)
  }

  /** Dropping the first step of a chain of flights leaves a chain of flights. */
  lemma FlightChainTail(entries: seq<GongGanSiHua>, c: seq<FeiHuaRelation>, t: SiHua)
    requires Located(entries) && 1 <= |c| && FlightChain(entries, c, t)
    ensures FlightChain(entries, c[1..], t)
  {
    forall i | 0 <= i < |c| - 1
      ensures IsFlight(entries, c[1..][i], t)
    {
      assert c[1..][i] == c[i + 1];
    }
  }

  /** What slot `s` records is among what the first `n` slots record. */
  lemma {:induction false} SlotChainsContain(entries: seq<GongGanSiHua>, cur: int, t: SiHua, depth: int, maxDepth: int,
                                             chain: seq<FeiHuaRelation>, visited: set<int>, n: nat, s: nat, x: FeiHuaChain)
    requires Located(entries) && 0 <= cur < 12 && depth < maxDepth && s < n <= |entries[cur].siHuaList|
    requires x in SlotStep(entries, cur, t, depth, maxDepth, chain, visited, s)
    ensures x in SlotChains(entries, cur, t, depth, maxDepth, chain, visited, n)
    decreases n
  {
    if s < n - 1 {
      SlotChainsContain(entries, cur, t, depth, maxDepth, chain, visited, n - 1, s, x);
    }
  }

  /** Completeness of the search: from a search state at `cur`, every
    * continuation `ext` made of flights of transformation `t`, within the
    * depth bound and revisiting nothing, is recorded. */
  lemma {:induction false} ChainsComplete(entries: seq<GongGanSiHua>, start: int, cur: int, t: SiHua, depth: int,
                                          maxDepth: int, chain: seq<FeiHuaRelation>, visited: set<int>, ext: seq<FeiHuaRelation>)
    requires Located(entries) && 0 <= cur < 12
    requires ChainState(start, cur, t, depth, chain, visited)
    requires 1 <= |ext| && depth + |ext| <= maxDepth && ext[0].fromGong == cur
    requires Linked(ext) && FlightChain(entries, ext, t) && NoRevisit(chain + ext, start)
    ensures FeiHuaChain(chain + ext, ext[|ext| - 1].toGong == start) in Chains(entries, cur, t, depth, maxDepth, chain, visited)
    decreases |ext|
  {
    var rel := ext[0];
    var si :| SlotFlight(entries, rel, t, si);
    var c := chain + [rel];
    assert c[0].fromGong == start;
    var hb := rel.toGong == c[0].fromGong;
    var step := Extended(entries, t, depth, maxDepth, chain, visited, rel);
    assert SlotStep(entries, cur, t, depth, maxDepth, chain, visited, si) == step;
    var whole := chain + ext;
    if |ext| == 1 {
      assert whole == c;
      assert FeiHuaChain(whole, ext[|ext| - 1].toGong == start) == step[0];
    } else {
      assert whole[|chain|] == rel;
      assert !hb;
      assert rel.toGong !in visited by {
        forall i | 0 <= i < |chain|
          ensures chain[i].toGong != rel.toGong
        {
          assert whole[i] == chain[i];
        }
      }
      ChainStep(start, cur, t, depth, chain, visited, rel);
      var rest := ext[1..];
      assert c + rest == whole;
      assert Linked(rest) && rest[0].fromGong == rel.toGong by {
        assert forall i :: 0 <= i < |rest| ==> rest[i] == ext[i + 1];
      }
      FlightChainTail(entries, ext, t);
      ChainsComplete(entries, start, rel.toGong, t, depth + 1, maxDepth, c, visited + {rel.toGong}, rest);
      assert rest[|rest| - 1] == ext[|ext| - 1];
      assert step == [FeiHuaChain(c, hb)] + Chains(entries, rel.toGong, t, depth + 1, maxDepth, c, visited + {rel.toGong});
    }
    SlotChainsContain(entries, cur, t, depth, maxDepth, chain, visited, |entries[cur].siHuaList|, si,
                      FeiHuaChain(whole, ext[|ext| - 1].toGong == start));
  }

  /** Every chain of flights of transformation `t` from `start`, linked, of at
    * most `cap` steps and revisiting nothing, is among the chains the search
    * records from `start`, flagged 回本 exactly when it returns there. */
  lemma AllChainsRecorded(entries: seq<GongGanSiHua>, start: int, t: SiHua, cap: int, c: seq<FeiHuaRelation>)
    requires Located(entries) && 0 <= start < 12
    requires 1 <= |c| <= cap && c[0].fromGong == start && Linked(c)
    requires FlightChain(entries, c, t) && NoRevisit(c, start)
    ensures FeiHuaChain(c, c[|c| - 1].toGong == start) in Chains(entries, start, t, 0, cap, [], {})
  {
    assert [] + c == c;
    ChainsComplete(entries, start, start, t, 0, cap, [], {}, c);
  }

  /** Every chain in `cs` is made of flights of transformation `t`. */
  ghost predicate AllFlights(entries: seq<GongGanSiHua>, cs: seq<FeiHuaChain>, t: SiHua)
    requires Located(entries)
  {
    forall k :: 0 <= k < |cs| ==> FlightChain(entries, cs[k].chain, t)
  }

  /** Two lists of chains of flights concatenate to one. */
  lemma AllFlightsAppend(entries: seq<GongGanSiHua>, a: seq<FeiHuaChain>, b: seq<FeiHuaChain>, t: SiHua)
    requires Located(entries) && AllFlights(entries, a, t) && AllFlights(entries, b, t)
    ensures AllFlights(entries, a + b, t)
  {
    assert forall k :: |a| <= k < |a + b| ==> (a + b)[k] == b[k - |a|];
  }

  /** A chain of flights extended by one more flight is a chain of flights. */
  lemma FlightChainAppend(entries: seq<GongGanSiHua>, chain: seq<FeiHuaRelation>, rel: FeiHuaRelation, t: SiHua)
    requires Located(entries) && FlightChain(entries, chain, t) && IsFlight(entries, rel, t)
    ensures FlightChain(entries, chain + [rel], t)
  {
    forall i | 0 <= i < |chain + [rel]|
      ensures IsFlight(entries, (chain + [rel])[i], t)
    {
      if i < |chain| {
        assert (chain + [rel])[i] == chain[i];
      }
    }
  }

  /** Soundness against the table: from a chain of flights, every chain the
    * search records is made of flights of `t`, each step the flight of a
    * slot of the palace it leaves. */
  lemma {:induction false} ChainsAreFlights(entries: seq<GongGanSiHua>, cur: int, t: SiHua, depth: int, maxDepth: int,
                                            chain: seq<FeiHuaRelation>, visited: set<int>)
    requires Located(entries) && 0 <= cur < 12 && FlightChain(entries, chain, t)
    ensures AllFlights(entries, Chains(entries, cur, t, depth, maxDepth, chain, visited), t)
    decreases maxDepth - depth, 2, 0
  {
    if depth < maxDepth {
      SlotChainsAreFlights(entries, cur, t, depth, maxDepth, chain, visited, |entries[cur].siHuaList|);
    }
  }

  /** The same through the first `n` slots of palace `cur`. */
  lemma {:induction false} SlotChainsAreFlights(entries: seq<GongGanSiHua>, cur: int, t: SiHua, depth: int, maxDepth: int,
                                                chain: seq<FeiHuaRelation>, visited: set<int>, n: nat)
    requires Located(entries) && 0 <= cur < 12 && depth < maxDepth && n <= |entries[cur].siHuaList|
    requires FlightChain(entries, chain, t)
    ensures AllFlights(entries, SlotChains(entries, cur, t, depth, maxDepth, chain, visited, n), t)
    decreases maxDepth - depth, 1, n
  {
    if n > 0 {
      SlotChainsAreFlights(entries, cur, t, depth, maxDepth, chain, visited, n - 1);
      var si := entries[cur].siHuaList[n - 1];
      if si.kind == t && Flies(si) {
        var rel := FeiHuaRelation(cur, entries[cur].gongGan, si.gongIndex, t, si.starName.value);
        assert SlotFlight(entries, rel, t, n - 1);
        ExtendedAreFlights(entries, t, depth, maxDepth, chain, visited, rel);
      }
      AllFlightsAppend(entries, SlotChains(entries, cur, t, depth, maxDepth, chain, visited, n - 1),
                       SlotStep(entries, cur, t, depth, maxDepth, chain, visited, n - 1), t);
    }
  }

  /** The chains recorded along one flight are chains of flights. */
  lemma {:induction false} ExtendedAreFlights(entries: seq<GongGanSiHua>, t: SiHua, depth: int, maxDepth: int,
                                              chain: seq<FeiHuaRelation>, visited: set<int>, rel: FeiHuaRelation)
    requires Located(entries) && 0 <= rel.toGong < 12 && depth < maxDepth
    requires FlightChain(entries, chain, t) && IsFlight(entries, rel, t)
    ensures AllFlights(entries, Extended(entries, t, depth, maxDepth, chain, visited, rel), t)
    decreases maxDepth - depth, 0, 0
  {
    var c := chain + [rel];
    var hb := rel.toGong == c[0].fromGong;
    FlightChainAppend(entries, chain, rel, t);
    var head := [FeiHuaChain(c, hb)];
    assert AllFlights(entries, head, t);
    if !hb && rel.toGong !in visited {
      ChainsAreFlights(entries, rel.toGong, t, depth + 1, maxDepth, c, visited + {rel.toGong});
      AllFlightsAppend(entries, head, Chains(entries, rel.toGong, t, depth + 1, maxDepth, c, visited + {rel.toGong}), t);
    } else {
      assert Extended(entries, t, depth, maxDepth, chain, visited, rel) == head + [];
    }
  }

  /** The chains searched from `start` with the depth capped at four are
    * exactly the linked chains of flights of `t` from `start` within the
    * cap that revisit nothing, each flagged 回本 exactly when it returns. */
  lemma SearchExact(entries: seq<GongGanSiHua>, start: int, t: SiHua, maxDepth: int)
    requires Located(entries) && 0 <= start < 12
    ensures var r := Chains(entries, start, t, 0, if maxDepth < 4 then maxDepth else 4, [], {});
      (forall k :: 0 <= k < |r| ==> WellFormedChain(r[k], start, 4, t) && NoRevisit(r[k].chain, start)) &&
      (forall k :: 0 <= k < |r| ==> FlightChain(entries, r[k].chain, t)) &&
      (forall c: seq<FeiHuaRelation> :: 1 <= |c| <= maxDepth && |c| <= 4 && c[0].fromGong == start && Linked(c) &&
                 FlightChain(entries, c, t) && NoRevisit(c, start)
                 ==> FeiHuaChain(c, c[|c| - 1].toGong == start) in r)
  {
    var depth := if maxDepth < 4 then maxDepth else 4;
    ChainsWellFormed(entries, start, start, t, 0, depth, [], {});
    ChainsAreFlights(entries, start, t, 0, depth, [], {});
    forall c: seq<FeiHuaRelation> | 1 <= |c| <= maxDepth && |c| <= 4 && c[0].fromGong == start && Linked(c) &&
               FlightChain(entries, c, t) && NoRevisit(c, start)
      ensures FeiHuaChain(c, c[|c| - 1].toGong == start) in Chains(entries, start, t, 0, depth, [], {})
    {
      AllChainsRecorded(entries, start, t, depth, c);
    }
  }

  /** `find_hui_ben_chains` keeps the chains that return home. */
  function HuiBenOnly(cs: seq<FeiHuaChain>): (r: seq<FeiHuaChain>)
    ensures forall k :: 0 <= k < |r| ==> r[k] in cs && r[k].isHuiBen
    ensures forall c :: c in cs && c.isHuiBen ==> c in r
  {
    if cs == [] then []
    else
      var last := cs[|cs| - 1];
      assert forall c :: c in cs ==> c in cs[..|cs| - 1] || c == last;
      HuiBenOnly(cs[..|cs| - 1]) + (if last.isHuiBen then [last] else [])
  }

  /** The chains of the first `n` transformations that return to `start`,
    * searched to depth four. */
  function HuiBenChains(entries: seq<GongGanSiHua>, start: int, n: nat): seq<FeiHuaChain>
    requires Located(entries) && 0 <= start < 12 && n <= 4
  {
    if n == 0 then []
    else HuiBenChains(entries, start, n - 1) + HuiBenOnly(Chains(entries, start, SiHuaAt(n - 1), 0, 4, [], {}))
  }

  /** The chains returning home are well formed, at most four steps long, and
    * end in `start`. */
  lemma {:induction false} HuiBenChainsWellFormed(entries: seq<GongGanSiHua>, start: int, n: nat)
    requires Located(entries) && 0 <= start < 12 && n <= 4
    ensures forall k :: 0 <= k < |HuiBenChains(entries, start, n)| ==>
      HuiBenChains(entries, start, n)[k].isHuiBen && |HuiBenChains(entries, start, n)[k].chain| > 0 &&
      WellFormedChain(HuiBenChains(entries, start, n)[k], start, 4, HuiBenChains(entries, start, n)[k].chain[0].kind)
  {
    if n > 0 {
      HuiBenChainsWellFormed(entries, start, n - 1);
      var t := SiHuaAt(n - 1);
      var cs := Chains(entries, start, t, 0, 4, [], {});
      ChainsWellFormed(entries, start, start, t, 0, 4, [], {});
      var prev := HuiBenChains(entries, start, n - 1);
      var mine := HuiBenOnly(cs);
      forall k | 0 <= k < |mine| ensures WellFormedChain(mine[k], start, 4, mine[k].chain[0].kind) {
        var j :| 0 <= j < |cs| && cs[j] == mine[k];
      }
      var r := prev + mine;
      forall k | 0 <= k < |r|
        ensures r[k].isHuiBen && WellFormedChain(r[k], start, 4, r[k].chain[0].kind)
      {
        if k >= |prev| { assert r[k] == mine[k - |prev|]; }
      }
    }
  }

  /** Every chain in `cs` is a non-empty chain of flights of its own first
    * step's transformation. */
  ghost predicate OwnKindFlights(entries: seq<GongGanSiHua>, cs: seq<FeiHuaChain>)
    requires Located(entries)
  {
    forall k :: 0 <= k < |cs| ==> |cs[k].chain| > 0 && FlightChain(entries, cs[k].chain, cs[k].chain[0].kind)
  }

  /** The returning chains of one transformation are chains of flights of it. */
  lemma HuiBenOnlyFlights(entries: seq<GongGanSiHua>, start: int, t: SiHua)
    requires Located(entries) && 0 <= start < 12
    ensures OwnKindFlights(entries, HuiBenOnly(Chains(entries, start, t, 0, 4, [], {})))
  {
    var cs := Chains(entries, start, t, 0, 4, [], {});
    ChainsWellFormed(entries, start, start, t, 0, 4, [], {});
    ChainsAreFlights(entries, start, t, 0, 4, [], {});
    var mine := HuiBenOnly(cs);
    forall k | 0 <= k < |mine|
      ensures |mine[k].chain| > 0 && FlightChain(entries, mine[k].chain, mine[k].chain[0].kind)
    {
      var j :| 0 <= j < |cs| && cs[j] == mine[k];
    }
  }

  /** Two lists of such chains concatenate to one. */
  lemma OwnKindFlightsAppend(entries: seq<GongGanSiHua>, a: seq<FeiHuaChain>, b: seq<FeiHuaChain>)
    requires Located(entries) && OwnKindFlights(entries, a) && OwnKindFlights(entries, b)
    ensures OwnKindFlights(entries, a + b)
  {
    assert forall k :: |a| <= k < |a + b| ==> (a + b)[k] == b[k - |a|];
  }

  /** Every kept returning chain is made of flights of its own
    * transformation. */
  lemma {:induction false} HuiBenChainsAreFlights(entries: seq<GongGanSiHua>, start: int, n: nat)
    requires Located(entries) && 0 <= start < 12 && n <= 4
    ensures OwnKindFlights(entries, HuiBenChains(entries, start, n))
  {
    if n > 0 {
      HuiBenChainsAreFlights(entries, start, n - 1);
      HuiBenOnlyFlights(entries, start, SiHuaAt(n - 1));
      OwnKindFlightsAppend(entries, HuiBenChains(entries, start, n - 1),
                           HuiBenOnly(Chains(entries, start, SiHuaAt(n - 1), 0, 4, [], {})));
    }
  }

  /** Every chain of flights of one transformation from `start`, at most four
    * steps long, revisiting nothing and ending at `start`, is among the
    * returning chains kept for the first `n` transformations that include
    * its own. */
  lemma {:induction false} HuiBenChainsComplete(entries: seq<GongGanSiHua>, start: int, n: nat, c: seq<FeiHuaRelation>)
    requires Located(entries) && 0 <= start < 12 && n <= 4
    requires 1 <= |c| <= 4 && c[0].fromGong == start && Linked(c) && SiHuaIndex(c[0].kind) < n
    requires FlightChain(entries, c, c[0].kind) && NoRevisit(c, start) && c[|c| - 1].toGong == start
    ensures FeiHuaChain(c, true) in HuiBenChains(entries, start, n)
  {
    var t := c[0].kind;
    if SiHuaIndex(t) == n - 1 {
      AllChainsRecorded(entries, start, t, 4, c);
      assert FeiHuaChain(c, true) in HuiBenOnly(Chains(entries, start, SiHuaAt(n - 1), 0, 4, [], {}));
    } else {
      HuiBenChainsComplete(entries, start, n - 1, c);
    }
  }

  // ---------------------------------------------------------------------
  // The transformation system of a chart

  /** `SiHuaSystem`: the star lists of the twelve palaces and, for each
    * palace, the four transformations of its stem located among them. */
  class SiHuaSystem {
    var starsInGong: seq<seq<string>>
    var gongGanSiHua: seq<GongGanSiHua>

    /** Each palace's entry holds the four slots of its stem, located among
      * the twelve palaces. */
    ghost predicate Valid()
      reads this
    {
      |starsInGong| == 12 && Located(gongGanSiHua) &&
      forall i :: 0 <= i < 12 ==> gongGanSiHua[i] == GongEntry(starsInGong, i, gongGanSiHua[i].gongGan)
    }

    /** Builds the system from the palaces' stems and branches and their star
      * lists. */
    constructor (gongGanZhi: seq<(Stem, Branch)>, stars: seq<seq<string>>)
      requires |gongGanZhi| == 12 && |stars| == 12
      ensures Valid() && starsInGong == stars && gongGanSiHua == Entries(stars, gongGanZhi)
    {
      starsInGong := stars;
      gongGanSiHua := seq(12, i => GongGanSiHua(i, Jia, []));
      new;
      CalculateGongGanSiHua(gongGanZhi);
      forall i, s | 0 <= i < 12 && 0 <= s < |gongGanSiHua[i].siHuaList|
        ensures gongGanSiHua[i].siHuaList[s].gongIndex < 12
      {
        GongEntrySlot(stars, i, gongGanZhi[i].0, s);
        TargetMeaning(stars, SiHuaStars(gongGanZhi[i].0)[s]);
      }
    }

    /** `calculate_gong_gan_si_hua`: palace `i` gets stem `gongGanZhi[i].0`
      * and its four slots. */
    method CalculateGongGanSiHua(gongGanZhi: seq<(Stem, Branch)>)
      requires |gongGanZhi| == 12 && |starsInGong| == 12 && |gongGanSiHua| == 12
      modifies this
      ensures starsInGong == old(starsInGong)
      ensures gongGanSiHua == Entries(starsInGong, gongGanZhi)
    {
      for i := 0 to 12
        invariant starsInGong == old(starsInGong) && |gongGanSiHua| == 12
        invariant forall k :: 0 <= k < i ==> gongGanSiHua[k] == GongEntry(starsInGong, k, gongGanZhi[k].0)
      {
        var (gan, _) := gongGanZhi[i];
        var list := LocateSlots(gan);
        gongGanSiHua := gongGanSiHua[i := GongGanSiHua(i, gan, list)];
      }
    }

    /** The slot loop of `calculate_gong_gan_si_hua`: each star of the stem
      * located at the lowest palace listing its name, an empty slot at -1. */
    method LocateSlots(gan: Stem) returns (list: seq<SiHuaInfo>)
      requires |starsInGong| == 12
      ensures list == GongEntry(starsInGong, 0, gan).siHuaList
    {
      var siHuaStars := SiHuaStars(gan);
      list := [SiHuaInfo(Lu, None, 0), SiHuaInfo(Lu, None, 0), SiHuaInfo(Lu, None, 0), SiHuaInfo(Lu, None, 0)];
      for siHuaIdx := 0 to 4
        invariant |list| == 4
        invariant forall k :: 0 <= k < siHuaIdx ==> list[k] == SlotInfo(starsInGong, siHuaStars, k)
      {
        if siHuaStars[siHuaIdx].None? {
          list := list[siHuaIdx := SiHuaInfo(SiHuaAt(siHuaIdx), None, -1)];
        } else {
          var star := siHuaStars[siHuaIdx].value;
          var starGong := FindStarGong(ZhName(star));
          list := list[siHuaIdx := SiHuaInfo(SiHuaAt(siHuaIdx), Some(star), starGong)];
        }
      }
    }

    /** The search of the palaces for a star's name: the lowest palace
      * listing it, or -1. */
    method FindStarGong(name: string) returns (starGong: int)
      requires |starsInGong| == 12
      ensures starGong == FirstPalace(starsInGong, name, 0)
    {
      for j := 0 to 12
        invariant forall k :: 0 <= k < j ==> name !in starsInGong[k]
      {
        if name in starsInGong[j] {
          return j;
        }
      }
      return -1;
    }

    /** `has_zi_hua`: some star transformed by the palace's stem sits in the
      * palace itself. */
    method HasZiHua(gongIndex: int) returns (b: bool)
      requires Valid()
      ensures b <==> exists s :: 0 <= s < 4 &&
                       Target(starsInGong, SiHuaStars(gongGanSiHua[FixIndex(gongIndex)].gongGan)[s]) == FixIndex(gongIndex)
    {
      var g := FixIndex(gongIndex);
      var gongSiHua := gongGanSiHua[g];
      ghost var slots := SiHuaStars(gongSiHua.gongGan);
      for s := 0 to 4
        invariant forall k :: 0 <= k < s ==> Target(starsInGong, slots[k]) != g
      {
        var siHua := gongSiHua.siHuaList[s];
        if siHua.gongIndex == g && siHua.starName.Some? {
          return true;
        }
      }
      return false;
    }

    /** `has_zi_hua_type`: the star of transformation `t` of the palace's stem
      * sits in the palace itself. */
    method HasZiHuaType(gongIndex: int, t: SiHua) returns (b: bool)
      requires Valid()
      ensures b <==> Target(starsInGong, SiHuaStars(gongGanSiHua[FixIndex(gongIndex)].gongGan)[SiHuaIndex(t)]) == FixIndex(gongIndex)
    {
      var g := FixIndex(gongIndex);
      var gongSiHua := gongGanSiHua[g];
      ghost var slots := SiHuaStars(gongSiHua.gongGan);
      for s := 0 to 4
        invariant forall k :: 0 <= k < s && SiHuaAt(k) == t ==> Target(starsInGong, slots[k]) != g
      {
        var siHua := gongSiHua.siHuaList[s];
        SiHuaRoundTrip(s);
        if siHua.kind == t && siHua.gongIndex == g && siHua.starName.Some? {
          return true;
        }
      }
      return false;
    }

    /** `get_all_zi_hua`: the self-transforming palaces in ascending order
      * (see `AllZiHuaSound`, `AllZiHuaComplete` and `ZiHuaKindsMember`). */
    method GetAllZiHua() returns (r: seq<ZiHuaInfo>)
      requires Valid()
      ensures r == AllZiHua(gongGanSiHua, 12)
    {
      r := [];
      for i := 0 to 12
        invariant r == AllZiHua(gongGanSiHua, i)
      {
        var types := ZiHuaTypes(i);
        if types != [] {
          r := r + [ZiHuaInfo(i, types)];
        }
      }
    }

    /** The slot loop of `get_all_zi_hua`: the transformations of palace
      * `i` whose star sits in `i`, in slot order. */
    method ZiHuaTypes(i: int) returns (types: seq<SiHua>)
      requires Valid() && 0 <= i < 12
      ensures types == OwnKinds(gongGanSiHua, i)
    {
      var list := gongGanSiHua[i].siHuaList;
      types := [];
      for s := 0 to |list|
        invariant types == ZiHuaKinds(list, i, s)
      {
        var siHua := list[s];
        if siHua.gongIndex == i && siHua.starName.Some? {
          types := types + [siHua.kind];
        }
      }
    }

    /** `flies_to`: the star of transformation `t` of the stem of `fromGong`
      * sits in `toGong`; an empty slot never flies. */
    method FliesTo(fromGong: int, toGong: int, t: SiHua) returns (b: bool)
      requires Valid()
      ensures b <==> Target(starsInGong, SiHuaStars(gongGanSiHua[FixIndex(fromGong)].gongGan)[SiHuaIndex(t)]) == FixIndex(toGong)
      ensures b ==> SiHuaStars(gongGanSiHua[FixIndex(fromGong)].gongGan)[SiHuaIndex(t)].Some?
    {
      var f := FixIndex(fromGong);
      var to := FixIndex(toGong);
      var gongSiHua := gongGanSiHua[f];
      ghost var slots := SiHuaStars(gongSiHua.gongGan);
      for s := 0 to 4
        invariant forall k :: 0 <= k < s && SiHuaAt(k) == t ==> Target(starsInGong, slots[k]) != to
      {
        var siHua := gongSiHua.siHuaList[s];
        SiHuaRoundTrip(s);
        if siHua.kind == t && siHua.gongIndex == to {
          return true;
        }
      }
      return false;
    }

    /** `get_fei_hua_from`: the flights out of a palace, in slot order (see
      * `RelationsFromMeaning` and `FlightLandsOnStar`). */
    method GetFeiHuaFrom(gongIndex: int) returns (r: seq<FeiHuaRelation>)
      requires Valid()
      ensures r == RelationsFrom(FixIndex(gongIndex), gongGanSiHua[FixIndex(gongIndex)].gongGan,
                                 gongGanSiHua[FixIndex(gongIndex)].siHuaList, |gongGanSiHua[FixIndex(gongIndex)].siHuaList|)
    {
      r := [];
      var g := FixIndex(gongIndex);
      var gongSiHua := gongGanSiHua[g];
      for s := 0 to |gongSiHua.siHuaList|
        invariant r == RelationsFrom(g, gongSiHua.gongGan, gongSiHua.siHuaList, s)
      {
        var siHua := gongSiHua.siHuaList[s];
        if siHua.gongIndex >= 0 && siHua.starName.Some? {
          r := r + [FeiHuaRelation(g, gongSiHua.gongGan, siHua.gongIndex, siHua.kind, siHua.starName.value)];
        }
      }
    }

    /** `get_fei_hua_to`: the flights into a palace, by source palace and
      * slot (see `RelationsToSound` and `RelationsToComplete`). */
    method GetFeiHuaTo(gongIndex: int) returns (r: seq<FeiHuaRelation>)
      requires Valid()
      ensures r == RelationsTo(gongGanSiHua, FixIndex(gongIndex), 12)
    {
      r := [];
      var g := FixIndex(gongIndex);
      for i := 0 to 12
        invariant r == RelationsTo(gongGanSiHua, g, i)
      {
        var into := FlightsInto(i, g);
        r := r + into;
      }
    }

    /** The slot loop of `get_fei_hua_to` for palace `i`. */
    method FlightsInto(i: int, g: int) returns (into: seq<FeiHuaRelation>)
      requires Valid() && 0 <= i < 12
      ensures into == RelationsInto(i, gongGanSiHua[i].gongGan, gongGanSiHua[i].siHuaList, g, |gongGanSiHua[i].siHuaList|)
    {
      var gongSiHua := gongGanSiHua[i];
      into := [];
      for s := 0 to |gongSiHua.siHuaList|
        invariant into == RelationsInto(i, gongSiHua.gongGan, gongSiHua.siHuaList, g, s)
      {
        var siHua := gongSiHua.siHuaList[s];
        if siHua.gongIndex == g && siHua.starName.Some? {
          into := into + [FeiHuaRelation(i, gongSiHua.gongGan, g, siHua.kind, siHua.starName.value)];
        }
      }
    }

    /** `get_fei_hua_chains`: the chains of transformation `t` from `startGong`,
      * at most four steps deep; each is well formed (see `ChainsWellFormed`). */
    method GetFeiHuaChains(startGong: int, t: SiHua, maxDepth: int) returns (r: seq<FeiHuaChain>)
      requires Valid() && 0 <= startGong < 12
      ensures r == Chains(gongGanSiHua, startGong, t, 0, if maxDepth < 4 then maxDepth else 4, [], {})
      ensures forall k :: 0 <= k < |r| ==> WellFormedChain(r[k], startGong, 4, t) && NoRevisit(r[k].chain, startGong)
      ensures forall k :: 0 <= k < |r| ==> FlightChain(gongGanSiHua, r[k].chain, t)
      ensures forall c: seq<FeiHuaRelation> :: 1 <= |c| <= maxDepth && |c| <= 4 && c[0].fromGong == startGong && Linked(c) &&
                          FlightChain(gongGanSiHua, c, t) && NoRevisit(c, startGong)
                          ==> FeiHuaChain(c, c[|c| - 1].toGong == startGong) in r
    {
      var depth := if maxDepth < 4 then maxDepth else 4;
      var chain, visited;
      chain, visited, r := FindChainsRecursive(startGong, t, 0, depth, [], {}, []);
      SearchExact(gongGanSiHua, startGong, t, maxDepth);
    }

    /** `find_chains_recursive`: appends the chains recorded from `cur` and
      * hands back the chain and the visited set as they came in. */
    method FindChainsRecursive(cur: int, t: SiHua, depth: int, maxDepth: int, chain: seq<FeiHuaRelation>,
                               visited: set<int>, result: seq<FeiHuaChain>)
      returns (chain': seq<FeiHuaRelation>, visited': set<int>, result': seq<FeiHuaChain>)
      requires Located(gongGanSiHua) && 0 <= cur < 12
      ensures chain' == chain && visited' == visited
      ensures result' == result + Chains(gongGanSiHua, cur, t, depth, maxDepth, chain, visited)
      decreases maxDepth - depth, 2
    {
      chain', visited', result' := chain, visited, result;
      if depth >= maxDepth {
        return;
      }
      var gongSiHua := gongGanSiHua[cur];
      for s := 0 to |gongSiHua.siHuaList|
        invariant chain' == chain && visited' == visited
        invariant result' == result + SlotChains(gongGanSiHua, cur, t, depth, maxDepth, chain, visited, s)
      {
        chain', visited', result' := VisitSlot(cur, t, depth, maxDepth, s, chain', visited', result');
      }
    }

    /** The body of the slot loop of `find_chains_recursive`: a slot of
      * transformation `t` whose star was found flies one step. */
    method VisitSlot(cur: int, t: SiHua, depth: int, maxDepth: int, s: int, chain: seq<FeiHuaRelation>,
                     visited: set<int>, result: seq<FeiHuaChain>)
      returns (chain': seq<FeiHuaRelation>, visited': set<int>, result': seq<FeiHuaChain>)
      requires Located(gongGanSiHua) && 0 <= cur < 12 && 0 <= s < |gongGanSiHua[cur].siHuaList| && depth < maxDepth
      ensures chain' == chain && visited' == visited
      ensures result' == result + SlotStep(gongGanSiHua, cur, t, depth, maxDepth, chain, visited, s)
      decreases maxDepth - depth, 1
    {
      chain', visited', result' := chain, visited, result;
      var gongSiHua := gongGanSiHua[cur];
      var siHua := gongSiHua.siHuaList[s];
      if siHua.kind == t && siHua.gongIndex >= 0 && siHua.starName.Some? {
        var relation := FeiHuaRelation(cur, gongSiHua.gongGan, siHua.gongIndex, t, siHua.starName.value);
        chain', visited', result' := FlyStep(cur, t, depth, maxDepth, chain', visited', result', relation);
      }
    }

    /** One step of `find_chains_recursive`: record the chain extended by
      * `relation`, search on from its palace unless it returned home or was
      * visited, and undo the step. */
    method FlyStep(cur: int, t: SiHua, depth: int, maxDepth: int, chain: seq<FeiHuaRelation>,
                   visited: set<int>, result: seq<FeiHuaChain>, relation: FeiHuaRelation)
      returns (chain': seq<FeiHuaRelation>, visited': set<int>, result': seq<FeiHuaChain>)
      requires Located(gongGanSiHua) && depth < maxDepth && 0 <= relation.toGong < 12
      ensures chain' == chain && visited' == visited
      ensures result' == result + Extended(gongGanSiHua, t, depth, maxDepth, chain, visited, relation)
      decreases maxDepth - depth, 0
    {
      chain', visited', result' := chain + [relation], visited, result;
      var isHuiBen := false;
      if |chain'| > 0 && relation.toGong == chain'[0].fromGong {
        isHuiBen := true;
      }
      result' := result' + [FeiHuaChain(chain', isHuiBen)];
      if !isHuiBen && relation.toGong !in visited' {
        visited' := visited' + {relation.toGong};
        chain', visited', result' := FindChainsRecursive(relation.toGong, t, depth + 1, maxDepth, chain', visited', result');
        visited' := visited' - {relation.toGong};
      }
      chain' := chain'[..|chain'| - 1];
    }

    /** `find_hui_ben_chains`: the chains of all four transformations from
      * `startGong`, four steps deep, that return to it. */
    method FindHuiBenChains(startGong: int) returns (all: seq<FeiHuaChain>)
      requires Valid() && 0 <= startGong < 12
      ensures all == HuiBenChains(gongGanSiHua, startGong, 4)
      ensures forall k :: 0 <= k < |all| ==>
        all[k].isHuiBen && |all[k].chain| > 0 && WellFormedChain(all[k], startGong, 4, all[k].chain[0].kind)
      ensures forall k :: 0 <= k < |all| ==> FlightChain(gongGanSiHua, all[k].chain, all[k].chain[0].kind)
      ensures forall c: seq<FeiHuaRelation> :: 1 <= |c| <= 4 && c[0].fromGong == startGong && Linked(c) &&
                FlightChain(gongGanSiHua, c, c[0].kind) && NoRevisit(c, startGong) && c[|c| - 1].toGong == startGong
                ==> FeiHuaChain(c, true) in all
    {
      all := [];
      for i := 0 to 4
        invariant all == HuiBenChains(gongGanSiHua, startGong, i)
      {
        var chains := GetFeiHuaChains(startGong, SiHuaAt(i), 4);
        var kept := KeepHuiBen(chains);
        all := all + kept;
      }
      HuiBenChainsWellFormed(gongGanSiHua, startGong, 4);
      HuiBenChainsAreFlights(gongGanSiHua, startGong, 4);
      forall c: seq<FeiHuaRelation> | 1 <= |c| <= 4 && c[0].fromGong == startGong && Linked(c) &&
          FlightChain(gongGanSiHua, c, c[0].kind) && NoRevisit(c, startGong) && c[|c| - 1].toGong == startGong
        ensures FeiHuaChain(c, true) in all
      {
        HuiBenChainsComplete(gongGanSiHua, startGong, 4, c);
      }
    }

    /** The filter of `find_hui_ben_chains`: the chains, in order, that return
      * home. */
    method KeepHuiBen(chains: seq<FeiHuaChain>) returns (kept: seq<FeiHuaChain>)
      ensures kept == HuiBenOnly(chains)
    {
      kept := [];
      for k := 0 to |chains|
        invariant kept == HuiBenOnly(chains[..k])
      {
        assert chains[..k + 1][..k] == chains[..k];
        if chains[k].isHuiBen {
          kept := kept + [chains[k]];
        }
      }
      assert chains[..|chains|] == chains;
    }
  }
}
