/** What the Three Transmissions chain of src/da_liu_ren/da_liu_ren.cpp
  * guarantees: where each transmission comes from, when each method applies
  * and fails, and how the methods of the chain shut each other out. */
module LiuRenSanChuanProperties {
  import opened GanZhi
  import opened Wrappers
  import opened LiuRenPlate
  import opened LiuRenSanChuan

  /** Removing duplicates empties a list of lessons only when it was empty. */
  lemma DedupEmpty(s: seq<Lesson>)
    ensures Dedup(s) == [] <==> s == []
  {
    if s != [] {
      DedupCoversKeys(s);
      assert KeyOf(s[0]) in Keys(Dedup(s));
    }
  }

  /** `chu` is the upper branch of one of the lessons `s`, or one of the two
    * Yang Spirits. */
  predicate ChuFrom(sk: SiKe, s: seq<Lesson>, chu: Branch)
  {
    (exists l :: l in s && l.upper == chu) || chu == sk.ganYangShen || chu == sk.zhiYangShen
  }

  // ------------------------------------------------------------ she hai --

  /** `she_hai` never fails and always chains its transmissions on the plate.
    * Its form says how it chose: a single deepest lesson (SheHaiGua); the
    * first deepest lesson over a meng position (JianJi); the first over a
    * zhong position when none is over a meng one (ChaWei); or else the Yang
    * Spirit of the first lesson's parity (FuDeng). */
  lemma SheHaiCases(p: Plate, sk: SiKe, s: seq<Lesson>)
    requires ValidPlate(p)
    ensures var r := SheHai(p, sk, s);
            IsChained(p, r.t) && |r.labels| == 2 && r.labels[0] == SheHaiMark
            && ChuFrom(sk, s, r.t.chu)
    ensures var r := SheHai(p, sk, s);
            r.labels[1] == SheHaiGua ==>
              exists l :: l in s && l.upper == r.t.chu
                          && forall l' :: l' in s ==> HarmDepth(p, l') <= HarmDepth(p, l)
    ensures var r := SheHai(p, sk, s);
            r.labels[1] == JianJi ==>
              exists l :: l in s && l.upper == r.t.chu && HarmDepth(p, l) == MaxDepth(p, s)
                          && IsMeng(Lin(p, l.upper))
    ensures var r := SheHai(p, sk, s);
            r.labels[1] == ChaWei ==>
              exists l :: l in s && l.upper == r.t.chu && HarmDepth(p, l) == MaxDepth(p, s)
                          && IsZhong(Lin(p, l.upper))
    ensures var r := SheHai(p, sk, s);
            r.labels[1] == FuDeng ==>
              r.t.chu == (if LessonIsYang(sk.first) then sk.ganYangShen else sk.zhiYangShen)
              && forall l :: l in s && HarmDepth(p, l) == MaxDepth(p, s)
                             ==> !IsMeng(Lin(p, l.upper)) && !IsZhong(Lin(p, l.upper))
  {
    var m := MaxDepth(p, s);
    var tied := AtDepth(p, s, m);
    AtDepthMembers(p, s, m);
    MaxDepthIsMax(p, s);
    FirstOverIsFirst(p, tied, true);
    FirstOverIsFirst(p, tied, false);
    var r := SheHai(p, sk, s);
    if |tied| == 1 {
      assert tied[0] in tied;
      forall l' | l' in s
        ensures HarmDepth(p, l') <= HarmDepth(p, tied[0])
      {
        var i :| 0 <= i < |s| && s[i] == l';
      }
    } else if FirstOver(p, tied, true).Some? {
      var l := FirstOver(p, tied, true).value;
      assert l in tied;
    } else if FirstOver(p, tied, false).Some? {
      var l := FirstOver(p, tied, false).value;
      assert l in tied;
    }
  }

  // ------------------------------------------------------------- bi yong --

  /** `bi_yong` always chains its transmissions and takes the initial one from
    * its candidates (or a Yang Spirit); it resolves directly, as ZhiYi,
    * exactly when one candidate has the day stem's parity, and that candidate
    * begins. */
  lemma BiYongCases(p: Plate, sk: SiKe, s: seq<Lesson>)
    requires ValidPlate(p)
    ensures var r := BiYong(p, sk, s);
            IsChained(p, r.t) && ChuFrom(sk, s, r.t.chu) && |r.labels| == 2
    ensures var r := BiYong(p, sk, s);
            var matched := WithParity(s, IsYangStem(DayGan(sk)));
            (r.labels == [BiYongMark, ZhiYi] <==> |matched| == 1)
            && (|matched| == 1 ==> r.t.chu == matched[0].upper && matched[0] in s
                                   && IsYangBranch(matched[0].upper) == IsYangStem(DayGan(sk)))
            && (|matched| != 1 ==> r.labels[0] == SheHaiMark)
  {
    var matched := WithParity(s, IsYangStem(DayGan(sk)));
    WithParityMembers(s, IsYangStem(DayGan(sk)));
    if |matched| == 1 {
      assert matched[0] in matched;
    } else if |matched| == 0 {
      SheHaiCases(p, sk, s);
    } else {
      SheHaiCases(p, sk, matched);
      var chu := SheHai(p, sk, matched).t.chu;
      if exists l :: l in matched && l.upper == chu {
        var l :| l in matched && l.upper == chu;
        assert l in s;
      }
    }
  }

  // -------------------------------------------------------------- zei ke --

  /** `zei_ke` fails exactly when no lesson conquers and none overcomes. */
  lemma ZeiKeFails(p: Plate, sk: SiKe)
    requires ValidPlate(p)
    ensures ZeiKe(p, sk).None? <==> forall l <- Lessons(sk) :: !IsConqueror(l) && !IsOvercome(l)
  {
    DedupEmpty(Conquering(Lessons(sk)));
    DedupEmpty(Overcoming(Lessons(sk)));
    ConqueringMembers(Lessons(sk));
    OvercomingMembers(Lessons(sk));
    if Conquering(Lessons(sk)) != [] {
      assert Conquering(Lessons(sk))[0] in Conquering(Lessons(sk));
    }
    if Overcoming(Lessons(sk)) != [] {
      assert Overcoming(Lessons(sk))[0] in Overcoming(Lessons(sk));
    }
  }

  /** When `zei_ke` applies its transmissions are chained. With a conquering
    * lesson the overcoming ones are never looked at: the initial transmission
    * comes from a conquering lesson (or a Yang Spirit), and a single one gives
    * ChongShen; otherwise from an overcoming lesson, and a single one gives
    * YuanShou. */
  lemma ZeiKeCases(p: Plate, sk: SiKe)
    requires ValidPlate(p) && ZeiKe(p, sk).Some?
    ensures IsChained(p, ZeiKe(p, sk).value.t)
    ensures var chu := ZeiKe(p, sk).value.t.chu;
            Conquerors(sk) != [] ==>
              ChuFrom(sk, Conquerors(sk), chu)
              && (ZeiKe(p, sk).value.labels == [ChongShen] <==> |Conquerors(sk)| == 1)
    ensures var chu := ZeiKe(p, sk).value.t.chu;
            Conquerors(sk) == [] ==>
              Overcomes(sk) != [] && ChuFrom(sk, Overcomes(sk), chu)
              && (ZeiKe(p, sk).value.labels == [YuanShou] <==> |Overcomes(sk)| == 1)
  {
    var c := Conquerors(sk);
    var o := Overcomes(sk);
    if |c| > 0 {
      if |c| == 1 {
        assert c[0] in c;
      } else {
        BiYongCases(p, sk, c);
      }
    } else if |o| > 0 {
      if |o| == 1 {
        assert o[0] in o;
      } else {
        BiYongCases(p, sk, o);
      }
    }
  }

  /** The candidates of `zei_ke` are lessons of the cast that conquer, or that
    * overcome. */
  lemma ZeiKeCandidates(sk: SiKe)
    ensures forall l <- Conquerors(sk) :: l in Lessons(sk) && IsConqueror(l)
    ensures forall l <- Overcomes(sk) :: l in Lessons(sk) && IsOvercome(l)
  {
    DedupSubset(Conquering(Lessons(sk)));
    DedupSubset(Overcoming(Lessons(sk)));
    ConqueringMembers(Lessons(sk));
    OvercomingMembers(Lessons(sk));
  }

  // -------------------------------------------------------------- yao ke --

  /** `yao_ke` fails exactly on a ba-zhuan day or when no other lesson's
    * lower branch and the day stem overcome one another; when it applies,
    * its transmissions are chained, its form comes first and the initial
    * transmission comes from a candidate (or a Yang Spirit). */
  lemma YaoKeCases(p: Plate, sk: SiKe)
    requires ValidPlate(p)
    ensures YaoKe(p, sk).None? <==> IsBaZhuanDay(sk.first) || DistantCandidates(sk) == []
    ensures YaoKe(p, sk).Some? ==>
              IsChained(p, YaoKe(p, sk).value.t) && YaoKe(p, sk).value.labels[0] == YaoKeGua
              && ChuFrom(sk, DistantCandidates(sk), YaoKe(p, sk).value.t.chu)
  {
    if !IsBaZhuanDay(sk.first) && DistantCandidates(sk) != [] {
      var cands := DistantCandidates(sk);
      var d := Dedup(cands);
      DedupEmpty(cands);
      DedupSubset(cands);
      if |d| == 1 {
        assert d[0] in d;
      } else {
        BiYongCases(p, sk, d);
        var chu := BiYong(p, sk, d).t.chu;
        if exists l :: l in d && l.upper == chu {
          var l :| l in d && l.upper == chu;
          assert l in cands;
        }
      }
    }
  }

  /** The candidates of `yao_ke` are among the second to fourth lessons: those
    * whose lower branch overcomes the day stem's element when there are any,
    * and otherwise those whose lower branch that element overcomes. */
  lemma YaoKeCandidates(sk: SiKe)
    ensures var e := StemElement(DayGan(sk));
            var rest := [sk.second, sk.third, sk.fourth];
            (exists l :: l in rest && DistantHit(l, e, true)) ==>
              forall l :: l in DistantCandidates(sk) <==> l in rest && DistantHit(l, e, true)
    ensures var e := StemElement(DayGan(sk));
            var rest := [sk.second, sk.third, sk.fourth];
            (forall l :: l in rest ==> !DistantHit(l, e, true)) ==>
              forall l :: l in DistantCandidates(sk) <==> l in rest && DistantHit(l, e, false)
  {
    var e := StemElement(DayGan(sk));
    var rest := [sk.second, sk.third, sk.fourth];
    DistantHitsMembers(rest, e, true);
    DistantHitsMembers(rest, e, false);
    var toward := DistantHits(rest, e, true);
    if |toward| > 0 {
      assert toward[0] in toward;
    }
    if exists l :: l in rest && DistantHit(l, e, true) {
      var l :| l in rest && DistantHit(l, e, true);
      assert l in toward;
    }
  }

  // ------------------------------------------------ the rest of the chain --

  /** With a stem lesson first and a branch lesson second there are between
    * two and four distinct lessons. */
  lemma DistinctCountBounds(sk: SiKe)
    requires sk.first.isGanZhi && !sk.second.isGanZhi
    ensures 2 <= DistinctCount(sk) <= 4
  {
    var s := Lessons(sk);
    var d := Dedup(s);
    DedupCoversKeys(s);
    assert KeyOf(s[0]) in Keys(d) && KeyOf(s[1]) in Keys(d);
    var i :| 0 <= i < |d| && Keys(d)[i] == KeyOf(s[0]);
    var j :| 0 <= j < |d| && Keys(d)[j] == KeyOf(s[1]);
    assert i != j;
  }

  /** The chain of an ordinary plate fails exactly when none of its five
    * methods applies; on a well-formed cast that leaves only casts with two
    * distinct lessons that are not ba-zhuan days. */
  lemma ChainFails(p: Plate, sk: SiKe)
    requires ValidPlate(p)
    ensures Chain(p, sk).None? <==>
              ZeiKe(p, sk).None? && YaoKe(p, sk).None? && DistinctCount(sk) != 4
              && DistinctCount(sk) != 3 && !IsBaZhuanDay(sk.first)
    ensures WellFormed(p, sk) && Chain(p, sk).None? ==> DistinctCount(sk) == 2
  {
    if WellFormed(p, sk) {
      DistinctCountBounds(sk);
    }
  }

  /** The family name at the front of the lesson forms tells which method
    * resolved the cast, and every method before it in the chain failed. */
  lemma ChainFamily(p: Plate, sk: SiKe)
    requires ValidPlate(p) && Chain(p, sk).Some?
    ensures var labels := Chain(p, sk).value.labels;
            |labels| >= 1
            && (labels[0] == ZeiKeMethod <==> ZeiKe(p, sk).Some?)
            && (labels[0] == YaoKeMethod <==> ZeiKe(p, sk).None? && YaoKe(p, sk).Some?)
            && (labels[0] == AngXingMethod <==>
                  ZeiKe(p, sk).None? && YaoKe(p, sk).None? && DistinctCount(sk) == 4)
            && (labels[0] == BieZeMethod <==>
                  ZeiKe(p, sk).None? && YaoKe(p, sk).None? && DistinctCount(sk) == 3)
            && (labels[0] == BaZhuanMethod <==>
                  ZeiKe(p, sk).None? && YaoKe(p, sk).None? && DistinctCount(sk) != 4
                  && DistinctCount(sk) != 3 && IsBaZhuanDay(sk.first))
  {
  }

  /** `bie_ze` and `ba_zhuan` both end with the day stem's Yang Spirit as the
    * middle and final transmissions. */
  lemma BieZeBaZhuanTail(p: Plate, sk: SiKe)
    requires ValidPlate(p)
    ensures BieZe(p, sk).Some? ==>
              BieZe(p, sk).value.t.zhong == sk.ganYangShen && BieZe(p, sk).value.t.mo == sk.ganYangShen
    ensures BaZhuan(p, sk).Some? ==>
              BaZhuan(p, sk).value.t.zhong == sk.ganYangShen && BaZhuan(p, sk).value.t.mo == sk.ganYangShen
  {
  }

  // ----------------------------------------------------- fu yin, fan yin --

  /** No plate is both fu yin and fan yin. */
  lemma FuFanExclusive(p: Plate)
    requires ValidPlate(p)
    ensures !(IsFuYinPlate(p) && IsFanYinPlate(p))
  {
    if IsFuYinPlate(p) {
      assert At(p, Zi) == Zi;
      assert AddB(Zi, 6) == Wu;
    }
  }

  /** On a fu yin plate a Gui day (a yin stem) gives the fixed transmissions
    * tdp[Chou], Xu, Wei, as ZiXinGui. */
  lemma FuYinGuiDay(p: Plate, sk: SiKe)
    requires ValidPlate(p) && sk.first.isGanZhi && sk.first.gan == Gui
    ensures FuYin(p, sk) == Some(Step(Transmission(At(p, Chou), Xu, Wei), [ZiXinGui]))
  {
  }

  /** The meng branch of a branch is the one meng branch in its residue class mod 4:
    * any meng branch a whole number of +4 steps away is it. */
  lemma MengIsUnique(b: Branch, h: Branch)
    requires IsMeng(h) && (h - b) % 4 == 0
    ensures h == MengOf(b)
  {
  }

  /** A fan yin plate always resolves: by `zei_ke` when it applies, otherwise
    * with the clash of the fourth lesson's meng branch as the initial
    * transmission. */
  lemma FanYinResolves(p: Plate, sk: SiKe)
    requires ValidPlate(p) && !IsFuYinPlate(p) && IsFanYinPlate(p)
    ensures Solve(p, sk).Some? && Solve(p, sk).value.labels[0] == FanYinMethod
    ensures ZeiKe(p, sk).None? ==>
              Solve(p, sk).value.t.chu == AddB(MengOf(sk.fourth.upper), 6)
              && IsMeng(Solve(p, sk).value.t.chu)
  {
    MengZhongResidues(MengOf(sk.fourth.upper));
    MengZhongResidues(AddB(MengOf(sk.fourth.upper), 6));
    DivMod12(MengOf(sk.fourth.upper) + 6, (MengOf(sk.fourth.upper) + 6) / 12,
             AddB(MengOf(sk.fourth.upper), 6));
  }

  /** The constructor throws only on a fu yin plate whose first lesson is not
    * a stem lesson, or on an ordinary plate where the chain fails. */
  lemma SolveFails(p: Plate, sk: SiKe)
    requires ValidPlate(p)
    ensures Solve(p, sk).None? <==>
              (IsFuYinPlate(p) && !sk.first.isGanZhi)
              || (!IsFuYinPlate(p) && !IsFanYinPlate(p) && Chain(p, sk).None?)
  {
  }

  // ----------------------------------------------------------- examples --

  /** A list of lessons without members is empty. */
  lemma NoMembers(s: seq<Lesson>)
    ensures (forall l :: l !in s) ==> s == []
  {
    if s != [] {
      assert s[0] in s;
    }
  }

  /** A cast in which no lesson conquers and none overcomes. */
  lemma NoConqueringCast(sk: SiKe)
    requires forall i :: 0 <= i < 4 ==> !IsConqueror(Lessons(sk)[i]) && !IsOvercome(Lessons(sk)[i])
    ensures Conquerors(sk) == [] && Overcomes(sk) == []
  {
    var s := Lessons(sk);
    ConqueringMembers(s);
    OvercomingMembers(s);
    NoMembers(Conquering(s));
    NoMembers(Overcoming(s));
  }

  /** One step of `Dedup`: a lesson is appended unless its key is taken. */
  lemma DedupSnoc(s: seq<Lesson>, l: Lesson)
    ensures Dedup(s + [l]) == if KeyOf(l) in Keys(Dedup(s)) then Dedup(s) else Dedup(s) + [l]
  {
    assert (s + [l])[..|s|] == s;
  }

  /** Three lessons whose third repeats the second's key and whose first two
    * keys differ leave the first two after `Dedup`. */
  lemma DedupThree(a: Lesson, b: Lesson, c: Lesson)
    requires KeyOf(a) != KeyOf(b) && KeyOf(c) == KeyOf(b)
    ensures Dedup([a, b, c]) == [a, b]
  {
    DedupSnoc([], a);
    assert [] + [a] == [a];
    DedupSnoc([a], b);
    assert [a] + [b] == [a, b];
    assert Keys([a, b]) == [KeyOf(a), KeyOf(b)];
    DedupSnoc([a, b], c);
    assert [a, b] + [c] == [a, b, c];
  }

  /** A fourth lesson after those three is dropped exactly when its key is
    * one of the first two. */
  lemma DedupFour(a: Lesson, b: Lesson, c: Lesson, d: Lesson)
    requires KeyOf(a) != KeyOf(b) && KeyOf(c) == KeyOf(b)
    ensures KeyOf(d) == KeyOf(b) ==> Dedup([a, b, c, d]) == [a, b]
    ensures KeyOf(d) != KeyOf(a) && KeyOf(d) != KeyOf(b) ==> Dedup([a, b, c, d]) == [a, b, d]
  {
    DedupThree(a, b, c);
    assert Keys([a, b]) == [KeyOf(a), KeyOf(b)];
    DedupSnoc([a, b, c], d);
    assert [a, b, c] + [d] == [a, b, c, d];
  }

  /** The cast of the Bing-Wu day on a plate that moves every branch one step
    * on: its lessons conquer nothing, overcome nothing, three are distinct and
    * the day is a ba-zhuan day. */
  lemma BingWuCast(sk: SiKe)
    requires sk == SiKe(StemLesson(Bing, Wu), BranchLesson(Wu, Wei), BranchLesson(Wu, Wei),
                        BranchLesson(Wei, Shen), Wu, Wei)
    ensures Conquerors(sk) == [] && Overcomes(sk) == []
    ensures DistinctCount(sk) == 3 && IsBaZhuanDay(sk.first)
  {
    assert LessonElement(sk.first) == Fire && BranchElement(Wu) == Fire;
    assert LessonElement(sk.second) == Fire && BranchElement(Wei) == Earth;
    assert LessonElement(sk.fourth) == Earth && BranchElement(Shen) == Metal;
    NoConqueringCast(sk);
    DedupFour(sk.first, sk.second, sk.third, sk.fourth);
    assert BaZhuanPairs()[2] == (Bing, Wu);
  }

  /** The clockwise plate with heaven's Chou over earth's Zi moves every
    * branch one step on. */
  lemma ChouOverZiAt(b: Branch)
    ensures At(Rotation(Chou, Zi, true), b) == AddB(b, 1)
  {
  }

  /** A ba-zhuan day need not reach `ba_zhuan`: on a plate that moves every
    * branch one step on (heaven's Chou over earth's Zi, see ChouOverZiAt),
    * the Bing-Wu day has three distinct lessons, so `bie_ze`, tried first,
    * resolves it. */
  lemma BaZhuanDayResolvedByBieZe(p: Plate)
    requires ValidPlate(p) && forall b: Branch :: At(p, b) == AddB(b, 1)
    ensures var sk := FourLessons(p, Bing, Wu);
            IsBaZhuanDay(sk.first)
            && Solve(p, sk) == Some(Step(Transmission(Hai, Wu, Wu), [BieZeMethod, BieZeGua]))
  {
    assert At(p, Si) == Wu && At(p, Wu) == Wei && At(p, Wei) == Shen && At(p, Xu) == Hai;
    var sk := FourLessons(p, Bing, Wu);
    assert sk == SiKe(StemLesson(Bing, Wu), BranchLesson(Wu, Wei), BranchLesson(Wu, Wei),
                      BranchLesson(Wei, Shen), Wu, Wei);
    BingWuCast(sk);
    assert At(p, Zi) == Chou;
    assert ZeiKe(p, sk) == None && YaoKe(p, sk) == None && AngXing(p, sk) == None;
    assert BieZe(p, sk) == Some(Step(Transmission(Hai, Wu, Wu), [BieZeGua]));
    assert [BieZeMethod] + [BieZeGua] == [BieZeMethod, BieZeGua];
    assert !IsFuYinPlate(p) && !IsFanYinPlate(p);
    assert Solve(p, sk) == Chain(p, sk) == ChainFromBieZe(p, sk);
  }

  /** The cast of the Ji-Wei day on the plate that mirrors every branch about
    * Chou: every lesson is on Wei, nothing conquers or overcomes, two lessons
    * are distinct and the day is not a ba-zhuan day. */
  lemma JiWeiCast(sk: SiKe)
    requires sk == SiKe(StemLesson(Ji, Wei), BranchLesson(Wei, Wei), BranchLesson(Wei, Wei),
                        BranchLesson(Wei, Wei), Wei, Wei)
    ensures Conquerors(sk) == [] && Overcomes(sk) == []
    ensures DistinctCount(sk) == 2 && !IsBaZhuanDay(sk.first) && DistantCandidates(sk) == []
  {
    assert LessonElement(sk.first) == Earth && LessonElement(sk.second) == Earth;
    assert BranchElement(Wei) == Earth;
    NoConqueringCast(sk);
    DedupFour(sk.first, sk.second, sk.third, sk.fourth);
    var e := StemElement(DayGan(sk));
    var rest := [sk.second, sk.third, sk.fourth];
    DistantHitsMembers(rest, e, true);
    DistantHitsMembers(rest, e, false);
    NoMembers(DistantHits(rest, e, true));
    NoMembers(DistantHits(rest, e, false));
  }

  /** The counter-clockwise plate that keeps Chou in place mirrors every
    * branch about Chou. */
  lemma ChouFixedAt(b: Branch)
    ensures At(Rotation(Chou, Chou, false), b) == AddB(Yin, -(b as int))
  {
  }

  /** The chain can fail outright: on the plate that mirrors every branch
    * about Chou (the counter-clockwise plate that keeps Chou in place, see
    * ChouFixedAt), a Ji-Wei day has every lesson on Wei, nothing conquers or
    * overcomes, only two lessons are distinct and the day is not a ba-zhuan
    * day, so the constructor throws. */
  lemma ChainCanFail(p: Plate)
    requires ValidPlate(p) && forall b: Branch :: At(p, b) == AddB(Yin, -(b as int))
    ensures var sk := FourLessons(p, Ji, Wei);
            !IsFuYinPlate(p) && !IsFanYinPlate(p) && Solve(p, sk).None?
  {
    assert At(p, Zi) == Yin && At(p, Wei) == Wei;
    var sk := FourLessons(p, Ji, Wei);
    assert sk == SiKe(StemLesson(Ji, Wei), BranchLesson(Wei, Wei), BranchLesson(Wei, Wei),
                      BranchLesson(Wei, Wei), Wei, Wei);
    JiWeiCast(sk);
    assert ZeiKe(p, sk) == None && YaoKe(p, sk) == None && AngXing(p, sk) == None;
    assert BieZe(p, sk) == None && BaZhuan(p, sk) == None;
  }

  /** A cast whose third and fourth lessons stand on different branches has at
    * least three distinct lessons: the stem lesson and those two. */
  lemma DistinctCountThree(sk: SiKe)
    requires sk.first.isGanZhi && !sk.third.isGanZhi && !sk.fourth.isGanZhi
    requires sk.third.lowerZhi != sk.fourth.lowerZhi
    ensures DistinctCount(sk) >= 3
  {
    var s := Lessons(sk);
    var d := Dedup(s);
    DedupCoversKeys(s);
    assert KeyOf(s[0]) in Keys(d) && KeyOf(s[2]) in Keys(d) && KeyOf(s[3]) in Keys(d);
    var i :| 0 <= i < |d| && Keys(d)[i] == KeyOf(s[0]);
    var j :| 0 <= j < |d| && Keys(d)[j] == KeyOf(s[2]);
    var k :| 0 <= k < |d| && Keys(d)[k] == KeyOf(s[3]);
    assert i != j && i != k && j != k;
  }

  /** A clockwise plate that keeps one branch in place keeps the Month General
    * on the hour branch itself. */
  lemma ClockwiseFixedPoint(g: Branch, h: Branch, b: Branch)
    ensures At(Rotation(g, h, true), b) == b ==> g == h
  {
    if At(Rotation(g, h, true), b) == b {
      var x := g + b - h;
      assert x % 12 == b;
      assert x == 12 * (x / 12) + b;
    }
  }

  /** A cast of four lessons that is fu yin, or has at least three distinct
    * lessons, always resolves. */
  lemma RotationSolves(p: Plate, sk: SiKe)
    requires ValidPlate(p) && WellFormed(p, sk)
    requires IsFuYinPlate(p) || DistinctCount(sk) >= 3
    ensures Solve(p, sk).Some?
  {
    SolveFails(p, sk);
    ChainFails(p, sk);
  }

  /** When the Noble runs clockwise (`is_clockwise`) the plate is a rotation,
    * and the constructor never throws for any day pillar: a rotation by zero
    * is the fu yin plate, whose first lesson is a stem lesson, and any other
    * rotation moves the day branch, so the cast has at least three distinct
    * lessons and the chain resolves. */
  lemma ClockwiseNeverThrows(g: Branch, h: Branch, guiRen: Branch, gan: Stem, zhi: Branch)
    requires IsClockwise(guiRen)
    ensures var p := Rotation(g, h, IsClockwise(guiRen));
            Solve(p, FourLessons(p, gan, zhi)).Some?
  {
    var p := Rotation(g, h, true);
    var sk := FourLessons(p, gan, zhi);
    if g == h {
      assert IsFuYinPlate(p) by {
        forall b: Branch ensures At(p, b) == b {
          assert At(p, b) == AddB(g, b - h);
        }
      }
      RotationSolves(p, sk);
    } else {
      ClockwiseFixedPoint(g, h, zhi);
      assert sk.third.lowerZhi == zhi && sk.fourth.lowerZhi == At(p, zhi);
      DistinctCountThree(sk);
      RotationSolves(p, sk);
    }
  }
}
