/** The `SanChuan` class of src/da_liu_ren/da_liu_ren.cpp: the plate and the
  * four lessons it was built from, the three transmissions it sets and the
  * list of lesson-form names (`ke_shi_`) it appends to. Each method changes
  * the fields the way the C++ method does and is proved to leave exactly the
  * state the matching specification function of `LiuRenSanChuan` describes;
  * a method that throws in C++ returns `false` here and changes nothing. */
module LiuRenSanChuanClass {
  import opened GanZhi
  import opened Wrappers
  import opened LiuRenPlate
  import opened LiuRenSanChuan
  import S = LiuRenSanChuan

  class SanChuan {
    const tianDiPan: Plate
    const siKe: SiKe
    var chuChuan: Branch
    var zhongChuan: Branch
    var moChuan: Branch
    var keShi: seq<Label>

    /** The three transmissions as they stand. */
    function Current(): Transmission
      reads this
    {
      Transmission(chuChuan, zhongChuan, moChuan)
    }

    /** The object before the chain has run: the transmissions are all Zi and
      * no lesson form is recorded. */
    constructor Init(tdp: Plate, sk: SiKe)
      ensures tianDiPan == tdp && siKe == sk
      ensures Current() == Transmission(Zi, Zi, Zi) && keShi == []
    {
      tianDiPan := tdp;
      siKe := sk;
      chuChuan, zhongChuan, moChuan := Zi, Zi, Zi;
      keShi := [];
    }

    /** The pattern every method repeats: the initial transmission `chu`, the
      * middle one over it, the final one over the middle one. */
    method Take(chu: Branch)
      requires ValidPlate(tianDiPan)
      modifies this
      ensures Current() == Chained(tianDiPan, chu) && keShi == old(keShi)
    {
      chuChuan := chu;
      zhongChuan := At(tianDiPan, chuChuan);
      moChuan := At(tianDiPan, zhongChuan);
    }

    /** `zei_ke`. */
    method ZeiKe() returns (ok: bool)
      requires ValidPlate(tianDiPan)
      modifies this
      ensures ok == S.ZeiKe(tianDiPan, siKe).Some?
      ensures ok ==> Current() == S.ZeiKe(tianDiPan, siKe).value.t
                     && keShi == old(keShi) + S.ZeiKe(tianDiPan, siKe).value.labels
      ensures !ok ==> Current() == old(Current()) && keShi == old(keShi)
    {
      var conquerors := HaveConquerors(siKe);
      if |conquerors| > 0 {
        if |conquerors| == 1 {
          Take(conquerors[0].upper);
          keShi := keShi + [ChongShen];
        } else {
          BiYong(conquerors);
        }
        return true;
      }
      var overcomes := HaveOvercomes(siKe);
      if |overcomes| > 0 {
        if |overcomes| == 1 {
          Take(overcomes[0].upper);
          keShi := keShi + [YuanShou];
        } else {
          BiYong(overcomes);
        }
        return true;
      }
      return false;
    }

    /** `bi_yong`. */
    method BiYong(lessons: seq<Lesson>)
      requires ValidPlate(tianDiPan)
      modifies this
      ensures Current() == S.BiYong(tianDiPan, siKe, lessons).t
      ensures keShi == old(keShi) + S.BiYong(tianDiPan, siKe, lessons).labels
    {
      var dayGan := if siKe.first.isGanZhi then siKe.first.gan else Jia;
      var dayGanYang := IsYangStem(dayGan);
      var result: seq<Lesson> := [];
      for i := 0 to |lessons|
        invariant result == WithParity(lessons[..i], dayGanYang)
      {
        assert lessons[..i + 1][..i] == lessons[..i];
        if IsYangBranch(lessons[i].upper) == dayGanYang {
          result := result + [lessons[i]];
        }
      }
      assert lessons[..|lessons|] == lessons;
      if |result| == 1 {
        Take(result[0].upper);
        keShi := keShi + [BiYongMark, ZhiYi];
      } else if |result| == 0 {
        SheHai(lessons);
      } else {
        SheHai(result);
      }
    }

    /** `she_hai`: the deepest-harmed lessons, and the three ways of breaking
      * a tie. */
    method SheHai(lessons: seq<Lesson>)
      requires ValidPlate(tianDiPan)
      modifies this
      ensures Current() == S.SheHai(tianDiPan, siKe, lessons).t
      ensures keShi == old(keShi) + S.SheHai(tianDiPan, siKe, lessons).labels
    {
      var maxHarm := DeepestLessons(tianDiPan, lessons);
      ghost var spec := S.SheHai(tianDiPan, siKe, lessons);
      var chu: Branch;
      var form: Label;
      if |maxHarm| == 1 {
        chu, form := maxHarm[0].upper, SheHaiGua;
      } else {
        var meng := FindOver(tianDiPan, maxHarm, true);
        if meng.Some? {
          chu, form := meng.value.upper, JianJi;
        } else {
          var zhong := FindOver(tianDiPan, maxHarm, false);
          if zhong.Some? {
            chu, form := zhong.value.upper, ChaWei;
          } else {
            chu := if LessonIsYang(siKe.first) then siKe.ganYangShen else siKe.zhiYangShen;
            form := FuDeng;
          }
        }
      }
      assert spec == Step(Chained(tianDiPan, chu), [SheHaiMark, form]);
      Take(chu);
      keShi := keShi + [SheHaiMark, form];
    }

    /** `yao_ke`. */
    method YaoKe() returns (ok: bool)
      requires ValidPlate(tianDiPan)
      modifies this
      ensures ok == S.YaoKe(tianDiPan, siKe).Some?
      ensures ok ==> Current() == S.YaoKe(tianDiPan, siKe).value.t
                     && keShi == old(keShi) + S.YaoKe(tianDiPan, siKe).value.labels
      ensures !ok ==> Current() == old(Current()) && keShi == old(keShi)
    {
      var baZhuan := CheckBaZhuanDay(siKe.first);
      if baZhuan {
        return false;
      }
      var overcomes := DistantLessons(siKe);
      if |overcomes| == 0 {
        return false;
      }
      overcomes := RemoveDuplicateLessons(overcomes);
      ghost var spec := S.YaoKe(tianDiPan, siKe).value;
      if |overcomes| == 1 {
        Take(overcomes[0].upper);
        keShi := keShi + [YaoKeGua];
      } else {
        ghost var before := keShi;
        keShi := keShi + [YaoKeGua];
        BiYong(overcomes);
        AppendAssoc(before, [YaoKeGua], S.BiYong(tianDiPan, siKe, overcomes).labels);
      }
      return true;
    }

    /** `ang_xing`. */
    method AngXing() returns (ok: bool)
      requires ValidPlate(tianDiPan)
      modifies this
      ensures ok == S.AngXing(tianDiPan, siKe).Some?
      ensures ok ==> Current() == S.AngXing(tianDiPan, siKe).value.t
                     && keShi == old(keShi) + S.AngXing(tianDiPan, siKe).value.labels
      ensures !ok ==> Current() == old(Current()) && keShi == old(keShi)
    {
      var allLessons := RemoveDuplicateLessons(Lessons(siKe));
      if |allLessons| != 4 {
        return false;
      }
      if LessonIsYang(siKe.first) {
        chuChuan := At(tianDiPan, You);
        zhongChuan := siKe.zhiYangShen;
        moChuan := siKe.ganYangShen;
        keShi := keShi + [HuShi];
      } else {
        chuChuan := Lin(tianDiPan, You);
        zhongChuan := siKe.ganYangShen;
        moChuan := siKe.zhiYangShen;
        keShi := keShi + [DongShe];
      }
      return true;
    }

    /** `bie_ze`. */
    method BieZe() returns (ok: bool)
      requires ValidPlate(tianDiPan)
      modifies this
      ensures ok == S.BieZe(tianDiPan, siKe).Some?
      ensures ok ==> Current() == S.BieZe(tianDiPan, siKe).value.t
                     && keShi == old(keShi) + S.BieZe(tianDiPan, siKe).value.labels
      ensures !ok ==> Current() == old(Current()) && keShi == old(keShi)
    {
      var allLessons := RemoveDuplicateLessons(Lessons(siKe));
      if |allLessons| == 4 {
        return false;
      }
      if |allLessons| != 3 {
        return false;
      }
      if siKe.first.isGanZhi && LessonIsYang(siKe.first) {
        var targetGan := AddS(siKe.first.gan, 5);
        chuChuan := At(tianDiPan, JiGong(targetGan));
      } else {
        chuChuan := AddB(siKe.fourth.upper, 4);
      }
      zhongChuan := siKe.ganYangShen;
      moChuan := zhongChuan;
      keShi := keShi + [BieZeGua];
      return true;
    }

    /** `ba_zhuan`. */
    method BaZhuan() returns (ok: bool)
      requires ValidPlate(tianDiPan)
      modifies this
      ensures ok == S.BaZhuan(tianDiPan, siKe).Some?
      ensures ok ==> Current() == S.BaZhuan(tianDiPan, siKe).value.t
                     && keShi == old(keShi) + S.BaZhuan(tianDiPan, siKe).value.labels
      ensures !ok ==> Current() == old(Current()) && keShi == old(keShi)
    {
      var baZhuan := CheckBaZhuanDay(siKe.first);
      if !baZhuan {
        return false;
      }
      if LessonIsYang(siKe.first) {
        chuChuan := AddB(siKe.ganYangShen, 2);
      } else {
        var zhiYinShen := AddB(siKe.fourth.upper, 6);
        chuChuan := AddB(zhiYinShen, -2);
      }
      zhongChuan := siKe.ganYangShen;
      moChuan := siKe.ganYangShen;
      keShi := keShi + [BaZhuanGua];
      return true;
    }

    /** `fu_yin`, with its punishment searches. */
    method FuYin() returns (ok: bool)
      requires ValidPlate(tianDiPan)
      modifies this
      ensures ok == S.FuYin(tianDiPan, siKe).Some?
      ensures ok ==> Current() == S.FuYin(tianDiPan, siKe).value.t
                     && keShi == old(keShi) + S.FuYin(tianDiPan, siKe).value.labels
      ensures !ok ==> Current() == old(Current()) && keShi == old(keShi)
    {
      if !siKe.first.isGanZhi {
        return false;
      }
      var yang := LessonIsYang(siKe.first);
      if siKe.first.gan == Gui {
        chuChuan := At(tianDiPan, Chou);
        zhongChuan := Xu;
        moChuan := Wei;
        keShi := keShi + [if yang then ZiRenGui else ZiXinGui];
      } else if siKe.first.gan == Yi {
        chuChuan := Chen;
        zhongChuan := siKe.zhiYangShen;
        moChuan := FirstPunished(zhongChuan);
        if moChuan == zhongChuan {
          moChuan := AddB(zhongChuan, 6);
        }
        keShi := keShi + [if yang then ZiRenYi else ZiXinYi];
      } else {
        chuChuan := if yang then siKe.ganYangShen else siKe.zhiYangShen;
        zhongChuan := FirstPunished(chuChuan);
        if zhongChuan == chuChuan {
          zhongChuan := if yang then siKe.zhiYangShen else siKe.ganYangShen;
        }
        moChuan := FirstPunished(zhongChuan);
        if moChuan == zhongChuan {
          moChuan := AddB(zhongChuan, 6);
        }
        keShi := keShi + [if yang then ZiRenGang else ZiXinRou];
      }
      return true;
    }

    /** `fan_yin`: `zei_ke`, or else the clash of the fourth lesson's meng
      * branch. */
    method FanYin()
      requires ValidPlate(tianDiPan)
      modifies this
      ensures Current() == S.FanYin(tianDiPan, siKe).t
      ensures keShi == old(keShi) + S.FanYin(tianDiPan, siKe).labels
    {
      var ok := ZeiKe();
      if ok {
        return;
      }
      var found, branch := FindMeng(siKe.fourth.upper);
      if found {
        chuChuan := AddB(branch, 6);
      }
      zhongChuan := siKe.zhiYangShen;
      moChuan := siKe.ganYangShen;
      keShi := keShi + [WuYi];
    }

    /** The chain of the C++ constructor for a plate that is neither fu yin
      * nor fan yin: `zei_ke`, and when it throws the nested `catch` blocks. */
    method Chain() returns (ok: bool, family: Label)
      requires ValidPlate(tianDiPan) && keShi == []
      modifies this
      ensures ok == S.Chain(tianDiPan, siKe).Some?
      ensures ok ==> Current() == S.Chain(tianDiPan, siKe).value.t
                     && [family] + keShi == S.Chain(tianDiPan, siKe).value.labels
    {
      family := ZeiKeMethod;
      ok := ZeiKe();
      if ok {
        ghost var step := S.ZeiKe(tianDiPan, siKe).value;
        assert [] + step.labels == step.labels;
        assert S.Chain(tianDiPan, siKe) == Some(WithMethod(ZeiKeMethod, step));
      } else {
        assert S.Chain(tianDiPan, siKe) == S.ChainFromYaoKe(tianDiPan, siKe);
        ok, family := ChainFromYaoKe();
      }
    }

    /** The `catch` block after `zei_ke`: `yao_ke`, then on. */
    method ChainFromYaoKe() returns (ok: bool, family: Label)
      requires ValidPlate(tianDiPan) && keShi == []
      modifies this
      ensures ok == S.ChainFromYaoKe(tianDiPan, siKe).Some?
      ensures ok ==> Current() == S.ChainFromYaoKe(tianDiPan, siKe).value.t
                     && [family] + keShi == S.ChainFromYaoKe(tianDiPan, siKe).value.labels
    {
      family := YaoKeMethod;
      ok := YaoKe();
      if ok {
        ghost var step := S.YaoKe(tianDiPan, siKe).value;
        assert [] + step.labels == step.labels;
        assert S.ChainFromYaoKe(tianDiPan, siKe) == Some(WithMethod(YaoKeMethod, step));
      } else {
        assert S.ChainFromYaoKe(tianDiPan, siKe) == S.ChainFromAngXing(tianDiPan, siKe);
        ok, family := ChainFromAngXing();
      }
    }

    /** The `catch` block after `yao_ke`: `ang_xing`, then on. */
    method ChainFromAngXing() returns (ok: bool, family: Label)
      requires ValidPlate(tianDiPan) && keShi == []
      modifies this
      ensures ok == S.ChainFromAngXing(tianDiPan, siKe).Some?
      ensures ok ==> Current() == S.ChainFromAngXing(tianDiPan, siKe).value.t
                     && [family] + keShi == S.ChainFromAngXing(tianDiPan, siKe).value.labels
    {
      family := AngXingMethod;
      ok := AngXing();
      if ok {
        ghost var step := S.AngXing(tianDiPan, siKe).value;
        assert [] + step.labels == step.labels;
        assert S.ChainFromAngXing(tianDiPan, siKe) == Some(WithMethod(AngXingMethod, step));
      } else {
        assert S.ChainFromAngXing(tianDiPan, siKe) == S.ChainFromBieZe(tianDiPan, siKe);
        ok, family := ChainFromBieZe();
      }
    }

    /** The `catch` block after `ang_xing`: `bie_ze`, then `ba_zhuan`. */
    method ChainFromBieZe() returns (ok: bool, family: Label)
      requires ValidPlate(tianDiPan) && keShi == []
      modifies this
      ensures ok == S.ChainFromBieZe(tianDiPan, siKe).Some?
      ensures ok ==> Current() == S.ChainFromBieZe(tianDiPan, siKe).value.t
                     && [family] + keShi == S.ChainFromBieZe(tianDiPan, siKe).value.labels
    {
      family := BieZeMethod;
      ok := BieZe();
      if ok {
        ghost var step := S.BieZe(tianDiPan, siKe).value;
        assert [] + step.labels == step.labels;
        assert S.ChainFromBieZe(tianDiPan, siKe) == Some(WithMethod(BieZeMethod, step));
      } else {
        assert S.ChainFromBieZe(tianDiPan, siKe) == Attempt(BaZhuanMethod, S.BaZhuan(tianDiPan, siKe), None);
        family := BaZhuanMethod;
        ok := BaZhuan();
        if ok {
          ghost var step := S.BaZhuan(tianDiPan, siKe).value;
          assert [] + step.labels == step.labels;
        }
      }
    }

    /** The body of the C++ constructor: the plate tests, then the chain, and
      * the family name put in front of the recorded lesson forms. */
    method Run() returns (ok: bool)
      requires ValidPlate(tianDiPan) && keShi == []
      modifies this
      ensures ok == Solve(tianDiPan, siKe).Some?
      ensures ok ==> Current() == Solve(tianDiPan, siKe).value.t
                     && keShi == Solve(tianDiPan, siKe).value.labels
    {
      var family: Label;
      var fuYin := CheckFuYinPlate(tianDiPan);
      if fuYin {
        family := FuYinMethod;
        ok := FuYin();
        if ok {
          ghost var step := S.FuYin(tianDiPan, siKe).value;
          assert [] + step.labels == step.labels;
          assert Solve(tianDiPan, siKe) == Some(WithMethod(FuYinMethod, step));
        } else {
          assert Solve(tianDiPan, siKe) == None;
        }
      } else {
        var fanYin := CheckFanYinPlate(tianDiPan);
        if fanYin {
          family := FanYinMethod;
          FanYin();
          ok := true;
          ghost var step := S.FanYin(tianDiPan, siKe);
          assert [] + step.labels == step.labels;
          assert Solve(tianDiPan, siKe) == Some(WithMethod(FanYinMethod, step));
        } else {
          assert Solve(tianDiPan, siKe) == S.Chain(tianDiPan, siKe);
          ok, family := Chain();
        }
      }
      if ok {
        keShi := [family] + keShi;
      }
    }
  }

  /** `SanChuan(tdp, sk)`: `None` where the C++ constructor throws, because
    * the fu yin plate's first lesson is not a stem lesson or because no
    * method of the chain applies. */
  method NewSanChuan(tdp: Plate, sk: SiKe) returns (r: Option<SanChuan>)
    requires ValidPlate(tdp)
    ensures r.None? <==> Solve(tdp, sk).None?
    ensures r.Some? ==> fresh(r.value) && r.value.tianDiPan == tdp && r.value.siKe == sk
                        && r.value.Current() == Solve(tdp, sk).value.t
                        && r.value.keShi == Solve(tdp, sk).value.labels
  {
    var sc := new SanChuan.Init(tdp, sk);
    var ok := sc.Run();
    r := if ok then Some(sc) else None;
  }
}
