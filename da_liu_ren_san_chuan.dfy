/** The Three Transmissions (SanChuan) of Da Liu Ren, src/da_liu_ren/da_liu_ren.cpp.
  *
  * The C++ class tries its methods in a fixed order; a method that does not
  * apply throws and the constructor catches it and tries the next one. Here
  * each method has a specification function returning `Option<Step>` (`None`
  * where the C++ throws), and the class `SanChuan` runs the same chain on its
  * fields, each of its methods proved to do what its specification says. */
module LiuRenSanChuan {
  import opened GanZhi
  import opened Wrappers
  import opened LiuRenPlate

  /** The entries pushed onto `ke_shi_`: the names of the lesson forms and, at
    * the front, the name of the method family (jiu zong men). */
  datatype Label =
    | ChongShen   // 重审卦
    | YuanShou    // 元首卦
    | BiYongMark  // 比用
    | ZhiYi       // 知一卦
    | SheHaiMark  // 涉害
    | SheHaiGua   // 涉害卦
    | JianJi      // 见机卦
    | ChaWei      // 察微卦
    | FuDeng      // 复等卦
    | YaoKeGua    // 遥克卦
    | HuShi       // 虎视卦
    | DongShe     // 冬蛇掩目
    | BieZeGua    // 别责卦
    | BaZhuanGua  // 八专卦
    | ZiRenGui    // 自任卦-伏吟-六癸日
    | ZiXinGui    // 自信卦-伏吟-六癸日
    | ZiRenYi     // 自任卦-伏吟-六乙日
    | ZiXinYi     // 自信卦-伏吟-六乙日
    | ZiRenGang   // 自任卦-伏吟-刚日
    | ZiXinRou    // 自信卦-伏吟-柔日
    | WuYi        // 无依卦
    | FuYinMethod     // 伏吟
    | FanYinMethod    // 返吟
    | ZeiKeMethod     // 贼克
    | YaoKeMethod     // 遥克
    | AngXingMethod   // 昴星
    | BieZeMethod     // 别责
    | BaZhuanMethod   // 八专

  datatype Transmission = Transmission(chu: Branch, zhong: Branch, mo: Branch)

  /** What a method that applies produces: the transmissions and the labels it
    * pushes onto `ke_shi_`, in order. */
  datatype Step = Step(t: Transmission, labels: seq<Label>)

  /** The initial transmission, with the middle and final ones read off the
    * plate: middle = tdp[initial], final = tdp[middle]. */
  function Chained(p: Plate, chu: Branch): (t: Transmission)
    requires ValidPlate(p)
    ensures IsChained(p, t) && t.chu == chu
  {
    Transmission(chu, At(p, chu), At(p, At(p, chu)))
  }

  predicate IsChained(p: Plate, t: Transmission)
    requires ValidPlate(p)
  {
    t.zhong == At(p, t.chu) && t.mo == At(p, t.zhong)
  }

  // ---------------------------------------------------------------- dedup --

  /** The key by which `remove_duplicate_lessons` tells lessons apart: the stem
    * of a stem lesson, the lower branch of a branch lesson. */
  datatype Key = GanKey(g: Stem) | ZhiKey(z: Branch)

  function KeyOf(l: Lesson): Key
  {
    if l.isGanZhi then GanKey(l.gan) else ZhiKey(l.lowerZhi)
  }

  function Keys(s: seq<Lesson>): (ks: seq<Key>)
    ensures |ks| == |s| && forall i :: 0 <= i < |s| ==> ks[i] == KeyOf(s[i])
  {
    seq(|s|, i requires 0 <= i < |s| => KeyOf(s[i]))
  }

  lemma KeysAppend(s: seq<Lesson>, l: Lesson)
    ensures Keys(s + [l]) == Keys(s) + [KeyOf(l)]
  {
  }

  /** `remove_duplicate_lessons`: the lessons in order, each kept only when no
    * earlier lesson has the same key. */
  function Dedup(s: seq<Lesson>): (r: seq<Lesson>)
    ensures |r| <= |s|
  {
    if s == [] then []
    else
      var prev := Dedup(s[..|s| - 1]);
      if KeyOf(s[|s| - 1]) in Keys(prev) then prev else prev + [s[|s| - 1]]
  }

  /** The positions of `s` whose lessons `Dedup` keeps. */
  function DedupIndices(s: seq<Lesson>): seq<nat>
  {
    if s == [] then []
    else
      var prev := DedupIndices(s[..|s| - 1]);
      if KeyOf(s[|s| - 1]) in Keys(Dedup(s[..|s| - 1])) then prev else prev + [|s| - 1]
  }

  /** Position `i` holds the first lesson of `s` with its key. */
  predicate FirstOfKey(s: seq<Lesson>, i: nat)
    requires i < |s|
  {
    forall j :: 0 <= j < i ==> KeyOf(s[j]) != KeyOf(s[i])
  }

  /** Every key of the input survives `Dedup`. */
  lemma {:induction false} DedupCoversKeys(s: seq<Lesson>)
    ensures forall i :: 0 <= i < |s| ==> KeyOf(s[i]) in Keys(Dedup(s))
  {
    if s != [] {
      var n := |s| - 1;
      var init := s[..n];
      DedupCoversKeys(init);
      var prev := Dedup(init);
      forall i | 0 <= i < |s|
        ensures KeyOf(s[i]) in Keys(Dedup(s))
      {
        if i < n {
          assert s[i] == init[i];
          var k :| 0 <= k < |prev| && Keys(prev)[k] == KeyOf(s[i]);
          assert Keys(Dedup(s))[k] == KeyOf(s[i]);
        } else if KeyOf(s[n]) !in Keys(prev) {
          assert Keys(Dedup(s))[|prev|] == KeyOf(s[n]);
        }
      }
    }
  }

  /** `Dedup(s)` is `s` read at the positions `DedupIndices(s)`, which ascend. */
  lemma {:induction false} DedupIndicesShape(s: seq<Lesson>)
    ensures var r, idx := Dedup(s), DedupIndices(s);
            |idx| == |r|
            && (forall k :: 0 <= k < |idx| ==> idx[k] < |s| && r[k] == s[idx[k]])
            && (forall a, b :: 0 <= a < b < |idx| ==> idx[a] < idx[b])
  {
    if s != [] {
      var n := |s| - 1;
      var init := s[..n];
      DedupIndicesShape(init);
      assert forall k :: 0 <= k < n ==> init[k] == s[k];
    }
  }

  /** The last lesson is dropped exactly when an earlier one has its key. */
  lemma LastKept(s: seq<Lesson>)
    requires s != []
    ensures KeyOf(s[|s| - 1]) in Keys(Dedup(s[..|s| - 1])) <==> !FirstOfKey(s, |s| - 1)
  {
    var n := |s| - 1;
    var init := s[..n];
    var prev := Dedup(init);
    DedupIndicesShape(init);
    DedupCoversKeys(init);
    if KeyOf(s[n]) in Keys(prev) {
      var k :| 0 <= k < |prev| && Keys(prev)[k] == KeyOf(s[n]);
      var pidx := DedupIndices(init);
      assert s[pidx[k]] == prev[k];
    }
    if !FirstOfKey(s, n) {
      var j :| 0 <= j < n && KeyOf(s[j]) == KeyOf(s[n]);
      assert init[j] == s[j];
    }
  }

  /** `Dedup` keeps exactly the first lesson of every key, in input order. */
  lemma {:induction false} DedupKeepsFirsts(s: seq<Lesson>)
    ensures forall k :: 0 <= k < |DedupIndices(s)| ==>
              DedupIndices(s)[k] < |s| && FirstOfKey(s, DedupIndices(s)[k])
    ensures forall i :: 0 <= i < |s| && FirstOfKey(s, i) ==> i in DedupIndices(s)
  {
    DedupIndicesShape(s);
    if s != [] {
      var n := |s| - 1;
      var init := s[..n];
      DedupKeepsFirsts(init);
      LastKept(s);
      var pidx := DedupIndices(init);
      forall k | 0 <= k < |pidx|
        ensures pidx[k] < n && FirstOfKey(s, pidx[k])
      {
        assert pidx[k] < n && FirstOfKey(init, pidx[k]);
        assert forall j :: 0 <= j <= pidx[k] ==> init[j] == s[j];
      }
      forall i | 0 <= i < n && FirstOfKey(s, i)
        ensures i in pidx
      {
        assert forall j :: 0 <= j <= i ==> init[j] == s[j];
        assert FirstOfKey(init, i);
      }
    }
  }

  /** The keys `Dedup` keeps are pairwise distinct. */
  lemma DedupDistinct(s: seq<Lesson>)
    ensures forall a, b :: 0 <= a < b < |Dedup(s)| ==> KeyOf(Dedup(s)[a]) != KeyOf(Dedup(s)[b])
  {
    DedupKeepsFirsts(s);
    DedupIndicesShape(s);
    var idx := DedupIndices(s);
    var r := Dedup(s);
    forall a, b | 0 <= a < b < |r|
      ensures KeyOf(r[a]) != KeyOf(r[b])
    {
      assert idx[a] < idx[b] && FirstOfKey(s, idx[b]);
    }
  }

  /** A list whose keys are already distinct is left unchanged. */
  lemma {:induction false} DedupOfDistinct(s: seq<Lesson>)
    requires forall a, b :: 0 <= a < b < |s| ==> KeyOf(s[a]) != KeyOf(s[b])
    ensures Dedup(s) == s
  {
    if s != [] {
      var n := |s| - 1;
      var init := s[..n];
      DedupOfDistinct(init);
      if KeyOf(s[n]) in Keys(init) {
        assert false;
      }
      assert s == init + [s[n]];
    }
  }

  /** Removing duplicates twice is removing them once. */
  lemma DedupIdempotent(s: seq<Lesson>)
    ensures Dedup(Dedup(s)) == Dedup(s)
  {
    DedupDistinct(s);
    DedupOfDistinct(Dedup(s));
  }

  /** `Dedup` only keeps lessons of its input. */
  lemma DedupSubset(s: seq<Lesson>)
    ensures forall l <- Dedup(s) :: l in s
  {
    DedupIndicesShape(s);
    var r, idx := Dedup(s), DedupIndices(s);
    forall l | l in r
      ensures l in s
    {
      var k :| 0 <= k < |r| && r[k] == l;
      assert s[idx[k]] == l;
    }
  }

  /** `remove_duplicate_lessons`, with its search lists of stems and branches
    * already seen. */
  method RemoveDuplicateLessons(lessons: seq<Lesson>) returns (result: seq<Lesson>)
    ensures result == Dedup(lessons)
  {
    result := [];
    var ganList: seq<Stem> := [];
    var zhiList: seq<Branch> := [];
    for i := 0 to |lessons|
      invariant result == Dedup(lessons[..i])
      invariant forall g: Stem :: g in ganList <==> GanKey(g) in Keys(result)
      invariant forall z: Branch :: z in zhiList <==> ZhiKey(z) in Keys(result)
    {
      var lesson := lessons[i];
      assert lessons[..i + 1][..i] == lessons[..i];
      if lesson.isGanZhi {
        if lesson.gan !in ganList {
          ganList := ganList + [lesson.gan];
          KeysAppend(result, lesson);
          result := result + [lesson];
        }
      } else {
        if lesson.lowerZhi !in zhiList {
          zhiList := zhiList + [lesson.lowerZhi];
          KeysAppend(result, lesson);
          result := result + [lesson];
        }
      }
    }
    assert lessons[..|lessons|] == lessons;
  }

  // -------------------------------------------------- conquering lessons --

  /** The Heaven branch overcomes the lesson's own element (a "thief"). */
  predicate IsConqueror(l: Lesson) { Ke(BranchElement(l.upper), LessonElement(l)) }

  /** The lesson's own element overcomes its Heaven branch. */
  predicate IsOvercome(l: Lesson) { Ke(LessonElement(l), BranchElement(l.upper)) }

  /** The conquering lessons of `s`, in order. */
  function Conquering(s: seq<Lesson>): seq<Lesson>
  {
    if s == [] then []
    else Conquering(s[..|s| - 1]) + (if IsConqueror(s[|s| - 1]) then [s[|s| - 1]] else [])
  }

  lemma {:induction false} ConqueringMembers(s: seq<Lesson>)
    ensures forall l :: l in Conquering(s) <==> l in s && IsConqueror(l)
  {
    if s != [] {
      ConqueringMembers(s[..|s| - 1]);
      assert s == s[..|s| - 1] + [s[|s| - 1]];
    }
  }

  /** The overcoming lessons of `s`, in order. */
  function Overcoming(s: seq<Lesson>): seq<Lesson>
  {
    if s == [] then []
    else Overcoming(s[..|s| - 1]) + (if IsOvercome(s[|s| - 1]) then [s[|s| - 1]] else [])
  }

  lemma {:induction false} OvercomingMembers(s: seq<Lesson>)
    ensures forall l :: l in Overcoming(s) <==> l in s && IsOvercome(l)
  {
    if s != [] {
      OvercomingMembers(s[..|s| - 1]);
      assert s == s[..|s| - 1] + [s[|s| - 1]];
    }
  }

  /** `have_conquerors`. */
  function Conquerors(sk: SiKe): seq<Lesson>
  {
    Dedup(Conquering(Lessons(sk)))
  }

  /** `have_overcomes`. */
  function Overcomes(sk: SiKe): seq<Lesson>
  {
    Dedup(Overcoming(Lessons(sk)))
  }

  method HaveConquerors(sk: SiKe) returns (result: seq<Lesson>)
    ensures result == Conquerors(sk)
    ensures forall l <- result :: l in Lessons(sk) && IsConqueror(l)
  {
    var lessons := Lessons(sk);
    var found: seq<Lesson> := [];
    for i := 0 to 4
      invariant found == Conquering(lessons[..i])
    {
      assert lessons[..i + 1][..i] == lessons[..i];
      if IsConqueror(lessons[i]) {
        found := found + [lessons[i]];
      }
    }
    assert lessons[..4] == lessons;
    result := RemoveDuplicateLessons(found);
    DedupSubset(found);
    ConqueringMembers(lessons);
  }

  method HaveOvercomes(sk: SiKe) returns (result: seq<Lesson>)
    ensures result == Overcomes(sk)
    ensures forall l <- result :: l in Lessons(sk) && IsOvercome(l)
  {
    var lessons := Lessons(sk);
    var found: seq<Lesson> := [];
    for i := 0 to 4
      invariant found == Overcoming(lessons[..i])
    {
      assert lessons[..i + 1][..i] == lessons[..i];
      if IsOvercome(lessons[i]) {
        found := found + [lessons[i]];
      }
    }
    assert lessons[..4] == lessons;
    result := RemoveDuplicateLessons(found);
    DedupSubset(found);
    OvercomingMembers(lessons);
  }

  // ---------------------------------------------------------- deep harm --

  /** How many of `stems` overcome `e` (or, with `ofThief` false, are overcome by it). */
  function StemHits(stems: seq<Stem>, e: Element, ofThief: bool): (n: nat)
    ensures n <= |stems|
  {
    if stems == [] then 0
    else StemHits(stems[..|stems| - 1], e, ofThief)
         + (if (if ofThief then Ke(StemElement(stems[|stems| - 1]), e)
                else Ke(e, StemElement(stems[|stems| - 1]))) then 1 else 0)
  }

  /** Counting one more stem adds its hit, if any, to the count so far. */
  lemma StemHitsStep(stems: seq<Stem>, e: Element, ofThief: bool, k: nat)
    requires k < |stems|
    ensures StemHits(stems[..k + 1], e, ofThief)
            == StemHits(stems[..k], e, ofThief)
               + (if (if ofThief then Ke(StemElement(stems[k]), e) else Ke(e, StemElement(stems[k]))) then 1 else 0)
  {
    assert stems[..k + 1][..k] == stems[..k];
  }

  /** The harm one Earth position `b` adds on the walk of lesson `l`: the branch
    * itself, and each stem lodged in it, that overcomes the lesson's element (for
    * a thief) or that the lesson's element overcomes (otherwise). */
  function StepHarm(l: Lesson, b: Branch): (n: nat)
    ensures n <= 3
  {
    var e := LessonElement(l);
    var thief := IsConqueror(l);
    (if (if thief then Ke(BranchElement(b), e) else Ke(e, BranchElement(b))) then 1 else 0)
    + StemHits(JiGan(b), e, thief)
  }

  /** The walk of `she_hai` for lesson `l`, at Earth position `b` with
    * `steps` of its twelve steps left: it stops on reaching the position of
    * the lesson's upper branch. */
  function WalkFrom(l: Lesson, b: Branch, steps: nat): nat
    decreases steps
  {
    if steps == 0 || b == l.upper then 0
    else StepHarm(l, b) + WalkFrom(l, AddB(b, 1), steps - 1)
  }

  /** The harm depth of a lesson in `she_hai`: the walk from the Earth
    * position under its upper branch. */
  function HarmDepth(p: Plate, l: Lesson): nat
    requires ValidPlate(p)
  {
    WalkFrom(l, Lin(p, l.upper), 12)
  }

  /** Reference definition: the harm gathered on the first `n` positions of a
    * walk from `start`. */
  function WalkHarm(l: Lesson, start: Branch, n: nat): nat
    decreases n
  {
    if n == 0 then 0 else StepHarm(l, start) + WalkHarm(l, AddB(start, 1), n - 1)
  }

  /** The number of steps from the Earth position `lin(upper)` forward to the
    * position `upper` itself. */
  function WalkLength(p: Plate, l: Lesson): (n: nat)
    requires ValidPlate(p)
    ensures n < 12 && AddB(Lin(p, l.upper), n) == l.upper
    ensures forall i :: 0 <= i < n ==> AddB(Lin(p, l.upper), i) != l.upper
  {
    (l.upper - Lin(p, l.upper)) % 12
  }

  /** A walk that first reaches the upper branch after `m` steps gathers the
    * harm of exactly those `m` positions. */
  lemma {:induction false} WalkFromStops(l: Lesson, b: Branch, steps: nat, m: nat)
    requires m <= steps && (m < steps ==> AddB(b, m) == l.upper)
    requires forall j :: 0 <= j < m ==> AddB(b, j) != l.upper
    ensures WalkFrom(l, b, steps) == WalkHarm(l, b, m)
    decreases m
  {
    if m > 0 {
      assert AddB(b, 0) == b;
      var next := AddB(b, 1);
      forall j | 0 <= j < m - 1
        ensures AddB(next, j) != l.upper
      {
        AddBAdd(b, 1, j);
      }
      AddBAdd(b, 1, m - 1);
      WalkFromStops(l, next, steps - 1, m - 1);
    } else if steps > 0 {
      assert AddB(b, 0) == b;
    }
  }

  /** The harm depth is the harm of the positions strictly before the upper
    * branch on the walk from `lin(upper)`; in particular it is 0 when the
    * upper branch stands over itself. */
  lemma HarmDepthIsWalk(p: Plate, l: Lesson)
    requires ValidPlate(p)
    ensures HarmDepth(p, l) == WalkHarm(l, Lin(p, l.upper), WalkLength(p, l))
    ensures Lin(p, l.upper) == l.upper ==> HarmDepth(p, l) == 0
  {
    WalkFromStops(l, Lin(p, l.upper), 12, WalkLength(p, l));
  }

  /** The harm counted at one Earth position `b` of the walk of `lesson`: the
    * branch, then each stem lodged in it. */
  method PositionHarm(lesson: Lesson, b: Branch) returns (count: nat)
    ensures count == StepHarm(lesson, b)
  {
    var jiGanList := JiGan(b);
    var bWx := BranchElement(b);
    var lessonWx := LessonElement(lesson);
    var upperWx := BranchElement(lesson.upper);
    count := 0;
    if Ke(upperWx, lessonWx) {
      if Ke(bWx, lessonWx) {
        count := count + 1;
      }
      for k := 0 to |jiGanList|
        invariant count == (if Ke(bWx, lessonWx) then 1 else 0)
                           + StemHits(jiGanList[..k], lessonWx, true)
      {
        StemHitsStep(jiGanList, lessonWx, true, k);
        if Ke(StemElement(jiGanList[k]), lessonWx) {
          count := count + 1;
        }
      }
    } else {
      if Ke(lessonWx, bWx) {
        count := count + 1;
      }
      for k := 0 to |jiGanList|
        invariant count == (if Ke(lessonWx, bWx) then 1 else 0)
                           + StemHits(jiGanList[..k], lessonWx, false)
      {
        StemHitsStep(jiGanList, lessonWx, false, k);
        if Ke(lessonWx, StemElement(jiGanList[k])) {
          count := count + 1;
        }
      }
    }
    assert jiGanList[..|jiGanList|] == jiGanList;
  }

  /** One step of the walk: away from the upper branch, adding the harm `c`
    * of the position to the count keeps the count plus the rest of the walk
    * equal to the whole walk. */
  lemma WalkStep(l: Lesson, start: Branch, steps: nat, b: Branch, i: nat, count: nat, c: nat)
    requires i < steps && b != l.upper && c == StepHarm(l, b)
    requires count + WalkFrom(l, b, steps - i) == WalkFrom(l, start, steps)
    ensures count + c + WalkFrom(l, AddB(b, 1), steps - (i + 1)) == WalkFrom(l, start, steps)
  {
  }

  /** On the lesson's own upper branch the walk stops: the count is the whole
    * walk. */
  lemma WalkArrived(l: Lesson, start: Branch, steps: nat, b: Branch, i: nat, count: nat)
    requires i <= steps && (i == steps || b == l.upper)
    requires count + WalkFrom(l, b, steps - i) == WalkFrom(l, start, steps)
    ensures count == WalkFrom(l, start, steps)
  {
  }

  /** The loop of `she_hai` for one lesson: from `start`, at most `steps`
    * positions, stopping at the lesson's own upper branch and summing the harm
    * met at each position. */
  method Walk(lesson: Lesson, start: Branch, steps: nat) returns (count: nat)
    ensures count == WalkFrom(lesson, start, steps)
  {
    count := 0;
    var b := start;
    var i := 0;
    while i < steps && b != lesson.upper
      invariant 0 <= i <= steps
      invariant count + WalkFrom(lesson, b, steps - i) == WalkFrom(lesson, start, steps)
      decreases steps - i
    {
      var c := PositionHarm(lesson, b);
      WalkStep(lesson, start, steps, b, i, count, c);
      count, b, i := count + c, AddB(b, 1), i + 1;
    }
    WalkArrived(lesson, start, steps, b, i, count);
  }

  /** The walk of `she_hai` for one lesson: twelve steps from the Earth
    * position of its upper branch. */
  method ComputeHarmDepth(p: Plate, lesson: Lesson) returns (count: nat)
    requires ValidPlate(p)
    ensures count == HarmDepth(p, lesson)
  {
    count := Walk(lesson, Lin(p, lesson.upper), 12);
  }

  /** The harm depth of each lesson, in order. */
  function Depths(p: Plate, s: seq<Lesson>): (ds: seq<nat>)
    requires ValidPlate(p)
    ensures |ds| == |s| && forall i :: 0 <= i < |s| ==> ds[i] == HarmDepth(p, s[i])
  {
    seq(|s|, i requires 0 <= i < |s| => HarmDepth(p, s[i]))
  }

  /** The largest of `ds`, starting from 0. */
  function MaxOf(ds: seq<nat>): nat
  {
    if ds == [] then 0
    else
      var m0 := MaxOf(ds[..|ds| - 1]);
      if ds[|ds| - 1] > m0 then ds[|ds| - 1] else m0
  }

  /** `MaxOf` is the largest element: none exceeds it and, when there is an
    * element, one equals it. */
  lemma {:induction false} MaxOfIsMax(ds: seq<nat>)
    ensures forall i :: 0 <= i < |ds| ==> ds[i] <= MaxOf(ds)
    ensures ds != [] ==> exists i :: 0 <= i < |ds| && ds[i] == MaxOf(ds)
  {
    if ds != [] {
      var n := |ds| - 1;
      var init := ds[..n];
      MaxOfIsMax(init);
      assert forall i :: 0 <= i < n ==> ds[i] == init[i];
      if init != [] && ds[n] <= MaxOf(init) {
        var i :| 0 <= i < n && init[i] == MaxOf(init);
        assert ds[i] == MaxOf(ds);
      } else {
        assert ds[n] == MaxOf(ds);
      }
    }
  }

  /** The largest harm depth of the lessons, starting from 0. */
  function MaxDepth(p: Plate, s: seq<Lesson>): nat
    requires ValidPlate(p)
  {
    MaxOf(Depths(p, s))
  }

  /** `MaxDepth` is the largest depth: no lesson exceeds it and, when there is
    * a lesson, one reaches it. */
  lemma MaxDepthIsMax(p: Plate, s: seq<Lesson>)
    requires ValidPlate(p)
    ensures forall i :: 0 <= i < |s| ==> HarmDepth(p, s[i]) <= MaxDepth(p, s)
    ensures s != [] ==> exists i :: 0 <= i < |s| && HarmDepth(p, s[i]) == MaxDepth(p, s)
  {
    MaxOfIsMax(Depths(p, s));
  }

  /** The lessons whose harm depth is `m`, in order. */
  function AtDepth(p: Plate, s: seq<Lesson>, m: nat): seq<Lesson>
    requires ValidPlate(p)
  {
    if s == [] then []
    else AtDepth(p, s[..|s| - 1], m)
         + (if HarmDepth(p, s[|s| - 1]) == m then [s[|s| - 1]] else [])
  }

  lemma {:induction false} AtDepthMembers(p: Plate, s: seq<Lesson>, m: nat)
    requires ValidPlate(p)
    ensures forall l :: l in AtDepth(p, s, m) <==> l in s && HarmDepth(p, l) == m
  {
    if s != [] {
      var init := s[..|s| - 1];
      var last := s[|s| - 1];
      AtDepthMembers(p, init, m);
      assert s == init + [last];
      forall l
        ensures l in AtDepth(p, s, m) <==> l in s && HarmDepth(p, l) == m
      {
        assert l in s <==> l in init || l == last;
      }
    }
  }

  /** The first lesson whose upper branch stands over a meng (with `meng`) or
    * a zhong Earth position. */
  function FirstOver(p: Plate, s: seq<Lesson>, meng: bool): Option<Lesson>
    requires ValidPlate(p)
  {
    if s == [] then None
    else if StandsOver(p, s[0], meng) then Some(s[0])
    else FirstOver(p, s[1..], meng)
  }

  /** The upper branch of `l` stands over a meng (`meng`) or a zhong position. */
  predicate StandsOver(p: Plate, l: Lesson, meng: bool)
    requires ValidPlate(p)
  {
    if meng then IsMeng(Lin(p, l.upper)) else IsZhong(Lin(p, l.upper))
  }

  /** `FirstOver` finds a lesson of `s` that stands over the right class of
    * position, every lesson before it does not, and it fails only when none
    * does. */
  lemma FirstOverIsFirst(p: Plate, s: seq<Lesson>, meng: bool)
    requires ValidPlate(p)
    ensures FirstOver(p, s, meng).Some? ==>
              exists i :: 0 <= i < |s| && s[i] == FirstOver(p, s, meng).value && StandsOver(p, s[i], meng)
                          && forall j :: 0 <= j < i ==> !StandsOver(p, s[j], meng)
    ensures FirstOver(p, s, meng).None? <==> forall l <- s :: !StandsOver(p, l, meng)
  {
    FirstOverFound(p, s, meng);
    FirstOverNone(p, s, meng);
  }

  /** A lesson `FirstOver` finds stands over the right class of position and
    * no lesson before it does. */
  lemma {:induction false} FirstOverFound(p: Plate, s: seq<Lesson>, meng: bool)
    requires ValidPlate(p)
    ensures FirstOver(p, s, meng).Some? ==>
              exists i :: 0 <= i < |s| && s[i] == FirstOver(p, s, meng).value && StandsOver(p, s[i], meng)
                          && forall j :: 0 <= j < i ==> !StandsOver(p, s[j], meng)
  {
    if s != [] && !StandsOver(p, s[0], meng) {
      FirstOverFound(p, s[1..], meng);
      var r := FirstOver(p, s[1..], meng);
      if r.Some? {
        var i :| 0 <= i < |s[1..]| && s[1..][i] == r.value && StandsOver(p, s[1..][i], meng)
                && forall j :: 0 <= j < i ==> !StandsOver(p, s[1..][j], meng);
        assert s[i + 1] == r.value;
        forall j | 0 <= j < i + 1
          ensures !StandsOver(p, s[j], meng)
        {
          if j > 0 {
            assert s[j] == s[1..][j - 1];
          }
        }
      }
    }
  }

  /** `FirstOver` fails exactly when no lesson stands over the right class of
    * position. */
  lemma {:induction false} FirstOverNone(p: Plate, s: seq<Lesson>, meng: bool)
    requires ValidPlate(p)
    ensures FirstOver(p, s, meng).None? <==> forall l <- s :: !StandsOver(p, l, meng)
  {
    if s != [] {
      FirstOverNone(p, s[1..], meng);
      assert s == [s[0]] + s[1..];
      assert s[0] in s;
    }
  }

  /** `she_hai` (涉害): the deepest-harmed lesson gives the initial transmission;
    * ties go to the first one standing over a meng position, then over a zhong
    * one, and otherwise to the day's Yang Spirit. */
  function SheHai(p: Plate, sk: SiKe, s: seq<Lesson>): Step
    requires ValidPlate(p)
  {
    var tied := AtDepth(p, s, MaxDepth(p, s));
    if |tied| == 1 then Step(Chained(p, tied[0].upper), [SheHaiMark, SheHaiGua])
    else match FirstOver(p, tied, true)
      case Some(l) => Step(Chained(p, l.upper), [SheHaiMark, JianJi])
      case None =>
        match FirstOver(p, tied, false)
        case Some(l) => Step(Chained(p, l.upper), [SheHaiMark, ChaWei])
        case None =>
          Step(Chained(p, if LessonIsYang(sk.first) then sk.ganYangShen else sk.zhiYangShen),
               [SheHaiMark, FuDeng])
  }

  /** The depths of the first `i + 1` lessons extend those of the first `i`. */
  lemma DepthsPrefix(p: Plate, s: seq<Lesson>, i: nat)
    requires ValidPlate(p) && i < |s|
    ensures Depths(p, s)[..i + 1] == Depths(p, s)[..i] + [HarmDepth(p, s[i])]
  {
    PrefixAppend(Depths(p, s), i);
  }

  lemma PrefixAppend(s: seq<nat>, i: nat)
    requires i < |s|
    ensures s[..i + 1] == s[..i] + [s[i]]
  {
  }

  /** The first loop of `she_hai`: the harm depth of every lesson. */
  method HarmDepths(p: Plate, lessons: seq<Lesson>) returns (depths: seq<nat>)
    requires ValidPlate(p)
    ensures depths == Depths(p, lessons)
  {
    depths := [];
    for i := 0 to |lessons|
      invariant depths == Depths(p, lessons)[..i]
    {
      var count := ComputeHarmDepth(p, lessons[i]);
      DepthsPrefix(p, lessons, i);
      depths := depths + [count];
    }
    assert Depths(p, lessons)[..|lessons|] == Depths(p, lessons);
  }

  /** The second loop of `she_hai`: the largest of the harm depths. */
  method MaxHarmDepth(depths: seq<nat>) returns (maxDepth: nat)
    ensures maxDepth == MaxOf(depths)
  {
    maxDepth := 0;
    for i := 0 to |depths|
      invariant maxDepth == MaxOf(depths[..i])
    {
      assert depths[..i + 1][..i] == depths[..i];
      if depths[i] > maxDepth {
        maxDepth := depths[i];
      }
    }
    assert depths[..|depths|] == depths;
  }

  /** The third loop of `she_hai`: the lessons whose harm depth is `m`, in
    * order, read from the list of depths. */
  method LessonsAtDepth(p: Plate, lessons: seq<Lesson>, depths: seq<nat>, m: nat)
    returns (maxHarm: seq<Lesson>)
    requires ValidPlate(p)
    requires |depths| == |lessons|
    requires forall k :: 0 <= k < |lessons| ==> depths[k] == HarmDepth(p, lessons[k])
    ensures maxHarm == AtDepth(p, lessons, m)
  {
    maxHarm := [];
    for i := 0 to |lessons|
      invariant maxHarm == AtDepth(p, lessons[..i], m)
    {
      assert lessons[..i + 1][..i] == lessons[..i];
      if depths[i] == m {
        maxHarm := maxHarm + [lessons[i]];
      }
    }
    assert lessons[..|lessons|] == lessons;
  }

  /** The harm-depth loops of `she_hai`: every depth, their maximum, and the
    * lessons that reach it, in order. */
  method DeepestLessons(p: Plate, lessons: seq<Lesson>) returns (maxHarm: seq<Lesson>)
    requires ValidPlate(p)
    ensures maxHarm == AtDepth(p, lessons, MaxDepth(p, lessons))
  {
    var depths := HarmDepths(p, lessons);
    var maxDepth := MaxHarmDepth(depths);
    maxHarm := LessonsAtDepth(p, lessons, depths, maxDepth);
  }

  /** The tie-break searches of `she_hai`: the first lesson whose upper branch
    * stands over a meng (`meng`) or a zhong Earth position. */
  method FindOver(p: Plate, lessons: seq<Lesson>, meng: bool) returns (r: Option<Lesson>)
    requires ValidPlate(p)
    ensures r == FirstOver(p, lessons, meng)
  {
    for i := 0 to |lessons|
      invariant FirstOver(p, lessons[i..], meng) == FirstOver(p, lessons, meng)
    {
      var linDiPan := Lin(p, lessons[i].upper);
      if (if meng then IsMeng(linDiPan) else IsZhong(linDiPan)) {
        return Some(lessons[i]);
      }
      assert lessons[i..][1..] == lessons[i + 1..];
    }
    return None;
  }

  // ------------------------------------------------------------ bi yong --

  /** The day stem, as `bi_yong` and `yao_ke` read it: Jia when the first
    * lesson is not a stem lesson. */
  function DayGan(sk: SiKe): Stem
  {
    if sk.first.isGanZhi then sk.first.gan else Jia
  }

  /** The lessons whose upper branch has the parity `yang`. */
  function WithParity(s: seq<Lesson>, yang: bool): (r: seq<Lesson>)
    ensures |r| <= |s|
  {
    if s == [] then []
    else WithParity(s[..|s| - 1], yang)
         + (if IsYangBranch(s[|s| - 1].upper) == yang then [s[|s| - 1]] else [])
  }

  lemma {:induction false} WithParityMembers(s: seq<Lesson>, yang: bool)
    ensures forall l :: l in WithParity(s, yang) <==> l in s && IsYangBranch(l.upper) == yang
  {
    if s != [] {
      WithParityMembers(s[..|s| - 1], yang);
      assert s == s[..|s| - 1] + [s[|s| - 1]];
    }
  }

  /** `bi_yong` (比用): the one candidate whose upper branch matches the day
    * stem's parity; none or several go on to `she_hai`, with the whole list or
    * the matching part respectively. */
  function BiYong(p: Plate, sk: SiKe, s: seq<Lesson>): Step
    requires ValidPlate(p)
  {
    var matched := WithParity(s, IsYangStem(DayGan(sk)));
    if |matched| == 1 then Step(Chained(p, matched[0].upper), [BiYongMark, ZhiYi])
    else if |matched| == 0 then SheHai(p, sk, s)
    else SheHai(p, sk, matched)
  }

  // ------------------------------------------------------------- zei ke --

  /** `zei_ke` (贼克): conquering lessons first, overcoming lessons only when
    * there are none; fails when there are neither. */
  function ZeiKe(p: Plate, sk: SiKe): Option<Step>
    requires ValidPlate(p)
  {
    var c := Conquerors(sk);
    if |c| > 0 then
      Some(if |c| == 1 then Step(Chained(p, c[0].upper), [ChongShen]) else BiYong(p, sk, c))
    else
      var o := Overcomes(sk);
      if |o| > 0 then
        Some(if |o| == 1 then Step(Chained(p, o[0].upper), [YuanShou]) else BiYong(p, sk, o))
      else None
  }

  // ------------------------------------------------------------- yao ke --

  /** `is_ba_zhuan_day`: a stem lesson whose (stem, upper branch) is one of
    * the eight listed pairs. */
  predicate IsBaZhuanDay(l: Lesson)
  {
    l.isGanZhi && (l.gan, l.upper) in BaZhuanPairs()
  }

  function BaZhuanPairs(): seq<(Stem, Branch)>
  {
    [(Jia, Yin), (Yi, Mao), (Bing, Wu), (Ding, Wei), (Geng, Shen), (Xin, You), (Ren, Zi), (Gui, Chou)]
  }

  /** `is_ba_zhuan_day`, searching its table. */
  method CheckBaZhuanDay(ke: Lesson) returns (b: bool)
    ensures b == IsBaZhuanDay(ke)
  {
    if !ke.isGanZhi {
      return false;
    }
    var list := BaZhuanPairs();
    for i := 0 to |list|
      invariant (ke.gan, ke.upper) !in list[..i]
    {
      if ke.gan == list[i].0 && ke.upper == list[i].1 {
        return true;
      }
    }
    assert list[..|list|] == list;
    return false;
  }

  /** The lower branch of `l` overcomes the day stem's element `e`
    * (`towardDay`), or `e` overcomes it. */
  predicate DistantHit(l: Lesson, e: Element, towardDay: bool)
  {
    if towardDay then Ke(BranchElement(l.lowerZhi), e) else Ke(e, BranchElement(l.lowerZhi))
  }

  /** The lessons of `s` that `DistantHit` selects, in order. */
  function DistantHits(s: seq<Lesson>, e: Element, towardDay: bool): seq<Lesson>
  {
    if s == [] then []
    else
      DistantHits(s[..|s| - 1], e, towardDay)
      + (if DistantHit(s[|s| - 1], e, towardDay) then [s[|s| - 1]] else [])
  }

  lemma {:induction false} DistantHitsMembers(s: seq<Lesson>, e: Element, towardDay: bool)
    ensures forall l :: l in DistantHits(s, e, towardDay) <==> l in s && DistantHit(l, e, towardDay)
  {
    if s != [] {
      DistantHitsMembers(s[..|s| - 1], e, towardDay);
      assert s == s[..|s| - 1] + [s[|s| - 1]];
    }
  }

  /** The candidates of `yao_ke`, before duplicates are removed. */
  function DistantCandidates(sk: SiKe): seq<Lesson>
  {
    var e := StemElement(DayGan(sk));
    var rest := [sk.second, sk.third, sk.fourth];
    var toward := DistantHits(rest, e, true);
    if |toward| > 0 then toward else DistantHits(rest, e, false)
  }

  /** The candidate loops of `yao_ke`: the second to fourth lessons whose
    * lower branch overcomes the day stem, or else those it overcomes. */
  method DistantLessons(sk: SiKe) returns (overcomes: seq<Lesson>)
    ensures overcomes == DistantCandidates(sk)
  {
    var dayGanWx := StemElement(DayGan(sk));
    var rest := [sk.second, sk.third, sk.fourth];
    overcomes := [];
    for i := 0 to 3
      invariant overcomes == DistantHits(rest[..i], dayGanWx, true)
    {
      assert rest[..i + 1][..i] == rest[..i];
      if Ke(BranchElement(rest[i].lowerZhi), dayGanWx) {
        overcomes := overcomes + [rest[i]];
      }
    }
    assert rest[..3] == rest;
    if |overcomes| == 0 {
      for i := 0 to 3
        invariant overcomes == DistantHits(rest[..i], dayGanWx, false)
      {
        assert rest[..i + 1][..i] == rest[..i];
        if Ke(dayGanWx, BranchElement(rest[i].lowerZhi)) {
          overcomes := overcomes + [rest[i]];
        }
      }
    }
  }

  /** `yao_ke` (遥克): never on a ba-zhuan day; the lower branches of the other
    * three lessons that overcome the day stem, or else those it overcomes. */
  function YaoKe(p: Plate, sk: SiKe): Option<Step>
    requires ValidPlate(p)
  {
    if IsBaZhuanDay(sk.first) then None
    else
      var cands := DistantCandidates(sk);
      if |cands| == 0 then None
      else
        var d := Dedup(cands);
        if |d| == 1 then Some(Step(Chained(p, d[0].upper), [YaoKeGua]))
        else
          var s := BiYong(p, sk, d);
          Some(Step(s.t, [YaoKeGua] + s.labels))
  }

  // ------------------------------------------------------------ ang xing --

  /** The number of distinct lessons. */
  function DistinctCount(sk: SiKe): nat
  {
    |Dedup(Lessons(sk))|
  }

  /** `ang_xing` (昴星): only with four distinct lessons; the branch over You
    * (yang day) or the position under You (yin day) begins. */
  function AngXing(p: Plate, sk: SiKe): Option<Step>
    requires ValidPlate(p)
  {
    if DistinctCount(sk) != 4 then None
    else if LessonIsYang(sk.first) then
      Some(Step(Transmission(At(p, You), sk.zhiYangShen, sk.ganYangShen), [HuShi]))
    else
      Some(Step(Transmission(Lin(p, You), sk.ganYangShen, sk.zhiYangShen), [DongShe]))
  }

  /** `bie_ze` (别责): only with exactly three distinct lessons. */
  function BieZe(p: Plate, sk: SiKe): Option<Step>
    requires ValidPlate(p)
  {
    if DistinctCount(sk) == 4 then None
    else if DistinctCount(sk) != 3 then None
    else
      var chu := if sk.first.isGanZhi && LessonIsYang(sk.first)
                 then At(p, JiGong(AddS(sk.first.gan, 5)))
                 else AddB(sk.fourth.upper, 4);
      Some(Step(Transmission(chu, sk.ganYangShen, sk.ganYangShen), [BieZeGua]))
  }

  /** `ba_zhuan` (八专): only on a ba-zhuan day. */
  function BaZhuan(p: Plate, sk: SiKe): Option<Step>
    requires ValidPlate(p)
  {
    if !IsBaZhuanDay(sk.first) then None
    else
      var chu := if LessonIsYang(sk.first) then AddB(sk.ganYangShen, 2)
                 else AddB(AddB(sk.fourth.upper, 6), -2);
      Some(Step(Transmission(chu, sk.ganYangShen, sk.ganYangShen), [BaZhuanGua]))
  }

  // -------------------------------------------------------------- fu yin --

  /** The branch that `b` punishes, or `fallback` when `b` punishes itself. */
  function PunishedOr(b: Branch, fallback: Branch): Branch
  {
    if XingOf(b) == b then fallback else XingOf(b)
  }

  /** `fu_yin` (伏吟): the transmissions follow the punishment relation. */
  function FuYin(p: Plate, sk: SiKe): Option<Step>
    requires ValidPlate(p)
  {
    if !sk.first.isGanZhi then None
    else if sk.first.gan == Gui then
      Some(Step(Transmission(At(p, Chou), Xu, Wei),
                [if LessonIsYang(sk.first) then ZiRenGui else ZiXinGui]))
    else if sk.first.gan == Yi then
      var zhong := sk.zhiYangShen;
      Some(Step(Transmission(Chen, zhong, PunishedOr(zhong, AddB(zhong, 6))),
                [if LessonIsYang(sk.first) then ZiRenYi else ZiXinYi]))
    else if LessonIsYang(sk.first) then
      var chu := sk.ganYangShen;
      var zhong := PunishedOr(chu, sk.zhiYangShen);
      Some(Step(Transmission(chu, zhong, PunishedOr(zhong, AddB(zhong, 6))), [ZiRenGang]))
    else
      var chu := sk.zhiYangShen;
      var zhong := PunishedOr(chu, sk.ganYangShen);
      Some(Step(Transmission(chu, zhong, PunishedOr(zhong, AddB(zhong, 6))), [ZiXinRou]))
  }

  /** The search loop of `fu_yin`: the first branch that `b` punishes, or `b`
    * itself when the loop finds none. */
  method FirstPunished(b: Branch) returns (r: Branch)
    ensures IsXing(b, r)
    ensures forall c: Branch :: c < r ==> !IsXing(b, c)
  {
    r := b;
    for i := 0 to 12
      invariant forall c: Branch :: c < i ==> !IsXing(b, c)
    {
      if IsXing(b, i) {
        r := i;
        return;
      }
    }
    assert IsXing(b, XingOf(b));
  }

  // ------------------------------------------------------------- fan yin --

  /** `fan_yin` (返吟): `zei_ke` if it applies, otherwise the clash of the
    * fourth lesson's meng branch begins. */
  function FanYin(p: Plate, sk: SiKe): Step
    requires ValidPlate(p)
  {
    match ZeiKe(p, sk)
    case Some(s) => s
    case None => Step(Transmission(AddB(MengOf(sk.fourth.upper), 6), sk.zhiYangShen, sk.ganYangShen), [WuYi])
  }

  /** The search loop of `fan_yin`: three steps of +4, stopping at the first
    * meng branch. */
  method FindMeng(start: Branch) returns (found: bool, h: Branch)
    ensures found && h == MengOf(start)
  {
    var branch := start;
    found, h := false, start;
    for i := 0 to 3
      invariant !found ==> branch == AddB(start, 4 * i) && i <= MengIndex(start)
      invariant found ==> h == MengOf(start)
    {
      if IsMeng(branch) {
        found, h := true, branch;
        break;
      }
      AddBAdd(start, 4 * i, 4);
      branch := AddB(branch, 4);
    }
  }

  // ---------------------------------------------------------- the chain --

  /** `is_fu_yin_lesson`: every branch stands over itself. */
  predicate IsFuYinPlate(p: Plate)
    requires ValidPlate(p)
  {
    forall b: Branch :: At(p, b) == b
  }

  /** `is_fan_yin_lesson`: every branch stands over its opposite. */
  predicate IsFanYinPlate(p: Plate)
    requires ValidPlate(p)
  {
    forall b: Branch :: At(p, b) == AddB(b, 6)
  }

  method CheckFuYinPlate(p: Plate) returns (r: bool)
    requires ValidPlate(p)
    ensures r == IsFuYinPlate(p)
  {
    for i := 0 to 12
      invariant forall b: Branch :: b < i ==> At(p, b) == b
    {
      if At(p, i) != i {
        return false;
      }
    }
    return true;
  }

  method CheckFanYinPlate(p: Plate) returns (r: bool)
    requires ValidPlate(p)
    ensures r == IsFanYinPlate(p)
  {
    for i := 0 to 12
      invariant forall b: Branch :: b < i ==> At(p, b) == AddB(b, 6)
    {
      var opposite := AddB(i, 6);
      if At(p, i) != opposite {
        return false;
      }
    }
    return true;
  }

  lemma AppendAssoc(a: seq<Label>, b: seq<Label>, c: seq<Label>)
    ensures (a + b) + c == a + (b + c)
  {
  }

  function WithMethod(m: Label, s: Step): Step
  {
    Step(s.t, [m] + s.labels)
  }

  /** One `try` of the constructor's chain: the step `r` of method `m` when it
    * applies, otherwise what the `catch` goes on to. */
  function Attempt(m: Label, r: Option<Step>, rest: Option<Step>): Option<Step>
  {
    if r.Some? then Some(WithMethod(m, r.value)) else rest
  }

  /** The chain of the `SanChuan` constructor for an ordinary plate:
    * zei_ke, yao_ke, ang_xing, bie_ze, ba_zhuan; `None` where it throws.
    * Each `ChainFrom` function is one nested `catch` block. */
  function Chain(p: Plate, sk: SiKe): Option<Step>
    requires ValidPlate(p)
  {
    Attempt(ZeiKeMethod, ZeiKe(p, sk), ChainFromYaoKe(p, sk))
  }

  function ChainFromYaoKe(p: Plate, sk: SiKe): Option<Step>
    requires ValidPlate(p)
  {
    Attempt(YaoKeMethod, YaoKe(p, sk), ChainFromAngXing(p, sk))
  }

  function ChainFromAngXing(p: Plate, sk: SiKe): Option<Step>
    requires ValidPlate(p)
  {
    Attempt(AngXingMethod, AngXing(p, sk), ChainFromBieZe(p, sk))
  }

  function ChainFromBieZe(p: Plate, sk: SiKe): Option<Step>
    requires ValidPlate(p)
  {
    Attempt(BieZeMethod, BieZe(p, sk), Attempt(BaZhuanMethod, BaZhuan(p, sk), None))
  }

  /** The `SanChuan` constructor: the fu yin plate, the fan yin plate, then
    * the chain; `None` where it throws. */
  function Solve(p: Plate, sk: SiKe): Option<Step>
    requires ValidPlate(p)
  {
    if IsFuYinPlate(p) then
      match FuYin(p, sk)
      case Some(s) => Some(WithMethod(FuYinMethod, s))
      case None => None
    else if IsFanYinPlate(p) then Some(WithMethod(FanYinMethod, FanYin(p, sk)))
    else Chain(p, sk)
  }
}
