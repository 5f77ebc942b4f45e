/** The Da Liu Ren heaven-and-earth plate (TianDiPan) and the four lessons
  * (SiKe) read off it, as built by `pai_pan_from_bazi` in
  * src/da_liu_ren/da_liu_ren.cpp. */
module LiuRenPlate {
  import opened GanZhi

  /** `heaven[p]` is the Heaven-plate branch standing over Earth position `p`
    * (`tdp[p]`); `earth[x]` is the Earth position over which Heaven branch `x`
    * stands (`tdp.lin(x)`). */
  datatype Plate = Plate(heaven: seq<Branch>, earth: seq<Branch>)

  /** The plate is a bijection of the twelve branches and `lin` is its inverse. */
  predicate ValidPlate(p: Plate)
  {
    |p.heaven| == 12 && |p.earth| == 12
    && (forall b :: 0 <= b < 12 ==> p.earth[p.heaven[b]] == b)
    && (forall b :: 0 <= b < 12 ==> p.heaven[p.earth[b]] == b)
  }

  /** `tdp[b]`. */
  function At(p: Plate, b: Branch): Branch
    requires ValidPlate(p)
  {
    p.heaven[b]
  }

  /** `tdp.lin(x)`: the Earth position that Heaven branch `x` stands over. */
  function Lin(p: Plate, x: Branch): (r: Branch)
    requires ValidPlate(p)
    ensures At(p, r) == x
    ensures forall b: Branch :: At(p, b) == x ==> b == r
  {
    p.earth[x]
  }

  /** One row of a rotated plate: entry `q` is `base` stepped by `q - pivot`,
    * forward or backward. */
  function RotatedRow(base: Branch, pivot: Branch, forward: bool, n: nat): (r: seq<Branch>)
    requires n <= 12
    ensures |r| == n
    ensures forall q :: 0 <= q < n ==> r[q] == AddB(base, if forward then q - pivot else pivot - q)
  {
    if n == 0 then []
    else RotatedRow(base, pivot, forward, n - 1)
         + [AddB(base, if forward then n - 1 - pivot else pivot - (n - 1))]
  }

  /** Rotating from `h` to `g` and back again returns every branch home. */
  lemma RotationInverse(g: Branch, h: Branch, b: Branch, forward: bool)
    ensures var x := AddB(g, if forward then b - h else h - b);
            AddB(h, if forward then x - g else g - x) == b
  {
    var d := if forward then b - h else h - b;
    var q := (g + d) / 12;
    if forward {
      DivMod12(h + AddB(g, d) - g, -q, b);
    } else {
      DivMod12(h + g - AddB(g, d), q, b);
    }
  }

  /** The row rotated from `h` to `g` undoes the row rotated from `g` to `h`. */
  lemma RowsInverse(g: Branch, h: Branch, forward: bool)
    ensures forall b :: 0 <= b < 12 ==>
              RotatedRow(h, g, forward, 12)[RotatedRow(g, h, forward, 12)[b]] == b
  {
    var there := RotatedRow(g, h, forward, 12);
    var back := RotatedRow(h, g, forward, 12);
    forall b | 0 <= b < 12
      ensures back[there[b]] == b
    {
      var x := there[b];
      assert x == AddB(g, if forward then b - h else h - b);
      assert back[x] == AddB(h, if forward then x - g else g - x);
      RotationInverse(g, h, b, forward);
    }
  }

  /** The plate of Month General `g` over the hour branch `h`. Clockwise, every
    * branch is shifted by the same amount `g - h` (a rotation); otherwise the
    * plate is the mirror `g + h - b`, which keeps `g` over `h` but is not a
    * rotation. */
  function Rotation(g: Branch, h: Branch, clockwise: bool): (p: Plate)
    ensures ValidPlate(p) && At(p, h) == g
    ensures forall b: Branch :: At(p, b) == AddB(g, if clockwise then b - h else h - b)
  {
    RowsInverse(g, h, clockwise);
    RowsInverse(h, g, clockwise);
    Plate(RotatedRow(g, h, clockwise, 12), RotatedRow(h, g, clockwise, 12))
  }

  /** The hour branch of a 24-hour clock hour (23 and 0 are both Zi). */
  function HourBranch(hour: int): (r: Branch)
    requires 0 <= hour <= 23
    ensures hour == 0 || hour == 23 ==> r == Zi
    ensures 1 <= hour <= 22 ==> r * 2 - 1 <= hour <= r * 2
  {
    (hour + 1) / 2 % 12
  }

  /** The twelve Generals run clockwise when the Noble stands at Hai or in Zi..Chen. */
  predicate IsClockwise(guiRen: Branch)
  {
    guiRen == Hai || (Zi <= guiRen && guiRen <= Chen)
  }

  /** `GanZhiKe`: a lesson whose lower part is the day stem (`isGanZhi`) or a
    * branch, under the Heaven branch `upper`. For the stem lesson `lowerZhi`
    * records the stem's lodging palace; nothing in the engines reads it. */
  datatype Lesson = Lesson(isGanZhi: bool, gan: Stem, lowerZhi: Branch, upper: Branch)

  function StemLesson(gan: Stem, upper: Branch): Lesson
  {
    Lesson(true, gan, JiGong(gan), upper)
  }

  function BranchLesson(lower: Branch, upper: Branch): Lesson
  {
    Lesson(false, Jia, lower, upper)
  }

  /** `GanZhiKe::get_wu_xing`: the element of the lesson's lower part. */
  function LessonElement(l: Lesson): Element
  {
    if l.isGanZhi then StemElement(l.gan) else BranchElement(l.lowerZhi)
  }

  /** `GanZhiKe::is_yang`: the parity of the lesson's lower part. */
  predicate LessonIsYang(l: Lesson)
  {
    if l.isGanZhi then IsYangStem(l.gan) else IsYangBranch(l.lowerZhi)
  }

  /** `SiKe`: the four lessons and the two Yang Spirits (the Heaven branches
    * over the day stem's palace and over the day branch). */
  datatype SiKe = SiKe(first: Lesson, second: Lesson, third: Lesson, fourth: Lesson,
                       ganYangShen: Branch, zhiYangShen: Branch)

  function Lessons(sk: SiKe): (r: seq<Lesson>)
    ensures |r| == 4
  {
    [sk.first, sk.second, sk.third, sk.fourth]
  }

  /** A lesson sits on the plate when its upper branch is the Heaven branch over
    * its lower part (over the lodging palace, for the stem lesson). */
  predicate OnPlate(p: Plate, l: Lesson)
    requires ValidPlate(p)
  {
    l.upper == At(p, if l.isGanZhi then JiGong(l.gan) else l.lowerZhi)
  }

  /** The shape every cast of the four lessons has: each lesson sits on the
    * plate, the second stands on the first's upper branch, the fourth on the
    * third's, and the Yang Spirits are the first and third upper branches. */
  predicate WellFormed(p: Plate, sk: SiKe)
    requires ValidPlate(p)
  {
    sk.first.isGanZhi && !sk.second.isGanZhi && !sk.third.isGanZhi && !sk.fourth.isGanZhi
    && sk.first.lowerZhi == JiGong(sk.first.gan)
    && sk.second.gan == Jia && sk.third.gan == Jia && sk.fourth.gan == Jia
    && (forall l | l in Lessons(sk) :: OnPlate(p, l))
    && sk.second.lowerZhi == sk.first.upper
    && sk.fourth.lowerZhi == sk.third.upper
    && sk.ganYangShen == sk.first.upper
    && sk.zhiYangShen == sk.third.upper
  }

  /** The four lessons of the day pillar (`dayGan`, `dayZhi`) on plate `p`. */
  function FourLessons(p: Plate, dayGan: Stem, dayZhi: Branch): (sk: SiKe)
    requires ValidPlate(p)
    ensures WellFormed(p, sk)
    ensures sk.first.gan == dayGan && sk.third.lowerZhi == dayZhi
    ensures sk.ganYangShen == At(p, JiGong(dayGan)) && sk.zhiYangShen == At(p, dayZhi)
  {
    var firstUpper := At(p, JiGong(dayGan));
    var thirdUpper := At(p, dayZhi);
    SiKe(StemLesson(dayGan, firstUpper),
         BranchLesson(firstUpper, At(p, firstUpper)),
         BranchLesson(dayZhi, thirdUpper),
         BranchLesson(thirdUpper, At(p, thirdUpper)),
         firstUpper, thirdUpper)
  }

  /** The day pillar and the plate determine the four lessons: any well-formed
    * set of lessons with that stem and branch is the one `FourLessons` builds. */
  lemma FourLessonsUnique(p: Plate, sk: SiKe)
    requires ValidPlate(p) && WellFormed(p, sk)
    ensures sk == FourLessons(p, sk.first.gan, sk.third.lowerZhi)
  {
    assert OnPlate(p, sk.first) && OnPlate(p, sk.second);
    assert OnPlate(p, sk.third) && OnPlate(p, sk.fourth);
  }
}
