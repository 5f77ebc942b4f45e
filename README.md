# ZhouYiLab core in Dafny

ZhouYiLab is a C++ library for three Chinese divination systems. This project models the parts of it that decide things, and proves properties of that model.

- **Da Liu Ren (大六壬).**
  - The four lessons (四课) are read off the heaven-and-earth plate (天地盘).
  - The three transmissions (三传) are found by the prioritised method chain 贼克 (with 比用 and 涉害) → 遥克 → 昴星 → 别责 → 八专, after the special cases 伏吟 and 返吟.
  - The pattern classifiers (卦体) and the spirit engine (神煞) work from the lessons, the transmissions and the pillars.
- **Zi Wei Dou Shu (紫微斗数).**
  - Stars are placed by modular palace offsets.
  - Four twelve-spirit rings are filled by loops.
  - The fortune periods are the decades (大限), the yearly Xiao Xian (小限) and the flowing year, month, day and hour.
  - Palace geometry covers 三方四正, flanking neighbours and empty palaces.
  - The four transformations (四化) include the flying transformations between palaces and their chains, found by bounded backtracking.
  - The pattern analyser (格局) scores a chart.
- **Liu Yao (六爻).** The controller builds a hexagram code from yao values (爻辞) or from numbers, and validates input before it calls the divination.

Encodings follow the code:
- An earthly branch is an `int` from 0 to 11, with Zi = 0.
- A heavenly stem is an `int` from 0 to 9, with Jia = 0.
- A Zi Wei palace index counts from the Yin palace, which is 0.
- `fix_index` is the remainder modulo 12.
- C++ `/` and `%` truncate toward zero. They are written out in `CArith` wherever the sign of an operand can be negative.
- A thrown exception becomes the error case of an `Option` or `Result`.
- A function that fills an array or pushes onto a vector becomes a `method` with a loop. Each such method is proved against a specification function, and lemmas state what the source promises about that function.

Modules, by source file:

| module | models |
|---|---|
| `Wrappers` | `Option` and `Result` |
| `GanZhi` | stem and branch arithmetic, elements, lodging (寄宫), void (空亡), triads |
| `CArith` | C++ truncating division and remainder |
| `LiuRenPlate` | the plate and the four lessons of `src/da_liu_ren/da_liu_ren.cpp` |
| `LiuRenSanChuan`, `LiuRenSanChuanClass`, `LiuRenSanChuanProperties` | the `SanChuan` methods: as functions; as a class whose methods set the three transmissions and the method labels; and the lemmas about them |
| `LiuRenGuaTi` | `src/da_liu_ren/da_liu_ren_guati.cpp` |
| `LiuRenShenSha`, `LiuRenShenShaProperties` | `src/da_liu_ren/da_liu_ren_shen_sha.cpp` |
| `ZiWeiStar`, `ZiWeiStarProperties`, `ZiWeiRings` | `src/zi_wei/zi_wei_star.cpp` |
| `ZiWeiHoroscope` | `src/zi_wei/zi_wei_horoscope.cpp` |
| `ZiWeiSanFang` | `src/zi_wei/zi_wei_sanfang.cpp` |
| `ZiWeiSiHua` | `src/zi_wei/zi_wei_sihua.cpp` |
| `ZiWeiGeJu` | `src/zi_wei/zi_wei_geju.cpp` |
| `LiuYaoController` | `src/liu_yao/liu_yao_controller.cpp` |

## Model

| member | source | states |
|---|---|---|
| GanZhi.DivMod12 | src/da_liu_ren/da_liu_ren.cpp:188 | branch arithmetic `DiZhi + n` wraps modulo 12: a value `12q + r` with `r` in 0..11 lands on `r` |
| GanZhi.AddBAdd | src/da_liu_ren/da_liu_ren.cpp:414-415 | stepping a branch by `m` and then by `n` is stepping it by `m + n` |
| GanZhi.FixIndexAdd | src/zi_wei/zi_wei_sanfang.cpp:34-43 | normalising an index and then stepping it is stepping and then normalising |
| GanZhi.JiGanIsLodging | src/da_liu_ren/da_liu_ren.cpp:191 | `get_ji_gan(b)` lists, in ascending order, exactly the stems whose lodging palace `get_ji_gong` is `b` |
| GanZhi.XunShou | src/da_liu_ren/da_liu_ren_guati.cpp:300-301 | the week head is the branch which, stepped by the day stem's index, gives the day branch |
| GanZhi.KongWang | src/da_liu_ren/da_liu_ren_guati.cpp:300-301 | the two void branches are consecutive and the week head follows the second one |
| GanZhi.KongWangUnpaired | src/da_liu_ren/da_liu_ren_guati.cpp:300-301 | neither void branch is paired with any of the week's ten stems |
| GanZhi.MengOf | src/da_liu_ren/da_liu_ren.cpp:540-548 | the meng branch of a branch's group is a meng branch in its residue class mod 4 |
| GanZhi.MengIndex | src/da_liu_ren/da_liu_ren.cpp:541-547 | at most two steps of +4 reach that meng branch, and the search does not stop earlier |
| GanZhi.ZhongOf | src/da_liu_ren/da_liu_ren_shen_sha.cpp:29-39 | the zhong branch of a branch is a zhong branch in its residue class mod 4 |
| GanZhi.ZhongIndex | src/da_liu_ren/da_liu_ren_shen_sha.cpp:29-39 | at most two steps of +4 reach it, and the search does not stop earlier |
| GanZhi.MengZhongResidues | src/da_liu_ren/da_liu_ren.cpp:558-567 | meng branches are those with index 2 mod 3 and zhong branches those with index 0 mod 3 |
| GanZhi.XingExamples | tests/test_ganzhi.cpp:112-122 | the punishment table agrees with the tests: Zi punishes Mao, Yin Si, Chou Xu, and Chen, Wu, You, Hai punish themselves |
| GanZhi.XingIsPermutation | tests/test_ganzhi.cpp:112-122 | no two branches punish the same branch |
| CArith.CRem | src/liu_yao/liu_yao_controller.cpp:121 | C++ `%` truncates toward zero: quotient times divisor plus remainder gives the dividend |
| CArith.CRemRange | src/liu_yao/liu_yao_controller.cpp:121 | the C++ remainder takes the sign of the dividend and equals the Euclidean one for a non-negative dividend |
| CArith.CRemZero | src/liu_yao/liu_yao_controller.cpp:121 | the C++ remainder is zero exactly when the Euclidean one is |
| LiuRenPlate.Lin | src/da_liu_ren/da_liu_ren.cpp:176-284 | `lin(x)` is the one Earth position over which Heaven branch `x` stands: the plate maps it back to `x` and no other position does |
| LiuRenPlate.RowsInverse | src/da_liu_ren/da_liu_ren.cpp:825 | rotating the twelve branches from the Month General to the hour branch and back again returns every branch home |
| LiuRenPlate.Rotation | src/da_liu_ren/da_liu_ren.cpp:825 | the plate built from the Month General and the hour branch is a bijection whose inverse is `lin`, with the Month General standing over the hour branch; clockwise every branch `b` carries `g + (b - h)`, a constant shift, and counter-clockwise the mirror `g + (h - b)` |
| LiuRenPlate.HourBranch | src/da_liu_ren/da_liu_ren.cpp:812 | hours 23 and 0 belong to Zi; any other hour lies in the two-hour span `2r-1 .. 2r` of its branch `r` |
| LiuRenPlate.FourLessons | src/da_liu_ren/da_liu_ren.cpp:828-841 | the four lessons sit on the plate and chain: the second stands on the first's upper branch, the fourth on the third's; the stem Yang Spirit is `tdp[ji_gong(day_gan)]` and the branch Yang Spirit is `tdp[day_zhi]` |
| LiuRenPlate.FourLessonsUnique | src/da_liu_ren/da_liu_ren.cpp:828-841 | any set of lessons with that chaining shape is the one cast from its day stem and day branch |
| LiuRenSanChuan.Chained | src/da_liu_ren/da_liu_ren.cpp:107-109 | a transmission started at `chu` chains along the plate: `zhong = tdp[chu]` and `mo = tdp[zhong]` |
| LiuRenSanChuan.Dedup | src/da_liu_ren/da_liu_ren.cpp:40-60 | removing duplicate lessons never lengthens the list |
| LiuRenSanChuan.DedupCoversKeys | src/da_liu_ren/da_liu_ren.cpp:40-60 | every key (the stem of a stem lesson, the lower branch of a branch lesson) of the input survives in the output |
| LiuRenSanChuan.DedupIndicesShape | src/da_liu_ren/da_liu_ren.cpp:40-60 | the output is a subsequence of the input: it picks input positions in ascending order |
| LiuRenSanChuan.DedupKeepsFirsts | src/da_liu_ren/da_liu_ren.cpp:45-57 | the kept positions are exactly the first lesson of each key |
| LiuRenSanChuan.DedupDistinct | src/da_liu_ren/da_liu_ren.cpp:45-57 | no two kept lessons share a key |
| LiuRenSanChuan.DedupOfDistinct | src/da_liu_ren/da_liu_ren.cpp:45-57 | a list whose keys are already distinct is returned unchanged |
| LiuRenSanChuan.DedupIdempotent | src/da_liu_ren/da_liu_ren.cpp:40-60 | removing duplicates twice is the same as removing them once |
| LiuRenSanChuan.DedupSubset | src/da_liu_ren/da_liu_ren.cpp:40-60 | every kept lesson is one of the input lessons |
| LiuRenSanChuan.RemoveDuplicateLessons | src/da_liu_ren/da_liu_ren.cpp:40-60 | the loop with its seen-stem and seen-branch lists computes the first-per-key subsequence |
| LiuRenSanChuan.ConqueringMembers | src/da_liu_ren/da_liu_ren.cpp:69-76 | a lesson is kept as conquering exactly when its Heaven branch's element overcomes the lesson's own element |
| LiuRenSanChuan.OvercomingMembers | src/da_liu_ren/da_liu_ren.cpp:88-95 | a lesson is kept as overcoming exactly when its own element overcomes its Heaven branch's element |
| LiuRenSanChuan.HaveConquerors | src/da_liu_ren/da_liu_ren.cpp:63-79 | the conquering lessons of the four, with duplicates removed; each is one of the four lessons and is conquering |
| LiuRenSanChuan.HaveOvercomes | src/da_liu_ren/da_liu_ren.cpp:82-98 | the overcoming lessons of the four, with duplicates removed; each is one of the four lessons and is overcoming |
| LiuRenSanChuan.StemHits | src/da_liu_ren/da_liu_ren.cpp:202-216 | the number of lodged stems that count as harm is at most the number of lodged stems |
| LiuRenSanChuan.StemHitsStep | src/da_liu_ren/da_liu_ren.cpp:202-216 | one more lodged stem adds exactly its own hit to the count |
| LiuRenSanChuan.StepHarm | src/da_liu_ren/da_liu_ren.cpp:191-217 | one position on the path adds at most three (its branch and at most two lodged stems) |
| LiuRenSanChuan.WalkLength | src/da_liu_ren/da_liu_ren.cpp:183-189 | the walk from `lin(upper)` reaches `upper` in fewer than twelve steps and not before |
| LiuRenSanChuan.WalkFromStops | src/da_liu_ren/da_liu_ren.cpp:187-189 | the bounded twelve-step loop with its early break counts the same as the walk that stops on arrival |
| LiuRenSanChuan.HarmDepthIsWalk | src/da_liu_ren/da_liu_ren.cpp:181-221 | the harm depth is the count along the path up to the lesson's own Heaven branch, and zero when the branch stands over itself |
| LiuRenSanChuan.PositionHarm | src/da_liu_ren/da_liu_ren.cpp:191-217 | the inner loops count the harm of one position, conquering or overcoming by the lesson's kind |
| LiuRenSanChuan.Walk | src/da_liu_ren/da_liu_ren.cpp:184-218 | the twelve-step loop with its break computes the walk count |
| LiuRenSanChuan.ComputeHarmDepth | src/da_liu_ren/da_liu_ren.cpp:181-221 | the harm depth of one lesson |
| LiuRenSanChuan.Depths | src/da_liu_ren/da_liu_ren.cpp:179-221 | one harm depth per lesson, in order |
| LiuRenSanChuan.MaxOfIsMax | src/da_liu_ren/da_liu_ren.cpp:224-229 | the maximum found by the scan bounds every depth and, for a non-empty list, is attained |
| LiuRenSanChuan.MaxDepthIsMax | src/da_liu_ren/da_liu_ren.cpp:224-229 | the largest harm depth bounds every lesson's depth and is attained by some lesson |
| LiuRenSanChuan.AtDepthMembers | src/da_liu_ren/da_liu_ren.cpp:231-236 | a lesson is among the deepest exactly when it is an input lesson with the maximum depth |
| LiuRenSanChuan.FirstOverIsFirst | src/da_liu_ren/da_liu_ren.cpp:247-268 | the tie-break search returns the first lesson whose `lin` is meng (or zhong), and nothing exactly when no lesson qualifies |
| LiuRenSanChuan.FirstOverFound | src/da_liu_ren/da_liu_ren.cpp:247-268 | a lesson the tie-break search returns has its `lin` meng (or zhong) and no earlier lesson does |
| LiuRenSanChuan.FirstOverNone | src/da_liu_ren/da_liu_ren.cpp:247-268 | the tie-break search returns nothing exactly when no lesson has its `lin` meng (or zhong) |
| LiuRenSanChuan.HarmDepths | src/da_liu_ren/da_liu_ren.cpp:179-221 | the loop builds the list of harm depths |
| LiuRenSanChuan.MaxHarmDepth | src/da_liu_ren/da_liu_ren.cpp:224-229 | the loop finds the maximum depth, starting from zero |
| LiuRenSanChuan.LessonsAtDepth | src/da_liu_ren/da_liu_ren.cpp:231-236 | the loop keeps, in order, the lessons with the given depth |
| LiuRenSanChuan.DeepestLessons | src/da_liu_ren/da_liu_ren.cpp:179-236 | the lessons of maximum harm depth, in order |
| LiuRenSanChuan.FindOver | src/da_liu_ren/da_liu_ren.cpp:247-268 | the loop returns the first lesson standing over a meng (or zhong) branch |
| LiuRenSanChuan.WithParity | src/da_liu_ren/da_liu_ren.cpp:148-154 | filtering by parity never lengthens the list |
| LiuRenSanChuan.WithParityMembers | src/da_liu_ren/da_liu_ren.cpp:148-154 | a lesson is kept exactly when its Heaven branch has the day stem's yin/yang |
| LiuRenSanChuan.CheckBaZhuanDay | src/da_liu_ren/da_liu_ren.cpp:570-591 | the loop over the eight pairs decides exactly the Ba Zhuan day predicate on (first.gan, first.upper) of a stem lesson |
| LiuRenSanChuan.DistantHitsMembers | src/da_liu_ren/da_liu_ren.cpp:302-322 | a lesson is a distant candidate exactly when its lower branch overcomes the day stem (or, in the second pass, is overcome by it) |
| LiuRenSanChuan.DistantLessons | src/da_liu_ren/da_liu_ren.cpp:292-323 | the two-pass scan of lessons two to four builds the distant-overcoming candidates |
| LiuRenSanChuan.FirstPunished | src/da_liu_ren/da_liu_ren.cpp:443-449 | the loop over the twelve branches finds the least branch that `b` punishes |
| LiuRenSanChuan.FindMeng | src/da_liu_ren/da_liu_ren.cpp:540-548 | at most three +4 steps always reach the unique meng branch of the starting branch's residue, so `chu` is always assigned |
| LiuRenSanChuan.CheckFuYinPlate | src/da_liu_ren/da_liu_ren.cpp:594-602 | the loop decides that every branch stands over itself |
| LiuRenSanChuan.CheckFanYinPlate | src/da_liu_ren/da_liu_ren.cpp:605-614 | the loop decides that every branch stands over its opposite |
| LiuRenSanChuanProperties.DedupEmpty | src/da_liu_ren/da_liu_ren.cpp:40-60 | removing duplicates empties a list only when it was already empty |
| LiuRenSanChuanProperties.SheHaiCases | src/da_liu_ren/da_liu_ren.cpp:176-284 | `she_hai` never fails and always chains on the plate; a single deepest lesson gives 涉害卦, else the first deepest over a meng branch gives 见机卦, else the first over a zhong branch gives 察微卦, else the Yang Spirit of the first lesson's parity gives 复等卦 |
| LiuRenSanChuanProperties.BiYongCases | src/da_liu_ren/da_liu_ren.cpp:139-173 | `bi_yong` resolves directly as 比用/知一卦 exactly when one candidate's Heaven branch has the day stem's parity, and that candidate begins; otherwise it hands over to `she_hai` |
| LiuRenSanChuanProperties.ZeiKeFails | src/da_liu_ren/da_liu_ren.cpp:101-136 | `zei_ke` fails exactly when no lesson conquers and none overcomes |
| LiuRenSanChuanProperties.ZeiKeCases | src/da_liu_ren/da_liu_ren.cpp:101-132 | with a conquering lesson the overcoming ones are never examined; a single candidate resolves as 重审卦 or 元首卦, several go to `bi_yong`, and the result is chained |
| LiuRenSanChuanProperties.ZeiKeCandidates | src/da_liu_ren/da_liu_ren.cpp:63-98 | every candidate of `zei_ke` is one of the four lessons, conquering or overcoming respectively |
| LiuRenSanChuanProperties.YaoKeCases | src/da_liu_ren/da_liu_ren.cpp:287-341 | `yao_ke` fails exactly on a Ba Zhuan day or when no candidate exists; when it applies it is labelled 遥克卦 and chained |
| LiuRenSanChuanProperties.YaoKeCandidates | src/da_liu_ren/da_liu_ren.cpp:297-323 | the candidates are the lessons two to four whose lower branch overcomes the day stem, and only when there are none, those the day stem overcomes |
| LiuRenSanChuanProperties.DistinctCountBounds | src/da_liu_ren/da_liu_ren.cpp:344-386 | a cast with a stem lesson first and branch lessons after it has between two and four distinct lessons |
| LiuRenSanChuanProperties.ChainFails | src/da_liu_ren/da_liu_ren.cpp:634-665 | the ordinary chain fails exactly when all five methods refuse, which on a well-formed cast means only two distinct lessons |
| LiuRenSanChuanProperties.ChainFamily | src/da_liu_ren/da_liu_ren.cpp:634-675 | the family name put at the front of `ke_shi` names the first method in the order 贼克, 遥克, 昴星, 别责, 八专 that applies |
| LiuRenSanChuanProperties.BieZeBaZhuanTail | src/da_liu_ren/da_liu_ren.cpp:397-398 | `bie_ze` and `ba_zhuan` both end with `zhong = mo = gan_yang_shen` (lines 418-419 for `ba_zhuan`) |
| LiuRenSanChuanProperties.FuFanExclusive | src/da_liu_ren/da_liu_ren.cpp:594-614 | no plate is both 伏吟 (identity) and 返吟 (every branch over its opposite) |
| LiuRenSanChuanProperties.FuYinGuiDay | src/da_liu_ren/da_liu_ren.cpp:430-435 | on a 伏吟 plate a Gui day gives exactly (tdp[Chou], Xu, Wei) |
| LiuRenSanChuanProperties.MengIsUnique | src/da_liu_ren/da_liu_ren.cpp:540-548 | each residue class mod 4 holds exactly one of Yin, Si, Shen, Hai |
| LiuRenSanChuanProperties.FanYinResolves | src/da_liu_ren/da_liu_ren.cpp:535-555 | a 返吟 plate always resolves; when `zei_ke` fails the initial transmission is the meng branch of the fourth lesson's upper branch plus six, itself a meng branch |
| LiuRenSanChuanProperties.SolveFails | src/da_liu_ren/da_liu_ren.cpp:617-676 | the constructor throws only on a 伏吟 plate whose first lesson is not a stem lesson, or on an ordinary plate where the whole chain fails |
| LiuRenSanChuanProperties.BaZhuanDayResolvedByBieZe | src/da_liu_ren/da_liu_ren.cpp:650-658 | a Ba Zhuan day with three distinct lessons is caught by `bie_ze` before `ba_zhuan` is tried (the Bing-Wu day on the plate that moves every branch one step) |
| LiuRenSanChuanProperties.ChainCanFail | src/da_liu_ren/da_liu_ren.cpp:659-661 | on the counter-clockwise mirror plate about Chou every method refuses the Ji-Wei day, so the final throw is reachable only on such a mirrored plate; on a clockwise plate it never is (`ClockwiseNeverThrows`) |
| LiuRenSanChuanProperties.DistinctCountThree | src/da_liu_ren/da_liu_ren.cpp:344-386 | a cast whose third and fourth lessons stand on different branches has at least three distinct lessons |
| LiuRenSanChuanProperties.ClockwiseFixedPoint | src/da_liu_ren/da_liu_ren.cpp:825 | a clockwise plate that keeps any branch in place has the Month General on the hour branch, so it keeps every branch in place |
| LiuRenSanChuanProperties.RotationSolves | src/da_liu_ren/da_liu_ren.cpp:617-661 | the constructor does not throw on a 伏吟 plate or when the cast has at least three distinct lessons |
| LiuRenSanChuanProperties.ClockwiseNeverThrows | src/da_liu_ren/da_liu_ren.cpp:819-831 | when the Noble runs clockwise (`is_clockwise`, lines 819-822), the constructor never throws, whatever the Month General, hour and day pillar |
| LiuRenSanChuanClass.SanChuan.constructor | src/da_liu_ren/da_liu_ren.cpp:617-618 | the object keeps the plate and the four lessons; before the chain runs no lesson form is recorded |
| LiuRenSanChuanClass.SanChuan.Take | src/da_liu_ren/da_liu_ren.cpp:107-109 | sets the initial transmission and chains the other two on the plate, leaving `ke_shi` alone |
| LiuRenSanChuanClass.SanChuan.ZeiKe | src/da_liu_ren/da_liu_ren.cpp:101-136 | succeeds exactly when the `zei_ke` specification applies and then leaves its transmissions and appends its labels; on failure (the C++ throw) nothing changes |
| LiuRenSanChuanClass.SanChuan.BiYong | src/da_liu_ren/da_liu_ren.cpp:139-173 | leaves the transmissions and appended labels of the `bi_yong` specification |
| LiuRenSanChuanClass.SanChuan.SheHai | src/da_liu_ren/da_liu_ren.cpp:176-284 | leaves the transmissions and appended labels of the `she_hai` specification |
| LiuRenSanChuanClass.SanChuan.YaoKe | src/da_liu_ren/da_liu_ren.cpp:287-341 | succeeds exactly when `yao_ke` applies, with its transmissions and labels (遥克卦 before those of `bi_yong`); otherwise nothing changes |
| LiuRenSanChuanClass.SanChuan.AngXing | src/da_liu_ren/da_liu_ren.cpp:344-371 | succeeds exactly with four distinct lessons: 虎视卦 from `tdp[You]` on a yang day, 冬蛇掩目 from `lin(You)` on a yin day; otherwise nothing changes |
| LiuRenSanChuanClass.SanChuan.BieZe | src/da_liu_ren/da_liu_ren.cpp:374-401 | succeeds exactly with three distinct lessons, with the 别责 transmissions; otherwise nothing changes |
| LiuRenSanChuanClass.SanChuan.BaZhuan | src/da_liu_ren/da_liu_ren.cpp:404-422 | succeeds exactly on a Ba Zhuan day, with the 八专 transmissions; otherwise nothing changes |
| LiuRenSanChuanClass.SanChuan.FuYin | src/da_liu_ren/da_liu_ren.cpp:425-532 | succeeds exactly when the first lesson is a stem lesson, with the Gui, Yi, firm-day or soft-day transmissions and their punishment searches |
| LiuRenSanChuanClass.SanChuan.FanYin | src/da_liu_ren/da_liu_ren.cpp:535-555 | `zei_ke`, or else the meng branch of the fourth lesson's upper branch plus six and the two Yang Spirits, labelled 无依卦 |
| LiuRenSanChuanClass.SanChuan.Chain | src/da_liu_ren/da_liu_ren.cpp:634-665 | the nested `try`/`catch` chain leaves the state of the first method that applies and returns its family name |
| LiuRenSanChuanClass.SanChuan.ChainFromYaoKe | src/da_liu_ren/da_liu_ren.cpp:639-664 | the chain from `yao_ke` on |
| LiuRenSanChuanClass.SanChuan.ChainFromAngXing | src/da_liu_ren/da_liu_ren.cpp:644-663 | the chain from `ang_xing` on |
| LiuRenSanChuanClass.SanChuan.ChainFromBieZe | src/da_liu_ren/da_liu_ren.cpp:649-662 | the chain from `bie_ze` on: `bie_ze`, then `ba_zhuan` |
| LiuRenSanChuanClass.SanChuan.Run | src/da_liu_ren/da_liu_ren.cpp:620-675 | 伏吟 first, then 返吟, then the chain; the transmissions and the lesson forms, with the family name in front, are those of the solver specification |
| LiuRenSanChuanClass.NewSanChuan | src/da_liu_ren/da_liu_ren.cpp:617-676 | the constructor throws exactly when the solver specification fails; otherwise the new object holds its transmissions and lesson forms |
| LiuRenGuaTi.XunQi | src/da_liu_ren/da_liu_ren_guati.cpp:299-316 | the week's marvel is always Zi, Chou or Hai |
| LiuRenGuaTi.MarvelOfHead | src/da_liu_ren/da_liu_ren_guati.cpp:303-315 | the marvel of a week head is always Zi, Chou or Hai, the default included |
| LiuRenGuaTi.XunQiByWeek | src/da_liu_ren/da_liu_ren_guati.cpp:300-302 | the branch after the second void branch is the week head, so the marvel depends only on the week |
| LiuRenGuaTi.TianMaClosedForm | src/da_liu_ren/da_liu_ren_guati.cpp:318-322 | the Heavenly Horse is Wu plus twice the month's distance from Yin |
| LiuRenGuaTi.TianMaIsYang | src/da_liu_ren/da_liu_ren_guati.cpp:318-322 | the Heavenly Horse always has Wu's (yang) parity |
| LiuRenGuaTi.TianMaStep | src/da_liu_ren/da_liu_ren_guati.cpp:318-322 | one month later the Heavenly Horse stands two branches further on |
| LiuRenGuaTi.CalcYiMa | src/da_liu_ren/da_liu_ren_guati.cpp:324-336 | the three-step search returns the opposite of the meng branch in the input's residue class mod 4 |
| LiuRenGuaTi.YiMaIsMeng | src/da_liu_ren/da_liu_ren_guati.cpp:324-336 | the Post Horse is always one of Yin, Si, Shen, Hai, in the residue class of the input plus six |
| LiuRenGuaTi.FuFanYinExclusive | src/da_liu_ren/da_liu_ren_guati.cpp:73-83 | `is_fu_yin` (branch Yang Spirit equals the day branch) and `is_fan_yin` (equals its opposite) never both hold |
| LiuRenGuaTi.ZhuoLunCondition | src/da_liu_ren/da_liu_ren_guati.cpp:153-178 | 斫轮卦 holds exactly when `chu` is Mao and either the stem Yang Spirit is Mao on a Geng or Xin day, or Mao stands over Shen or You |
| LiuRenGuaTi.LuoWangBranches | src/da_liu_ren/da_liu_ren_guati.cpp:244-254 | the net is drawn over seven branches: the four upper branches and the three transmissions |
| LiuRenGuaTi.CheckLuoWang | src/da_liu_ren/da_liu_ren_guati.cpp:240-265 | the loop decides that Chen, Xu, Chou and Wei are all among those seven branches |
| LiuRenGuaTi.LianZhuLianRu | src/da_liu_ren/da_liu_ren_guati.cpp:269-295 | 连珠 holds iff both steps are +1 and 连茹 iff both are -1; never both; (Zi,Chou,Yin) is 连珠 and (Yin,Chou,Zi) is 连茹 |
| LiuRenGuaTi.Rank | src/da_liu_ren/da_liu_ren_guati.cpp:12-69 | every pattern has one position below 13 in the fixed order of the checks |
| LiuRenGuaTi.Verdicts | src/da_liu_ren/da_liu_ren_guati.cpp:12-69 | thirteen verdicts, the one at a pattern's rank being that pattern's predicate |
| LiuRenGuaTi.Test | src/da_liu_ren/da_liu_ren_guati.cpp:21-68 | the test `judge_all` runs for a pattern answers exactly that pattern's predicate |
| LiuRenGuaTi.JudgeAll | src/da_liu_ren/da_liu_ren_guati.cpp:12-69 | the sequence of `if`s appends exactly the patterns whose verdict is true, in check order |
| LiuRenGuaTi.SelectStep | src/da_liu_ren/da_liu_ren_guati.cpp:12-69 | one more test in the list appends its pattern exactly when its verdict is true, leaving the earlier names unchanged |
| LiuRenGuaTi.RankOfCheck | src/da_liu_ren/da_liu_ren_guati.cpp:21-68 | the i-th test of `judge_all` is the pattern of rank i |
| LiuRenGuaTi.SelectMembers | src/da_liu_ren/da_liu_ren_guati.cpp:12-69 | a pattern is selected exactly when it is offered and its verdict is true |
| LiuRenGuaTi.SelectOrdered | src/da_liu_ren/da_liu_ren_guati.cpp:12-69 | selection keeps the offered order |
| LiuRenGuaTi.SelectAll | src/da_liu_ren/da_liu_ren_guati.cpp:12-69 | from the full list each pattern appears at most once, in the order of the checks, exactly when its verdict is true |
| LiuRenGuaTi.JudgeAllSpec | src/da_liu_ren/da_liu_ren_guati.cpp:12-69 | `judge_all` names each of its 13 patterns at most once, in check order, exactly when the pattern's predicate holds |
| LiuRenShenSha.FindMengZhi | src/da_liu_ren/da_liu_ren_shen_sha.cpp:16-26 | the three-step search returns the meng branch of the input's residue class mod 4, so its default `Yin` is never reached |
| LiuRenShenSha.FindZhongZhi | src/da_liu_ren/da_liu_ren_shen_sha.cpp:29-39 | the three-step search returns the zhong branch of the input's residue class mod 4, so its default `Zi` is never reached |
| LiuRenShenSha.MonthOffset | src/da_liu_ren/da_liu_ren_shen_sha.cpp:260-274 | the month's distance from Yin lies in 0..11 |
| LiuRenShenSha.Season | src/da_liu_ren/da_liu_ren_shen_sha.cpp:319-328 | the season of a month is one of four |
| LiuRenShenSha.Positions | src/da_liu_ren/da_liu_ren_shen_sha.cpp:472-553 | `calculate` gives every spirit a branch, each the one its `calc_*` function computes |
| LiuRenShenSha.MappingLists | src/da_liu_ren/da_liu_ren_shen_sha.cpp:564-646 | the index holds a branch exactly when some mapped spirit sits on it, and then lists those spirits in mapping order |
| LiuRenShenSha.LabelsAtMembers | src/da_liu_ren/da_liu_ren_shen_sha.cpp:564-646 | a spirit is listed on branch `b` exactly when it is mapped and sits on `b` |
| LiuRenShenSha.LabelsAtDistinct | src/da_liu_ren/da_liu_ren_shen_sha.cpp:564-646 | no spirit is listed twice on one branch |
| LiuRenShenSha.ShenShaResult.constructor | src/da_liu_ren/da_liu_ren_shen_sha.cpp:473 | a fresh result has no positions and an empty branch index |
| LiuRenShenSha.ShenShaResult.BuildZhiMapping | src/da_liu_ren/da_liu_ren_shen_sha.cpp:564-646 | clears the index and then appends each mapped spirit once to the list of its branch; the positions stay as they were |
| LiuRenShenSha.ShenShaResult.GetShenShaOnZhi | src/da_liu_ren/da_liu_ren_shen_sha.cpp:648-656 | the list of the branch, or an empty list for a branch with no entry |
| LiuRenShenSha.Calculate | src/da_liu_ren/da_liu_ren_shen_sha.cpp:472-559 | a fresh result whose positions are those of every `calc_*` and whose index is built from them |
| LiuRenShenShaProperties.GroupSearch | src/da_liu_ren/da_liu_ren_shen_sha.cpp:16-39 | every branch of one group of four finds the same meng and the same zhong branch |
| LiuRenShenShaProperties.SameResidue | src/da_liu_ren/da_liu_ren_shen_sha.cpp:16-39 | two meng (or two zhong) branches in one residue class mod 4 are equal |
| LiuRenShenShaProperties.Breakers | src/da_liu_ren/da_liu_ren_shen_sha.cpp:479-480 | `yue_po = month + 6` and `ri_po = day + 6` |
| LiuRenShenShaProperties.PhysicianShaman | src/da_liu_ren/da_liu_ren_shen_sha.cpp:511-514 | 天巫 = 天医, 地巫 = 地医, and 地医 = 天医 + 6 (lines 251-253) |
| LiuRenShenShaProperties.MoundsAndTombs | src/da_liu_ren/da_liu_ren_shen_sha.cpp:190-239 | 三丘 = 寡宿, 五墓 = 三丘 + 6 and 孤辰 = 寡宿 + 4 |
| LiuRenShenShaProperties.TwinSpirits | src/da_liu_ren/da_liu_ren_shen_sha.cpp:500-508 | 天诏 and 飞魂 come from one function, 死气 and 谩语 from another |
| LiuRenShenShaProperties.PostHorses | src/da_liu_ren/da_liu_ren_shen_sha.cpp:54-106 | the year and month post horses are the opposite of the meng branch of their branch's group and are meng; so is the day horse, taken from the engine's own day branch (lines 401-404) |
| LiuRenShenShaProperties.PeachBlossom | src/da_liu_ren/da_liu_ren_shen_sha.cpp:1116-1136 | 咸池 = 桃花, which is the zhong branch just after the meng branch of the day branch's group |
| LiuRenShenShaProperties.HeInvolution | src/da_liu_ren/da_liu_ren_shen_sha.cpp:880-896 | the six-harmony table is total, pairs each branch with the one summing with it to 1 mod 12, never with itself, and is its own inverse (also lines 939-954) |
| LiuRenShenShaProperties.PoSuiRange | src/da_liu_ren/da_liu_ren_shen_sha.cpp:260-279 | `calc_po_sui` gives only You, Si or Chou, cycling with the month, so its last case is unreachable |
| LiuRenShenShaProperties.SangCheRange | src/da_liu_ren/da_liu_ren_shen_sha.cpp:319-333 | the table index `offset / 3` is always in 0..3, one entry per season |
| LiuRenShenShaProperties.PunishCycles | src/da_liu_ren/da_liu_ren_shen_sha.cpp:863-878 | the year and month punishments cycle Yin→Si→Shen→Yin and Chou→Xu→Wei→Chou, swap Zi and Mao, and send the self-punishing branches to Zi (also lines 959-973) |
| LiuRenShenShaProperties.DayPairs | src/da_liu_ren/da_liu_ren_shen_sha.cpp:1046-1188 | 日禄, 羊刃 and 日德 are the day branch exactly when the day pillar is one of their listed pairs, and Zi otherwise |
| LiuRenShenShaProperties.RiLuPairsUnique | src/da_liu_ren/da_liu_ren_shen_sha.cpp:1082-1099 | the 日禄 pairs give every stem exactly one branch |
| LiuRenShenShaProperties.LuOf | src/da_liu_ren/da_liu_ren_shen_sha.cpp:1082-1099 | the branch each stem is paired with in the 日禄 list |
| LiuRenShenShaProperties.SeasonTables | src/da_liu_ren/da_liu_ren_shen_sha.cpp:108-167 | 皇书, 天喜 and 火鬼 (lines 975-993) are each one branch per season |
| LiuRenShenShaProperties.SameSeason | src/da_liu_ren/da_liu_ren_shen_sha.cpp:108-167 | two months of the same season share their 皇书, 天喜, 火鬼 and 丧车 |
| LiuRenShenShaProperties.RiQiZhiYiClosedForm | src/da_liu_ren/da_liu_ren_shen_sha.cpp:432-467 | 日奇 and 支仪 count back from Wu for the first six indices and run on from Wei for the rest |
| LiuRenShenShaProperties.RiQiZhiYiInjective | src/da_liu_ren/da_liu_ren_shen_sha.cpp:432-467 | distinct stems give distinct 日奇 and distinct branches give distinct 支仪 |
| LiuRenShenShaProperties.WeekSpirits | src/da_liu_ren/da_liu_ren_shen_sha.cpp:411-457 | 旬仪 is the head of the day's week, 旬丁 (lines 1101-1104) the branch after it, and 旬奇 the marvel of that head |
| LiuRenShenShaProperties.MappedIndex | src/da_liu_ren/da_liu_ren_shen_sha.cpp:564-646 | every spirit except 日德 and 日禄 has a place in the mapping order |
| LiuRenShenShaProperties.MappedOrderDistinct | src/da_liu_ren/da_liu_ren_shen_sha.cpp:564-646 | `build_zhi_mapping` names no spirit twice and leaves out 日德 and 日禄, which `calculate` computes (lines 542-543) |
| LiuRenShenShaProperties.MappedIndexAt | src/da_liu_ren/da_liu_ren_shen_sha.cpp:564-646 | the place of the spirit at each position of the mapping order is that position |
| LiuRenShenShaProperties.OnZhiSpec | src/da_liu_ren/da_liu_ren_shen_sha.cpp:648-656 | after `calculate`, the spirits on a branch are exactly the mapped spirits sitting there, each once |
| ZiWeiStar.DiZhiToIndex | src/zi_wei/zi_wei_star.cpp:399-403 | the palace of a branch counts from Yin: the branch index minus two, modulo 12 |
| ZiWeiStar.ZiWeiOffset | src/zi_wei/zi_wei_star.cpp:46-53 | the search stops at an offset below the bureau number at which the day plus the offset divides by it |
| ZiWeiStar.ZiWeiOffsetLeast | src/zi_wei/zi_wei_star.cpp:46-53 | no smaller offset passes the divisibility test |
| ZiWeiStar.CRemTwelve | src/zi_wei/zi_wei_star.cpp:433 | adding a C++ remainder by twelve and normalising is adding its dividend |
| ZiWeiStar.CRemTwelveNeg | src/zi_wei/zi_wei_star.cpp:433 | subtracting a C++ remainder by twelve and normalising is subtracting its dividend |
| ZiWeiStar.ZiWeiTest | src/zi_wei/zi_wei_star.cpp:46-53 | below the stopping offset the C++ remainder is zero exactly at that offset |
| ZiWeiStar.ZiWeiMove | src/zi_wei/zi_wei_star.cpp:55-64 | moving by the offset from the C++ remainder of `quotient - 1` lands where moving from `quotient - 1` does |
| ZiWeiStar.ZiWeiPlace | src/zi_wei/zi_wei_star.cpp:55-66 | the placement after the loop, with C++ division and remainder, is the Zi Wei palace of the rhyme (even offset forward, odd backward) |
| ZiWeiStar.ZiWeiIndex | src/zi_wei/zi_wei_star.cpp:42-67 | the search loop and placement return the Zi Wei palace for every lunar day and bureau |
| ZiWeiStar.BackDistance | src/zi_wei/zi_wei_star.cpp:79-90 | a star placed `k` palaces behind Zi Wei is `k` palaces behind it |
| ZiWeiStar.AheadDistance | src/zi_wei/zi_wei_star.cpp:102-115 | a star placed `k` palaces ahead of Tian Fu is `k` palaces ahead of it |
| ZiWeiStar.ZiWeiGroupDistance | src/zi_wei/zi_wei_star.cpp:79-90 | the Zi Wei group places exactly its six stars at offsets 0, -1, -3, -4, -5, -8 from Zi Wei |
| ZiWeiStar.ZiWeiGroupBackInjective | src/zi_wei/zi_wei_star.cpp:79-90 | no two stars of the Zi Wei group share an offset |
| ZiWeiStar.ZiWeiGroupDistinct | src/zi_wei/zi_wei_star.cpp:79-90 | the six stars of the Zi Wei group sit in six different palaces |
| ZiWeiStar.TianFuGroupDistance | src/zi_wei/zi_wei_star.cpp:102-115 | the Tian Fu group places exactly its eight stars at offsets 0, 1, 2, 3, 4, 5, 6, 10 from Tian Fu |
| ZiWeiStar.TianFuGroupAheadInjective | src/zi_wei/zi_wei_star.cpp:102-115 | no two stars of the Tian Fu group share an offset |
| ZiWeiStar.TianFuGroupDistinct | src/zi_wei/zi_wei_star.cpp:102-115 | the eight stars of the Tian Fu group sit in eight different palaces |
| ZiWeiStar.ArrangeZiWeiGroup | src/zi_wei/zi_wei_star.cpp:79-90 | the map the method fills is the Zi Wei group placement |
| ZiWeiStar.ArrangeTianFuGroup | src/zi_wei/zi_wei_star.cpp:102-115 | the map the method fills is the Tian Fu group placement |
| ZiWeiStar.ZuoYou | src/zi_wei/zi_wei_star.cpp:180-186 | 左辅 and 右弼 mirror each other: their palaces sum to 10 mod 12 |
| ZiWeiStar.ChangQu | src/zi_wei/zi_wei_star.cpp:197-204 | 文昌 and 文曲 mirror each other: their palaces sum to 10 mod 12 |
| ZiWeiStar.KuiYue | src/zi_wei/zi_wei_star.cpp:216-239 | 天魁 and 天钺 never share a palace and sum to 4 mod 12 for every stem, so the `default` is unreachable |
| ZiWeiStar.YangTuo | src/zi_wei/zi_wei_star.cpp:274-279 | 擎羊 is one palace after 禄存 and 陀罗 one before |
| ZiWeiStar.KongJie | src/zi_wei/zi_wei_star.cpp:323-331 | 地空 and 地劫 mirror each other: their palaces sum to 6 mod 12 |
| ZiWeiStar.HongLuanTianXi | src/zi_wei/zi_wei_star.cpp:414-420 | 红鸾 plus the year branch is 1 mod 12 and 天喜 sits opposite 红鸾 |
| ZiWeiStar.DayOffset | src/zi_wei/zi_wei_star.cpp:433 | the late-Zi correction is always 0, because Zi's ordinal is 0 (also line 452) |
| ZiWeiStar.SanTaiBaZuo | src/zi_wei/zi_wei_star.cpp:429-440 | 三台 counts the day forward from 左辅 and 八座 backward from 右弼, for every day including negative ones |
| ZiWeiStar.EnGuangTianGui | src/zi_wei/zi_wei_star.cpp:449-459 | 恩光 and 天贵 count `day - 2` forward from 文昌 and 文曲 |
| ZiWeiStar.LongChiFengGe | src/zi_wei/zi_wei_star.cpp:468-473 | 龙池 and 凤阁 mirror each other: their palaces sum to 10 mod 12 |
| ZiWeiStar.TianCaiTianShou | src/zi_wei/zi_wei_star.cpp:482-487 | 天才 and 天寿 keep the distance between the Ming and the Shen palace |
| ZiWeiStar.TaiFuFengGao | src/zi_wei/zi_wei_star.cpp:495-500 | 台辅 sits four palaces after 封诰 |
| ZiWeiStar.GuChenGuaSu | src/zi_wei/zi_wei_star.cpp:592-609 | 孤辰 sits four palaces after 寡宿 in every season |
| ZiWeiStar.PoSui | src/zi_wei/zi_wei_star.cpp:624-636 | corrected 破碎: Si for Zi/Wu/Mao/You years, You for Yin/Shen/Si/Hai years, Chou for Chen/Xu/Chou/Wei years, as the comment above the table states |
| ZiWeiStar.TianYao | src/zi_wei/zi_wei_star.cpp:644-658 | 天刑 sits four palaces behind 天姚 |
| ZiWeiStar.JieShen | src/zi_wei/zi_wei_star.cpp:661-671 | corrected 解神: Shen for months one and two, then two palaces on for every further pair of months |
| ZiWeiStar.YinSha | src/zi_wei/zi_wei_star.cpp:706-710 | 阴煞 steps two palaces backward from Yin per month, within bounds for months 1..12 |
| ZiWeiStar.TianDeYueDe | src/zi_wei/zi_wei_star.cpp:718-723 | 天德 sits four palaces after 月德 |
| ZiWeiStar.TianKong | src/zi_wei/zi_wei_star.cpp:725-734 | corrected 天空: one palace after the palace of the year branch |
| ZiWeiStar.XunKong | src/zi_wei/zi_wei_star.cpp:743-755 | 旬空 always has the year branch's parity |
| ZiWeiStar.JieLuKongWang | src/zi_wei/zi_wei_star.cpp:767-777 | 空亡 sits right after 截路, on an even palace |
| ZiWeiStar.TianKuTianXu | src/zi_wei/zi_wei_star.cpp:788-793 | 天哭 and 天虚 mirror each other: their palaces sum to 8 mod 12 |
| ZiWeiStar.TianShiTianShang | src/zi_wei/zi_wei_star.cpp:805-825 | 天使 and 天伤 flank the palace opposite Ming; 天伤 goes after it for a yang man or a yin woman and before it otherwise |
| ZiWeiStar.NianJie | src/zi_wei/zi_wei_star.cpp:833-837 | the 年解 table counts the year branch backward from Xu |
| ZiWeiStarProperties.ZiWeiQuotientPositive | src/zi_wei/zi_wei_star.cpp:42-67 | for a lunar day of at least one the quotient of the topped-up day by the bureau number is at least one |
| ZiWeiStarProperties.ZiWeiDivisibleDay | src/zi_wei/zi_wei_star.cpp:42-67 | a day that divides by the bureau number needs no top-up, and Zi Wei sits at the quotient counted from Yin |
| ZiWeiStarProperties.ZiWeiFirstDay | src/zi_wei/zi_wei_star.cpp:42-67 | on the first lunar day Zi Wei sits in Chou, Chen, Hai, Wu and You for the Water 2 to Fire 6 bureaus |
| ZiWeiStarProperties.DiZhiToIndexRoundTrip | src/zi_wei/zi_wei_star.cpp:399-403 | `di_zhi_to_index` is a bijection: counting two branches on from a palace's number gives back the branch, and the other way round |
| ZiWeiStarProperties.DiZhiToIndexInjective | src/zi_wei/zi_wei_star.cpp:399-403 | different branches have different palaces |
| ZiWeiStarProperties.XianChiByMeng | src/zi_wei/zi_wei_star.cpp:570-581 | 咸池 is the branch after the triad's meng branch |
| ZiWeiStarProperties.HuaGaiByMeng | src/zi_wei/zi_wei_star.cpp:550-561 | 华盖 is the tomb branch of the triad, eight after its meng branch |
| ZiWeiStarProperties.JiangQianStartByMeng | src/zi_wei/zi_wei_star.cpp:954-965 | 将星 starts at the triad's central branch, four after its meng branch |
| ZiWeiStarProperties.HuoLingStartByTriad | src/zi_wei/zi_wei_star.cpp:290-312 | 火星 and 铃星 start alike for the three year branches of a triad |
| ZiWeiStarProperties.HuoLingHourStep | src/zi_wei/zi_wei_star.cpp:290-312 | a later hour moves 火星 and 铃星 one palace on |
| ZiWeiStarProperties.GuChenBySeason | src/zi_wei/zi_wei_star.cpp:592-609 | 孤辰 is the meng branch that follows the year's season |
| ZiWeiStarProperties.FeiLianByGroup | src/zi_wei/zi_wei_star.cpp:611-622 | the 蜚廉 table moves each group of three years eight or two branches on, as its rhyme says |
| ZiWeiStarProperties.LuCunIsLu | src/zi_wei/zi_wei_star.cpp:250-264 | 禄存 sits on the stem's lu branch, the same table the Da Liu Ren 日禄 uses |
| ZiWeiStarProperties.TianFuOfYinStem | src/zi_wei/zi_wei_star.cpp:512-527 | 天福 of a yin stem is one palace behind that of its yang partner |
| ZiWeiStarProperties.ZuoYouMonthStep | src/zi_wei/zi_wei_star.cpp:180-186 | a later month moves 左辅 one palace forward and 右弼 one back |
| ZiWeiStarProperties.ChangQuHourStep | src/zi_wei/zi_wei_star.cpp:197-204 | a later hour moves 文昌 one palace back and 文曲 one forward |
| ZiWeiStarProperties.KongJieHourStep | src/zi_wei/zi_wei_star.cpp:323-331 | a later hour moves 地空 one palace back and 地劫 one forward |
| ZiWeiStarProperties.TianWuPeriod | src/zi_wei/zi_wei_star.cpp:680-684 | 天巫 repeats every four months, always on a meng branch, and stays in bounds for months 1..12 |
| ZiWeiStarProperties.XunKongIsVoid | src/zi_wei/zi_wei_star.cpp:743-755 | `get_xun_kong_index` yields the ordinal of one of the year's two void branches, the one with the year branch's parity |
| ZiWeiStarProperties.PoSuiAsWrittenMisplaces | src/zi_wei/zi_wei_star.cpp:631-636 | the table as written sends the Mao year to You instead of Si, and agrees with its rhyme for only seven year branches |
| ZiWeiStarProperties.JieShenAsWrittenMisplaces | src/zi_wei/zi_wei_star.cpp:667-671 | the table as written sends month three to Shen instead of Xu, and agrees with its rhyme only for months one and two |
| ZiWeiStarProperties.TianKongAsWrittenMisplaces | src/zi_wei/zi_wei_star.cpp:731-734 | as written 天空 lands two palaces after the rhyme's palace for every year |
| ZiWeiRings.Step | src/zi_wei/zi_wei_star.cpp:893-900 | every palace holds exactly one spirit of the ring: `Step` finds the spirit written at a palace |
| ZiWeiRings.StepSlot | src/zi_wei/zi_wei_star.cpp:893-900 | every spirit's palace leads back to that spirit |
| ZiWeiRings.SlotInjective | src/zi_wei/zi_wei_star.cpp:893-900 | no two spirits of a ring share a palace |
| ZiWeiRings.ArrangedAt | src/zi_wei/zi_wei_star.cpp:893-900 | the `i`-th spirit of the order sits on `fix_index(start ± i)` |
| ZiWeiRings.ArrangedStart | src/zi_wei/zi_wei_star.cpp:893-900 | the first spirit of the order sits on the normalised starting palace |
| ZiWeiRings.StepForward | src/zi_wei/zi_wei_star.cpp:893-900 | going forward, palace `p` holds the spirit `p - start` places on, one whole turn added below the start |
| ZiWeiRings.ArrangedForwardRotates | src/zi_wei/zi_wei_star.cpp:893-900 | a forward ring is a rotation of its order |
| ZiWeiRings.ArrangedBackwardReverses | src/zi_wei/zi_wei_star.cpp:893-900 | a backward ring is the forward ring of the reversed order, started one palace further on |
| ZiWeiRings.ArrangedPermutes | src/zi_wei/zi_wei_star.cpp:874-903 | every ring is a permutation of its order: each of the twelve palaces is written exactly once |
| ZiWeiRings.ArrangedBySlots | src/zi_wei/zi_wei_star.cpp:893-900 | a result holding the `k`-th spirit at slot `k` for every `k` is the arranged ring |
| ZiWeiRings.Arrange | src/zi_wei/zi_wei_star.cpp:889-902 | the loop shared by the four ring functions, over a value-initialised result, builds the arranged ring |
| ZiWeiRings.ArrangeChangSheng12 | src/zi_wei/zi_wei_star.cpp:874-903 | 长生 ring from the bureau's starting palace, forward exactly when `is_male` equals the year branch being yang |
| ZiWeiRings.ArrangeBoShi12 | src/zi_wei/zi_wei_star.cpp:913-943 | 博士 ring from 禄存, in the same direction rule |
| ZiWeiRings.ArrangeSuiQian12 | src/zi_wei/zi_wei_star.cpp:975-994 | 岁前 ring forward from the year branch's palace |
| ZiWeiRings.ArrangeJiangQian12 | src/zi_wei/zi_wei_star.cpp:1003-1021 | 将前 ring forward from the triad's 将星 palace |
| ZiWeiRings.ChangShengRing | src/zi_wei/zi_wei_star.cpp:874-903 | 长生 sits on the bureau's starting palace and 帝旺 four spirits along |
| ZiWeiRings.BoShiRing | src/zi_wei/zi_wei_star.cpp:913-943 | 博士 sits on 禄存 |
| ZiWeiRings.SuiQianRing | src/zi_wei/zi_wei_star.cpp:975-994 | 岁建 sits on the year branch's palace and 白虎 eight branches on |
| ZiWeiRings.JiangQianRing | src/zi_wei/zi_wei_star.cpp:1003-1021 | 将星 sits on its starting palace and the ring's 华盖 falls where `get_hua_gai_index` puts it for the same year |
| ZiWeiRings.JiangQianXianChi | src/zi_wei/zi_wei_star.cpp:1003-1021 | the ring's 咸池 falls where `get_xian_chi_index` puts it for the same year |
| ZiWeiHoroscope.AllStarsComplete | src/zi_wei/zi_wei_horoscope.cpp:117-123 | the fourteen main stars, in the key order a star-keyed map is iterated, list every star exactly once |
| ZiWeiHoroscope.SiHuaNamesAsWritten | src/zi_wei/zi_wei_horoscope.cpp:116-123 | the loop that fills a period's four names walks the stem's table in map key order and keeps the first four keys |
| ZiWeiHoroscope.MapOrderNamesComplete | src/zi_wei/zi_wei_horoscope.cpp:116-123 | a stem's table has at most four keys, so a star is named exactly when the table lists it |
| ZiWeiHoroscope.MapOrderNamesMisorder | src/zi_wei/zi_wei_horoscope.cpp:116-123 | for Jia the first name as written is Tai Yang, whose transformation is Ji, while the Lu star of Jia is Lian Zhen |
| ZiWeiHoroscope.SiHuaTableKeys | src/zi_wei/zi_wei_star.cpp:333-394 | every stem's transformation table holds at most four stars |
| ZiWeiHoroscope.DaXianStem | src/zi_wei/zi_wei_horoscope.cpp:102-105 | the decade stem is Jia moved `i` stems forward or backward around the ten stems |
| ZiWeiHoroscope.DaXianStemAsWrittenNegative | src/zi_wei/zi_wei_horoscope.cpp:103-104 | with the C++ remainder the twelfth decade of a backward chart gets -1, no stem; every other decade gets the right stem |
| ZiWeiHoroscope.DaXianStemSteps | src/zi_wei/zi_wei_horoscope.cpp:102-105 | the first decade has stem Jia, and each next decade steps one stem in the chart's direction |
| ZiWeiHoroscope.PalaceBranch | src/zi_wei/zi_wei_horoscope.cpp:112 | the branch given to a palace is the inverse of `di_zhi_to_index` |
| ZiWeiHoroscope.PalaceBranchAsWrittenMisplaces | src/zi_wei/zi_wei_horoscope.cpp:112 | casting the palace number to a branch names the branch two palaces back, so the Yin palace gets Zi, for every palace |
| ZiWeiHoroscope.Decade | src/zi_wei/zi_wei_horoscope.cpp:98-114 | one pass of the loop builds the `i`-th decade and places it on `fix_index(ming ± i)`, with the corrected stem, branch and transformation order of Findings rows 4-6 |
| ZiWeiHoroscope.ArrangeDaXian | src/zi_wei/zi_wei_horoscope.cpp:81-127 | the decades laid out as a ring from the Ming palace, in the 阳男阴女 direction; each decade has the corrected stem, branch and transformation order of Findings rows 4-6 |
| ZiWeiHoroscope.DaXianChart | src/zi_wei/zi_wei_horoscope.cpp:89-100 | the Ming palace's decade starts at the bureau number; each decade spans ten years; the next palace in the chart's direction starts ten years later |
| ZiWeiHoroscope.DaXianEveryPalace | src/zi_wei/zi_wei_horoscope.cpp:97-124 | every palace holds exactly one decade, which names that palace and its branch and carries its own stem's transformations in Lu, Quan, Ke, Ji order (the corrected branch and order of Findings rows 5-6) |
| ZiWeiHoroscope.XiaoXian | src/zi_wei/zi_wei_horoscope.cpp:142-167 | ages one to six take the childhood table; any other age lies `age - 1` palaces from Yin, forward or backward by the 阳男阴女 rule |
| ZiWeiHoroscope.XiaoXianChildhood | src/zi_wei/zi_wei_horoscope.cpp:144-161 | the six childhood palaces are all different, age one is the Yin palace where the yearly count also starts, and at age seven both directions meet on the palace opposite Yin |
| ZiWeiHoroscope.XiaoXianStep | src/zi_wei/zi_wei_horoscope.cpp:153-166 | from age seven each year moves the Xiao Xian one palace in the chart's direction, and twelve years bring it back |
| ZiWeiHoroscope.LiuNian | src/zi_wei/zi_wei_horoscope.cpp:176-204 | the flowing year sits on the year branch's palace, so that two palaces on gives back the branch, and it keeps the year's stem, branch and transformations, in Lu, Quan, Ke, Ji order (corrected, Findings row 6) |
| ZiWeiHoroscope.LiuYueShift | src/zi_wei/zi_wei_horoscope.cpp:215-249 | the flowing month is the flowing year's palace moved by the months since the birth month, and in the birth month it is that palace itself |
| ZiWeiHoroscope.LiuYue | src/zi_wei/zi_wei_horoscope.cpp:215-249 | the flowing month sits the months since the birth month on from the flowing year's palace and keeps the month's stem and branch; its transformations are in Lu, Quan, Ke, Ji order (corrected, Findings row 6) |
| ZiWeiHoroscope.LiuRi | src/zi_wei/zi_wei_horoscope.cpp:258-284 | the flowing day sits `day - 1` palaces on from the normalised flowing month and keeps the day's stem and branch; its transformations are in Lu, Quan, Ke, Ji order (corrected, Findings row 6) |
| ZiWeiHoroscope.LiuShi | src/zi_wei/zi_wei_horoscope.cpp:293-319 | the flowing hour sits the hour's branch number on from the normalised flowing day, its branch is the hour branch and it keeps the hour stem; its transformations are in Lu, Quan, Ke, Ji order (corrected, Findings row 6) |
| ZiWeiHoroscope.LiuRiIndex | src/zi_wei/zi_wei_horoscope.cpp:258-265 | the flowing day is the flowing month's palace moved `day - 1` palaces on |
| ZiWeiHoroscope.LiuShiIndex | src/zi_wei/zi_wei_horoscope.cpp:293-300 | the flowing hour is the flowing day's palace moved by the hour's branch number |
| ZiWeiHoroscope.LiuRiLiuShiStart | src/zi_wei/zi_wei_horoscope.cpp:258-300 | the first day of a month and the Zi hour of a day stay on the palace they count from |
| ZiWeiHoroscope.MaIndexByMeng | src/zi_wei/zi_wei_horoscope.cpp:348-358 | the flowing Tian Ma sits opposite the meng branch of the branch's triad |
| ZiWeiHoroscope.Pushes | src/zi_wei/zi_wei_horoscope.cpp:360-395 | a period pushes ten flowing stars, plus 年解 in yearly scope |
| ZiWeiHoroscope.PlacedCollects | src/zi_wei/zi_wei_horoscope.cpp:372-395 | after the pushes each palace's list holds exactly the stars pushed onto it, in push order |
| ZiWeiHoroscope.PushAll | src/zi_wei/zi_wei_horoscope.cpp:372-395 | the loop of `push_back`s builds the per-palace lists |
| ZiWeiHoroscope.HoroscopeStarsOf | src/zi_wei/zi_wei_horoscope.cpp:328-398 | twelve palaces, each naming its own index and holding the stars pushed onto it, in order |
| ZiWeiHoroscope.HoroscopeStarCount | src/zi_wei/zi_wei_horoscope.cpp:328-398 | the twelve lists together hold ten stars, eleven in yearly scope: no push is lost |
| ZiWeiSiHua.SiHuaIndex | src/zi_wei/zi_wei_sihua.cpp:134 | the slot of a transformation is the inverse of `static_cast<SiHua>(i)`: Lu 0, Quan 1, Ke 2, Ji 3 |
| ZiWeiSiHua.SiHuaRoundTrip | src/zi_wei/zi_wei_sihua.cpp:134 | casting a slot to a transformation and back gives the slot |
| ZiWeiSiHua.SiHuaStars | src/zi_wei/zi_wei_sihua.cpp:66-127 | four slots per stem; every stem has a Lu and a Quan star; no star fills two slots |
| ZiWeiSiHua.SiHuaStarsMissing | src/zi_wei/zi_wei_sihua.cpp:66-127 | Bing, Wu, Ren and Xin have no Ke star and Ji and Xin no Ji star, and no other stem lacks one |
| ZiWeiSiHua.SiHuaStarsMatchTable | src/zi_wei/zi_wei_sihua.cpp:66-127 | slot `i` of a stem holds a star exactly when `get_si_hua_table` gives that star the `i`-th transformation |
| ZiWeiSiHua.StarSiHuaType | src/zi_wei/zi_wei_sihua.cpp:129-139 | a star's transformation under a stem is the one the stem's table gives it, and none when the table does not list it |
| ZiWeiSiHua.FirstPalace | src/zi_wei/zi_wei_sihua.cpp:176-183 | the search returns -1 exactly when no palace lists the name; otherwise it returns the lowest palace that does |
| ZiWeiSiHua.TargetMeaning | src/zi_wei/zi_wei_sihua.cpp:162-190 | a slot's palace holds its star's name and no lower palace does; it is -1 exactly when the slot is empty or no palace lists the star |
| ZiWeiSiHua.GongEntrySlot | src/zi_wei/zi_wei_sihua.cpp:153-191 | each palace's entry has four slots; slot `s` carries transformation `s`, the stem's star for it and that star's palace |
| ZiWeiSiHua.ZiHuaKindsMember | src/zi_wei/zi_wei_sihua.cpp:225-233 | a transformation is listed for a palace exactly when the palace stem's star for it sits in that palace |
| ZiWeiSiHua.AllZiHuaSound | src/zi_wei/zi_wei_sihua.cpp:222-241 | `get_all_zi_hua` lists only palaces with self-transformations, each with its own list, in ascending palace order |
| ZiWeiSiHua.AllZiHuaComplete | src/zi_wei/zi_wei_sihua.cpp:222-241 | every palace with a self-transformation is listed |
| ZiWeiSiHua.RelationsFromMeaning | src/zi_wei/zi_wei_sihua.cpp:258-277 | the flights out of a palace are exactly its located non-empty slots, each with that slot's transformation, star and palace |
| ZiWeiSiHua.FlightLandsOnStar | src/zi_wei/zi_wei_sihua.cpp:258-277 | a flight carries the stem's star of its transformation into the lowest palace listing that star |
| ZiWeiSiHua.RelationsIntoFrom | src/zi_wei/zi_wei_sihua.cpp:279-300 | a flight from palace `p` lands in `q` exactly when it is a flight out of `p` aimed at `q` |
| ZiWeiSiHua.RelationsToSound | src/zi_wei/zi_wei_sihua.cpp:279-300 | every flight listed into `q` is a flight out of one of the palaces and lands in `q` |
| ZiWeiSiHua.RelationsToComplete | src/zi_wei/zi_wei_sihua.cpp:279-300 | every flight out of any palace that lands in `q` is listed |
| ZiWeiSiHua.ChainStep | src/zi_wei/zi_wei_sihua.cpp:344-363 | one step that neither returns home nor revisits keeps the search state: the chain stays linked and `visited` is exactly the palaces it reached |
| ZiWeiSiHua.ChainRecorded | src/zi_wei/zi_wei_sihua.cpp:344-356 | the chain recorded after one step is linked, of one transformation, within the depth bound, and 回本 exactly when its last step lands back where the search started |
| ZiWeiSiHua.ChainsWellFormed | src/zi_wei/zi_wei_sihua.cpp:318-369 | every chain the recursive search records is well formed and, before its last step, neither returns home nor lands twice in one palace |
| ZiWeiSiHua.HuiBenOnly | src/zi_wei/zi_wei_sihua.cpp:377-381 | the filter keeps chains of the input that return home, and keeps all of them |
| ZiWeiSiHua.ChainsComplete | src/zi_wei/zi_wei_sihua.cpp:318-369 | from a search state, every continuation made of flights of the type, linked, within the depth bound and revisiting nothing, is recorded with its 回本 flag |
| ZiWeiSiHua.AllChainsRecorded | src/zi_wei/zi_wei_sihua.cpp:302-369 | every linked chain of flights of one type from the start palace, within the cap and revisiting nothing, is recorded, flagged 回本 exactly when it ends at the start |
| ZiWeiSiHua.ChainsAreFlights | src/zi_wei/zi_wei_sihua.cpp:318-369 | from a chain of flights, every chain the search records is made of flights of the type, each step the flight of a found slot of the palace it leaves |
| ZiWeiSiHua.ExtendedAreFlights | src/zi_wei/zi_wei_sihua.cpp:334-366 | the chain recorded after one flight, and everything searched beyond it, consist of flights |
| ZiWeiSiHua.SearchExact | src/zi_wei/zi_wei_sihua.cpp:302-369 | the chains searched with the depth capped at four are well formed, made of flights and revisit nothing, and every such chain within the cap is among them |
| ZiWeiSiHua.HuiBenChainsAreFlights | src/zi_wei/zi_wei_sihua.cpp:371-385 | every kept returning chain is made of flights of its own transformation |
| ZiWeiSiHua.HuiBenChainsComplete | src/zi_wei/zi_wei_sihua.cpp:371-385 | every chain of flights of one transformation from the start, within four steps, revisiting nothing and ending at the start, is kept |
| ZiWeiSiHua.HuiBenChainsWellFormed | src/zi_wei/zi_wei_sihua.cpp:371-385 | every kept chain returns home, is at most four steps long and keeps one transformation throughout |
| ZiWeiSiHua.SiHuaSystem.constructor | src/zi_wei/zi_wei_sihua.cpp:143-148 | builds the system from the palaces' stems and star lists; every entry is its stem's four located slots |
| ZiWeiSiHua.SiHuaSystem.CalculateGongGanSiHua | src/zi_wei/zi_wei_sihua.cpp:150-192 | palace `i` gets index `i`, its own stem and that stem's located slots; the star lists are unchanged |
| ZiWeiSiHua.SiHuaSystem.LocateSlots | src/zi_wei/zi_wei_sihua.cpp:159-190 | the slot loop locates each of the stem's stars and marks an empty slot with -1 |
| ZiWeiSiHua.SiHuaSystem.FindStarGong | src/zi_wei/zi_wei_sihua.cpp:176-183 | the lowest palace listing the name, or -1 |
| ZiWeiSiHua.SiHuaSystem.HasZiHua | src/zi_wei/zi_wei_sihua.cpp:194-205 | true exactly when some star of the normalised palace's stem sits in that palace |
| ZiWeiSiHua.SiHuaSystem.HasZiHuaType | src/zi_wei/zi_wei_sihua.cpp:207-220 | true exactly when the palace stem's star of the given transformation sits in that palace |
| ZiWeiSiHua.SiHuaSystem.GetAllZiHua | src/zi_wei/zi_wei_sihua.cpp:222-241 | the self-transforming palaces, as `AllZiHuaSound` and `AllZiHuaComplete` describe them |
| ZiWeiSiHua.SiHuaSystem.ZiHuaTypes | src/zi_wei/zi_wei_sihua.cpp:228-233 | the transformations of a palace whose star sits in the palace itself, in slot order |
| ZiWeiSiHua.SiHuaSystem.FliesTo | src/zi_wei/zi_wei_sihua.cpp:243-256 | true exactly when the given transformation of the source palace's stem lands in the target palace; an empty slot never flies |
| ZiWeiSiHua.SiHuaSystem.GetFeiHuaFrom | src/zi_wei/zi_wei_sihua.cpp:258-277 | the flights out of the normalised palace, in slot order |
| ZiWeiSiHua.SiHuaSystem.GetFeiHuaTo | src/zi_wei/zi_wei_sihua.cpp:279-300 | the flights into the normalised palace, by source palace and then slot |
| ZiWeiSiHua.SiHuaSystem.FlightsInto | src/zi_wei/zi_wei_sihua.cpp:284-296 | the flights of one source palace into the target |
| ZiWeiSiHua.SiHuaSystem.GetFeiHuaChains | src/zi_wei/zi_wei_sihua.cpp:302-316 | the chains searched with the depth capped at four; each is well formed and revisits nothing, and made of flights of slots of the palaces it leaves, and every linked, non-revisiting chain of flights of the type from the start within the cap is among them |
| ZiWeiSiHua.SiHuaSystem.FindChainsRecursive | src/zi_wei/zi_wei_sihua.cpp:318-369 | appends the chains recorded from the current palace and hands the chain and the visited set back as they came in |
| ZiWeiSiHua.SiHuaSystem.VisitSlot | src/zi_wei/zi_wei_sihua.cpp:334-367 | a slot of the searched transformation whose star was found takes one step; other slots add nothing |
| ZiWeiSiHua.SiHuaSystem.FlyStep | src/zi_wei/zi_wei_sihua.cpp:336-366 | records the extended chain, searches on unless it returned home or reached a visited palace, and undoes the push and the insert |
| ZiWeiSiHua.SiHuaSystem.FindHuiBenChains | src/zi_wei/zi_wei_sihua.cpp:371-385 | the chains of all four transformations that return home, each well formed, at most four steps long and made of flights of its transformation; every returning chain of flights of one transformation within four steps that revisits nothing is among them |
| ZiWeiSiHua.SiHuaSystem.KeepHuiBen | src/zi_wei/zi_wei_sihua.cpp:377-381 | the loop keeps, in order, the chains that return home |
| ZiWeiSanFang.ZhengYaoNames | src/zi_wei/zi_wei_sanfang.cpp:231-238 | the fourteen 正曜 names are exactly the names of the main stars |
| ZiWeiSanFang.StarSetsDisjoint | src/zi_wei/zi_wei_sanfang.cpp:157-215 | no name is at once a main star, a 吉星 and a 煞星 |
| ZiWeiSanFang.MainStars | src/zi_wei/zi_wei_sanfang.cpp:87-91 | the borrowed list holds only main stars |
| ZiWeiSanFang.MainStarsMember | src/zi_wei/zi_wei_sanfang.cpp:87-91 | a name is borrowed exactly when it is listed and a main star; nothing is borrowed exactly when no listed name is a main star |
| ZiWeiSanFang.MainStarsAppend | src/zi_wei/zi_wei_sanfang.cpp:87-91 | filtering a concatenation is concatenating the filtered parts |
| ZiWeiSanFang.MainStarsKeeps | src/zi_wei/zi_wei_sanfang.cpp:87-91 | a list of main stars only is borrowed whole |
| ZiWeiSanFang.MainStarsIdempotent | src/zi_wei/zi_wei_sanfang.cpp:87-91 | filtering twice is filtering once |
| ZiWeiSanFang.MembershipEdgeCases | src/zi_wei/zi_wei_sanfang.cpp:118-140 | an empty request has all and none of its names present; a single name is all or any exactly when it is present |
| ZiWeiSanFang.MembershipAppend | src/zi_wei/zi_wei_sanfang.cpp:118-140 | all-of splits by conjunction and any-of by disjunction over a concatenated request |
| ZiWeiSanFang.HasAll | src/zi_wei/zi_wei_sanfang.cpp:121-127 | true exactly when every requested name is in the pool |
| ZiWeiSanFang.HasAny | src/zi_wei/zi_wei_sanfang.cpp:133-139 | true exactly when some requested name is in the pool |
| ZiWeiSanFang.SideHas | src/zi_wei/zi_wei_sanfang.cpp:170-175 | true exactly when the side's list holds a star of the kind |
| ZiWeiSanFang.GetSanFangSiZheng | src/zi_wei/zi_wei_sanfang.cpp:34-43 | the own palace is the normalised index |
| ZiWeiSanFang.SanFangClosedForm | src/zi_wei/zi_wei_sanfang.cpp:34-43 | the opposite palace is six away, 财帛 eight on and 官禄 four on, wrapped once |
| ZiWeiSanFang.SanFangShape | src/zi_wei/zi_wei_sanfang.cpp:34-43 | the four palaces are distinct palaces; the two triad palaces share the own palace's residue mod 4 and the opposite does not; the opposite of the opposite is the own palace |
| ZiWeiSanFang.SanFangTriadShared | src/zi_wei/zi_wei_sanfang.cpp:34-43 | the triad of the 财帛 palace is the same three palaces |
| ZiWeiSanFang.SanFangNormalises | src/zi_wei/zi_wei_sanfang.cpp:34-43 | indices twelve apart, or an index and its normal form, give the same four palaces |
| ZiWeiSanFang.GetJiaGongInfo | src/zi_wei/zi_wei_sanfang.cpp:45-53 | the target palace is the normalised index |
| ZiWeiSanFang.JiaGongNeighbours | src/zi_wei/zi_wei_sanfang.cpp:45-53 | the left and right palaces are the target's two neighbours, and the three are distinct |
| ZiWeiSanFang.IsKongGong | src/zi_wei/zi_wei_sanfang.cpp:55-69 | a palace is empty exactly when no listed star is a main star, that is when it has nothing to lend |
| ZiWeiSanFang.GetJieXingInfo | src/zi_wei/zi_wei_sanfang.cpp:71-94 | the normalised palace, its opposite and the main stars of the opposite palace's list, in order |
| ZiWeiSanFang.AllKongGongSound | src/zi_wei/zi_wei_sanfang.cpp:217-229 | only empty palaces are listed, in ascending order, each borrowing the main stars of its opposite |
| ZiWeiSanFang.AllKongGongComplete | src/zi_wei/zi_wei_sanfang.cpp:217-229 | every empty palace is listed |
| ZiWeiSanFang.GetAllKongGong | src/zi_wei/zi_wei_sanfang.cpp:217-229 | the loop builds the list `AllKongGongSound` and `AllKongGongComplete` describe |
| ZiWeiSanFang.SanFangStarsMember | src/zi_wei/zi_wei_sanfang.cpp:101-111 | a name is among the 三方四正 stars exactly when one of the four palaces lists it |
| ZiWeiSanFang.GetSanFangStars | src/zi_wei/zi_wei_sanfang.cpp:101-111 | the stars of the four palaces, concatenated in own, opposite, 财帛, 官禄 order |
| ZiWeiSanFang.SanFangHasStar | src/zi_wei/zi_wei_sanfang.cpp:113-116 | true exactly when the name is among the 三方四正 stars |
| ZiWeiSanFang.SanFangHasAllStars | src/zi_wei/zi_wei_sanfang.cpp:118-128 | true exactly when every name is among the 三方四正 stars |
| ZiWeiSanFang.SanFangHasAnyStar | src/zi_wei/zi_wei_sanfang.cpp:130-140 | true exactly when some name is among the 三方四正 stars |
| ZiWeiSanFang.GetJiaGongStars | src/zi_wei/zi_wei_sanfang.cpp:142-155 | the left neighbour's stars and then the right's; a name is there exactly when a neighbour lists it |
| ZiWeiSanFang.IsJiXingJia | src/zi_wei/zi_wei_sanfang.cpp:157-185 | true exactly when both neighbours hold a 吉星 |
| ZiWeiSanFang.IsShaXingJia | src/zi_wei/zi_wei_sanfang.cpp:187-215 | true exactly when both neighbours hold a 煞星 |
| ZiWeiSanFang.FlankNeedsBothSides | src/zi_wei/zi_wei_sanfang.cpp:184 | a palace with an empty neighbour is never flanked |
| ZiWeiGeJu.GongHasAllStars | src/zi_wei/zi_wei_geju.cpp:1023-1033 | true exactly when every name is in the normalised palace's list |
| ZiWeiGeJu.GongHasAnyStar | src/zi_wei/zi_wei_geju.cpp:1035-1045 | true exactly when some name is in the normalised palace's list |
| ZiWeiGeJu.GongHasEmptyList | src/zi_wei/zi_wei_geju.cpp:1023-1045 | an empty request is met by all-of and never by any-of |
| ZiWeiGeJu.GetZhuXingInGong | src/zi_wei/zi_wei_geju.cpp:1047-1062 | the palace's main stars in list order; a name is there exactly when the palace lists it and it is a main star |
| ZiWeiGeJu.CountIn | src/zi_wei/zi_wei_geju.cpp:653-679 | the count of present names never exceeds the names asked for |
| ZiWeiGeJu.JiOrder | src/zi_wei/zi_wei_geju.cpp:49-158 | the twenty-six auspicious checks, in the order `analyze_ji_ge` runs them |
| ZiWeiGeJu.XiongOrder | src/zi_wei/zi_wei_geju.cpp:160-208 | the eleven inauspicious checks, in the order `analyze_xiong_ge` runs them |
| ZiWeiGeJu.Entry | src/zi_wei/zi_wei_geju.cpp:272-1007 | a check's record is of that check's pattern |
| ZiWeiGeJu.CheckKeQuanLuJia | src/zi_wei/zi_wei_geju.cpp:653-679 | the counting loop over 化科, 化权 and 化禄 on the two neighbours decides the pattern as its specification does |
| ZiWeiGeJu.CheckSiShaChongMing | src/zi_wei/zi_wei_geju.cpp:964-988 | the counting loop over the four 煞 stars in the 三方四正 decides the pattern as its specification does |
| ZiWeiGeJu.CheckRiYueBoZhao | src/zi_wei/zi_wei_geju.cpp:544-570 | the loop over the Ming palace's 三方四正 decides 日月夹照 as its specification does |
| ZiWeiGeJu.GetTotalScore | src/zi_wei/zi_wei_geju.cpp:260-268 | the total is the sum of the scores of every reported pattern |
| ZiWeiGeJu.OrdersRanked | src/zi_wei/zi_wei_geju.cpp:49-208 | each check sits at its own rank in its list, auspicious checks only in the first list and inauspicious only in the second |
| ZiWeiGeJu.EveryCheckRun | src/zi_wei/zi_wei_geju.cpp:49-208 | every pattern is checked by exactly one of the two lists |
| ZiWeiGeJu.ScoreSign | src/zi_wei/zi_wei_geju.cpp:272-1007 | auspicious patterns score above zero and inauspicious ones below |
| ZiWeiGeJu.AnalyzerOrders | src/zi_wei/zi_wei_geju.cpp:49-208 | both lists are ranked, the first all auspicious and the second all inauspicious |
| ZiWeiGeJu.CollectSound | src/zi_wei/zi_wei_geju.cpp:49-208 | every record comes from a check of the list that fired and is that check's record; records follow the list's order with no check twice |
| ZiWeiGeJu.CollectComplete | src/zi_wei/zi_wei_geju.cpp:49-208 | every check of the list that fires leaves its record |
| ZiWeiGeJu.JiGeMember | src/zi_wei/zi_wei_geju.cpp:49-158 | an auspicious pattern is reported exactly when its check fires |
| ZiWeiGeJu.XiongGeMember | src/zi_wei/zi_wei_geju.cpp:160-208 | an inauspicious pattern is reported exactly when its check fires |
| ZiWeiGeJu.AnalyzeAllShape | src/zi_wei/zi_wei_geju.cpp:37-47 | auspicious records, all positive, come before the inauspicious ones, all negative, and no pattern is reported twice |
| ZiWeiGeJu.SumScoresAppend | src/zi_wei/zi_wei_geju.cpp:260-268 | the sum over two lists is the sum of the sums |
| ZiWeiGeJu.SumScoresSign | src/zi_wei/zi_wei_geju.cpp:260-268 | a list of positive scores sums above zero when non-empty, a list of negative ones below |
| ZiWeiGeJu.TotalScoreSplit | src/zi_wei/zi_wei_geju.cpp:260-268 | the total is the auspicious sum, never negative, plus the inauspicious sum, never positive |
| ZiWeiGeJu.EmptyMingTogether | src/zi_wei/zi_wei_geju.cpp:899-1007 | 命无正曜 and 命宫无主星 are each reported exactly when the Ming palace has no main star |
| ZiWeiGeJu.BranchGates | src/zi_wei/zi_wei_geju.cpp:377-841 | no pattern tied to a branch of the Ming palace is reported off that branch |
| ZiWeiGeJu.CountInStep | src/zi_wei/zi_wei_geju.cpp:653-679 | counting one more name adds one exactly when it is present |
| ZiWeiGeJu.CountThreeAtLeastTwo | src/zi_wei/zi_wei_geju.cpp:653-679 | two of three names are present exactly when some two distinct positions are |
| ZiWeiGeJu.CountFourAtLeastThree | src/zi_wei/zi_wei_geju.cpp:964-988 | three of four names are present exactly when at most one is missing |
| ZiWeiGeJu.KeQuanLuThreshold | src/zi_wei/zi_wei_geju.cpp:653-679 | 科权禄夹 holds exactly when two different ones of 化科, 化权 and 化禄 sit on the Ming palace's neighbours |
| ZiWeiGeJu.SiShaThreshold | src/zi_wei/zi_wei_geju.cpp:964-988 | 四煞冲命 holds exactly when at most one of the four 煞 stars is missing from the 三方四正 |
| ZiWeiGeJu.PairTypeUnordered | src/zi_wei/zi_wei_geju.cpp:227-251 | a pair's type does not depend on the order of its two names, and a named type has two different main stars |
| ZiWeiGeJu.AnalyzeShuangXing | src/zi_wei/zi_wei_geju.cpp:210-258 | the loop over the palaces builds the list `ShuangXingSound` and `ShuangXingComplete` describe |
| ZiWeiGeJu.ShuangXingSound | src/zi_wei/zi_wei_geju.cpp:210-258 | every entry is a palace with exactly two main stars, named in list order and typed by their pair; the palaces ascend |
| ZiWeiGeJu.ShuangXingComplete | src/zi_wei/zi_wei_geju.cpp:210-258 | every palace with exactly two main stars is listed |
| ZiWeiGeJu.CollectFromOrder | src/zi_wei/zi_wei_geju.cpp:49-208 | every record a run returns is the record of a check of the list, and that check fired |
| ZiWeiGeJu.CollectInOrder | src/zi_wei/zi_wei_geju.cpp:49-208 | the records of a run follow the list's order of checks, no check twice |
| ZiWeiGeJu.EmptyMingReported | src/zi_wei/zi_wei_geju.cpp:160-208 | either empty-Ming pattern is reported by the inauspicious analyzer exactly when the Ming palace has no main star |
| LiuYaoController.CheckCode | src/liu_yao/liu_yao_controller.cpp:27-36 | no error exactly when the code is six characters of `0` and `1`; otherwise the length error comes before the character error |
| LiuYaoController.CheckLines | src/liu_yao/liu_yao_controller.cpp:38-43 | accepted exactly when every changing line is between 1 and 6 |
| LiuYaoController.CalculateLiuYao | src/liu_yao/liu_yao_controller.cpp:21-60 | a bad code fails with its error, then a bad line with the line error, and only valid input reaches the divination, whose result or failure is passed on |
| LiuYaoController.CalculatedRefusesBadInput | src/liu_yao/liu_yao_controller.cpp:21-47 | an input error is reported exactly when the code or a line is invalid, and then the divination's behaviour does not matter |
| LiuYaoController.GetHexagramInfo | src/liu_yao/liu_yao_controller.cpp:131-151 | a bad code fails as in `calculate_liu_yao`; a valid code gives its table entry, or the not-found error |
| LiuYaoController.MovingPositionsMeaning | src/liu_yao/liu_yao_controller.cpp:77-101 | the changing lines ascend, and a position is listed exactly when its value is 6 or 9 |
| LiuYaoController.FirstNonYaoCi | src/liu_yao/liu_yao_controller.cpp:81-100 | the position of the first value that is not 6, 7, 8 or 9, or the end when there is none |
| LiuYaoController.FirstNonYaoCiAt | src/liu_yao/liu_yao_controller.cpp:81-100 | a bad value with only good values before it is the first bad value |
| LiuYaoController.FirstNonYaoCiFrom | src/liu_yao/liu_yao_controller.cpp:81-100 | the same, for a search starting further on |
| LiuYaoController.YaoCiToHexagramCode | src/liu_yao/liu_yao_controller.cpp:65-104 | not six values fails and leaves the changing lines alone; a bad value fails and leaves the changing lines found before it; otherwise the code has yang for 7 and 9 and yin for 6 and 8 |
| LiuYaoController.NumbersToHexagramCode | src/liu_yao/liu_yao_controller.cpp:109-126 | not six numbers fails; otherwise each number gives its line by the parity rule |
| LiuYaoController.NumberLineSettings | src/liu_yao/liu_yao_controller.cpp:121-122 | every number gives a line; for a non-negative number the two settings disagree, and odd-is-yang gives yang exactly for odd numbers; a negative odd number is yin under both settings |
| LiuYaoController.YaoCiAsNumbers | src/liu_yao/liu_yao_controller.cpp:81-122 | a 6, 7, 8 or 9 gives the same line read as a number with odd-is-yang |
| LiuYaoController.BatchCalculateLiuYao | src/liu_yao/liu_yao_controller.cpp:156-175 | one entry per request, in order, each the request's own result |
| LiuYaoController.BatchOneFailsOnBadInput | src/liu_yao/liu_yao_controller.cpp:162-171 | a batch entry fails with an input error exactly when the request's code or lines are invalid, and a failed entry records the request's code |

## Left out

- Calendar glue: `DaLiuRenEngine::pai_pan` and `pai_pan_lunar`, and the `BaZi` conversions they call, use a calendar library that is not part of this model. The month general, the noble (贵人) and the day and hour pillars are therefore inputs.
- Output: every `to_string` and `to_json`, the controllers, and the star descriptions parsed from embedded JSON are printing and formatting only. They are not modelled.
- Descriptive texts: the names, descriptions and `xing_zhi` texts of `GeJuInfo`, `ShuangXingInfo` and the 神煞 labels are not modelled. Patterns, pairs and spirits are datatypes instead, and a chart's star names stay `string`s.
- Liu Yao foreign calls: `sixYaoDivination`, `aiSetSixYaoDivination` and `get_hexagram_map` are defined outside the modelled files.
  - The divination is a function parameter and the hexagram table a `map` parameter.
  - The `generate_ai_json` branch and the contents of `LiuYaoPaiPanResult` (its line list and JSON) are not modelled.
  - A failed batch entry keeps the error and the request's code.
- Exceptions: a `throw` is the `Err` or `None` case of its member, and a `try`/`catch` fall-through is a match on that case. Exception message texts are not modelled.
- Helpers not in the modelled files are fixed standard tables, assumed rather than modelled: `fix_index`, the stem and branch elements (`get_wu_xing`, `GanZhiKe::get_wu_xing`), the controlling cycle (`wu_xing_ke`), the lodging palaces (`get_ji_gong`, `get_ji_gan`), `is_xing`, yin/yang (`get_yin_yang`, `is_yang`), `get_xun_shou` and `get_kong_wang`. `is_xing` agrees with the checks in tests/test_ganzhi.cpp:112-122.
- `TianDiPan` is not part of this model. A plate is a pair of mutually inverse branch tables with the month general over the hour branch. A clockwise plate is taken to be the rotation `g + (p - h)`. A counter-clockwise plate is assumed to be the mirror `g + (h - p)`, not a rotation. Only that mirror lets the constructor throw (`LiuRenSanChuanProperties.ChainCanFail`, `LiuRenSanChuanProperties.ClockwiseNeverThrows`).
- `Mapper::to_zh` is not part of this model. `ZiWeiStar.ZhName` gives the standard name of each main star.
- `SanFangSiZheng::get_all_indices` is not part of this model. It is taken to list the own palace, the opposite, 财帛 and 官禄, in that order.
- The `SiKe` accessors are not part of this model. The day stem is taken to be the first lesson's stem, and the day branch the third lesson's lower branch. `get_gan_yin_shen` is taken to be the second lesson's upper branch, and `get_zhi_yin_shen` the fourth lesson's upper branch.
- The search methods of `SiHuaSystem` require a start palace in 0..11. The source indexes its array with the start palace unnormalised, so any other value is undefined behaviour there.
- `int` is unbounded. Every modelled quantity is a small index, age or score, so no overflow is in reach.
- ZiWeiHoroscope.Decade: builds each decade with the corrected stem (`DaXianStem`), branch (`PalaceBranch`) and Lu, Quan, Ke, Ji order (`SiHuaStars`) of Findings rows 4-6, not with the C++ remainder, the `static_cast<DiZhi>` and the map key order of the source. The as-written versions are `DaXianStemAsWritten`, `PalaceBranchAsWritten` and `MapOrderNames`.
- ZiWeiHoroscope.ArrangeDaXian: its decades carry the corrected stem, branch and transformation order, as for `Decade`.
- ZiWeiHoroscope.DaXianEveryPalace: states the corrected branch and transformation order, as for `Decade`.
- ZiWeiHoroscope.LiuNian: its transformations are in Lu, Quan, Ke, Ji order (`SiHuaStars`), not in the map key order of the source.
- ZiWeiHoroscope.LiuYue: the same, for the flowing month.
- ZiWeiHoroscope.LiuRi: the same, for the flowing day.
- ZiWeiHoroscope.LiuShi: the same, for the flowing hour.
- ZiWeiHoroscope.AllStarsComplete: the `ZhuXing` enum is not part of this model. Its declaration order is taken to be that of the model's `ZhuXing` datatype, which fixes the key order of a star-keyed map. The misorder of Findings row 6 holds under any order, because Jia and Geng list Tai Yang and Wu Qu in opposite orders; only the concrete Jia example depends on the assumed order.
- LiuYaoController.CheckCode: C++ `length()` counts bytes, while the model counts characters. A code holding a non-ASCII character gets the length error in the source and the character error in the model. Both are rejected.
- `ZiWeiGeJu.AnalyzeJiGe` and `ZiWeiGeJu.AnalyzeXiongGe` are functions that run the checks over their fixed order. The source writes the same sequence of `if`+`push_back` steps out by hand, with no loop, so there is no loop to model.

## Notes on the code

The model follows the code as written. The exceptions are the corrected definitions listed under Findings, which the rest of the model uses. The points below are behaviours of the code that the model keeps and that a reader might not expect.

- In the conquest tests (`have_conquerors`, `have_overcomes`) a lesson's own element is that of its lower part: the stem for the first lesson, the lower branch otherwise. The comments at src/da_liu_ren/da_liu_ren.cpp:62 and :81 say the same.
- The chain at src/da_liu_ren/da_liu_ren.cpp:617-676 tries 别责 before 八专. A Ba Zhuan day with three distinct lessons therefore resolves as 别责 (`LiuRenSanChuanProperties.BaZhuanDayResolvedByBieZe`).
- `is_ba_zhuan_day` checks the first lesson's stem with its upper branch, not with the day branch.
- `build_zhi_mapping` indexes neither 日德 nor 日禄, although `calculate` computes both. The branch index leaves them out as the code does.
- `get_xun_kong_index` reads the year branch's ordinal as a palace index counted from Yin. `ZiWeiStar.XunKong` does the same.
- `check_ri_yue_bo_zhao` compares the four palaces with the Ming index as stored, not normalised.
- `check_tan_wu_tong_xing` fires on Tan Lang and Wu Qu in the Ming palace alone. Its own comment (src/zi_wei/zi_wei_geju.cpp:456) names the Chou and Wei palaces, but the code checks no branch, and neither does `ZiWeiGeJu.IsTanWuTongXing`.
- `numbers_to_hexagram_code` uses the C++ remainder. A negative odd number therefore gives a yin line under both parity settings (`LiuYaoController.NumberLineSettings`).
- An empty star name in the 四化 tables is modelled as `None`.
- `get_xiao_xian` uses the childhood table `{0, 1, 8, 3, 10, 6}` as palace indices counted from Yin. Its comment (src/zi_wei/zi_wei_horoscope.cpp:139-140, 145) names 命宫、财帛、疾厄、夫妻、福德、官禄. No fixed palace numbering fits those names, and the function takes no Ming palace to count from. `ZiWeiHoroscope.XiaoXian` keeps the table as written.

## Findings

| source | as written | input that shows it | evidently intended | confidence | as-written member | corrected member |
|---|---|---|---|---|---|---|
| src/zi_wei/zi_wei_star.cpp:631-636 | the 破碎 table by year branch | year Mao: the table gives You, the rule in the comment gives Si | Si for Zi/Wu/Mao/You, You for Yin/Shen/Si/Hai, Chou for the rest | high, not executed | ZiWeiStarProperties.PoSuiAsWrittenMisplaces | ZiWeiStar.PoSui |
| src/zi_wei/zi_wei_star.cpp:667-671 | `{6, 6, 8, 8, 10, 10}[(month - 1) / 2]` | month 3: the table gives Shen, the rule in the comment gives Xu | Shen for months 1-2, two palaces on for each further pair | high, not executed | ZiWeiStarProperties.JieShenAsWrittenMisplaces | ZiWeiStar.JieShen |
| src/zi_wei/zi_wei_star.cpp:731-734 | `fix_index(year_zhi + 1)`, the branch ordinal read as a palace index | year Zi: gives Mao, the rule in the comment gives Chou | one palace after the year branch's palace | high, not executed | ZiWeiStarProperties.TianKongAsWrittenMisplaces | ZiWeiStar.TianKong |
| src/zi_wei/zi_wei_horoscope.cpp:103-105 | `(gan_offset + 10) % 10` with C++ `%` | backward chart, decade 12: the offset is -11 and the result is -1, no stem | the stem counted backward from Jia, wrapping | high, not executed | ZiWeiHoroscope.DaXianStemAsWrittenNegative | ZiWeiHoroscope.DaXianStem |
| src/zi_wei/zi_wei_horoscope.cpp:112 | `static_cast<DiZhi>(idx)` for the decade's branch | palace 0 (Yin) is given the branch Zi | the branch of the palace, the inverse of `di_zhi_to_index` | high, not executed | ZiWeiHoroscope.PalaceBranchAsWrittenMisplaces | ZiWeiHoroscope.PalaceBranch |
| src/zi_wei/zi_wei_horoscope.cpp:117-123 | the four names are taken in the key order of the stem's map | stem Jia: the first name, read as Lu, is Tai Yang, whose transformation is Ji | the names in Lu, Quan, Ke, Ji order, as `get_si_hua_stars` gives them | medium, not executed | ZiWeiHoroscope.MapOrderNamesMisorder | ZiWeiSiHua.SiHuaStarsMatchTable |
