/** The Liu Yao (六爻) front door: turning cast line values or counted numbers
  * into a six-character hexagram code ('1' a yang line, '0' a yin line,
  * first character the bottom line), checking a code and its moving lines
  * before a chart is drawn, looking a code up, and running many requests at
  * once. Drawing the chart itself and the hexagram table belong to code that
  * is not part of this model; they enter as parameters. */
module LiuYaoController {
  import opened Wrappers
  import opened CArith

  /** Why a request is refused; each stands for one exception the C++ code
    * throws. `Divination` carries the message of a failure inside the chart
    * drawing itself. */
  datatype LiuYaoError =
    | CodeLength          // the code is not six characters long
    | CodeChar            // the code holds a character other than '0' and '1'
    | LinePosition        // a moving line lies outside 1..6
    | YaoCiCount          // not exactly six line values
    | YaoCiValue          // a line value other than 6, 7, 8 and 9
    | NumberCount         // not exactly six numbers
    | NotFound            // the hexagram table has no entry for the code
    | Divination(message: string)

  /** The errors raised by checking the inputs, as opposed to the drawing. */
  predicate IsInputError(e: LiuYaoError)
  {
    !e.Divination?
  }

  // ---------------------------------------------------------------------
  // Checking codes and moving lines

  /** A hexagram code: exactly six characters, each '0' or '1'. */
  predicate ValidCode(code: string)
  {
    |code| == 6 && forall i :: 0 <= i < |code| ==> code[i] == '0' || code[i] == '1'
  }

  /** Every moving line is one of the six line positions. */
  predicate ValidLines(lines: seq<int>)
  {
    forall i :: 0 <= i < |lines| ==> 1 <= lines[i] <= 6
  }

  /** The code check shared by `calculate_liu_yao` and `get_hexagram_info`:
    * the length first, then the characters in order. */
  method CheckCode(code: string) returns (r: Option<LiuYaoError>)
    ensures r == None <==> ValidCode(code)
    ensures r != None ==> r == Some(if |code| != 6 then CodeLength else CodeChar)
  {
    if |code| != 6 {
      return Some(CodeLength);
    }
    for k := 0 to |code|
      invariant forall i :: 0 <= i < k ==> code[i] == '0' || code[i] == '1'
    {
      if code[k] != '0' && code[k] != '1' {
        return Some(CodeChar);
      }
    }
    return None;
  }

  /** The moving-line check of `calculate_liu_yao`. */
  method CheckLines(lines: seq<int>) returns (ok: bool)
    ensures ok <==> ValidLines(lines)
  {
    for k := 0 to |lines|
      invariant forall i :: 0 <= i < k ==> 1 <= lines[i] <= 6
    {
      if lines[k] < 1 || lines[k] > 6 {
        return false;
      }
    }
    return true;
  }

  /** `calculate_liu_yao`: checks the code and the moving lines, and only
    * then hands them to the chart drawing `divination` (which stands for
    * `sixYaoDivination` together with the optional AI summary). */
  method CalculateLiuYao<B, R>(code: string, bazi: B, lines: seq<int>,
                               divination: (string, B, seq<int>) -> Result<R, string>)
    returns (r: Result<R, LiuYaoError>)
    ensures !ValidCode(code) ==> r == Err(if |code| != 6 then CodeLength else CodeChar)
    ensures ValidCode(code) && !ValidLines(lines) ==> r == Err(LinePosition)
    ensures ValidCode(code) && ValidLines(lines) ==>
      r == match divination(code, bazi, lines)
           case Ok(v) => Ok(v)
           case Err(m) => Err(Divination(m))
  {
    var codeError := CheckCode(code);
    if codeError.Some? {
      return Err(codeError.value);
    }
    var linesOk := CheckLines(lines);
    if !linesOk {
      return Err(LinePosition);
    }
    var d := divination(code, bazi, lines);
    match d {
      case Ok(v) => r := Ok(v);
      case Err(m) => r := Err(Divination(m));
    }
  }

  /** The outcome `calculate_liu_yao` has, as a function of its inputs. */
  function Calculated<B, R>(code: string, bazi: B, lines: seq<int>,
                            divination: (string, B, seq<int>) -> Result<R, string>): Result<R, LiuYaoError>
  {
    if !ValidCode(code) then Err(if |code| != 6 then CodeLength else CodeChar)
    else if !ValidLines(lines) then Err(LinePosition)
    else match divination(code, bazi, lines)
         case Ok(v) => Ok(v)
         case Err(m) => Err(Divination(m))
  }

  /** A request is refused for its input exactly when the code or a moving
    * line is bad, whatever the drawing would do; a good request gets what
    * the drawing gives. */
  lemma CalculatedRefusesBadInput<B, R>(code: string, bazi: B, lines: seq<int>,
                                        divination: (string, B, seq<int>) -> Result<R, string>)
    ensures (Calculated(code, bazi, lines, divination).Err? &&
             IsInputError(Calculated(code, bazi, lines, divination).error))
            <==> !(ValidCode(code) && ValidLines(lines))
    ensures forall other: (string, B, seq<int>) -> Result<R, string> ::
      !(ValidCode(code) && ValidLines(lines)) ==>
      Calculated(code, bazi, lines, other) == Calculated(code, bazi, lines, divination)
  {
  }

  /** `get_hexagram_info`: checks the code, then looks it up in `table`
    * (which stands for `get_hexagram_map`). */
  method GetHexagramInfo<H>(code: string, table: map<string, H>) returns (r: Result<H, LiuYaoError>)
    ensures !ValidCode(code) ==> r == Err(if |code| != 6 then CodeLength else CodeChar)
    ensures ValidCode(code) && code in table ==> r == Ok(table[code])
    ensures ValidCode(code) && code !in table ==> r == Err(NotFound)
  {
    var codeError := CheckCode(code);
    if codeError.Some? {
      return Err(codeError.value);
    }
    if code in table {
      r := Ok(table[code]);
    } else {
      r := Err(NotFound);
    }
  }

  // ---------------------------------------------------------------------
  // Codes from line values

  /** A cast line value: 6 old yin, 7 young yang, 8 young yin, 9 old yang. */
  predicate IsYaoCi(v: int)
  {
    v == 6 || v == 7 || v == 8 || v == 9
  }

  /** The line a value draws: yang for 7 and 9, yin for 6 and 8. */
  function YaoCiLine(v: int): char
    requires IsYaoCi(v)
  {
    if v == 7 || v == 9 then '1' else '0'
  }

  /** The 1-based positions, among the first `n` values, of the old lines 6
    * and 9, which move. */
  function MovingPositions(yaoCi: seq<int>, n: nat): seq<int>
    requires n <= |yaoCi|
  {
    if n == 0 then []
    else MovingPositions(yaoCi, n - 1) + (if yaoCi[n - 1] == 6 || yaoCi[n - 1] == 9 then [n] else [])
  }

  /** The moving positions ascend, and a position is listed exactly when its
    * value is 6 or 9. */
  lemma {:induction false} MovingPositionsMeaning(yaoCi: seq<int>, n: nat)
    requires n <= |yaoCi|
    ensures forall k, l :: 0 <= k < l < |MovingPositions(yaoCi, n)| ==>
      MovingPositions(yaoCi, n)[k] < MovingPositions(yaoCi, n)[l]
    ensures forall p :: p in MovingPositions(yaoCi, n) <==> 1 <= p <= n && (yaoCi[p - 1] == 6 || yaoCi[p - 1] == 9)
  {
    if n > 0 {
      MovingPositionsMeaning(yaoCi, n - 1);
      var prev := MovingPositions(yaoCi, n - 1);
      assert forall k :: 0 <= k < |prev| ==> MovingPositions(yaoCi, n)[k] == prev[k];
      assert forall k :: 0 <= k < |prev| ==> prev[k] in prev;
    }
  }

  /** The index of the first value that is not a line value, or the length
    * when there is none. */
  function FirstNonYaoCi(yaoCi: seq<int>, from: nat): (k: nat)
    requires from <= |yaoCi|
    ensures from <= k <= |yaoCi|
    ensures forall i :: from <= i < k ==> IsYaoCi(yaoCi[i])
    ensures k < |yaoCi| ==> !IsYaoCi(yaoCi[k])
    decreases |yaoCi| - from
  {
    if from == |yaoCi| || !IsYaoCi(yaoCi[from]) then from else FirstNonYaoCi(yaoCi, from + 1)
  }

  /** `yao_ci_to_hexagram_code`. The moving-line list is an in-out argument
    * in C++: it comes in as `outChangingLines`, and the new list is
    * returned. A wrong count leaves it untouched; otherwise it is cleared and
    * collects the moving positions, so a bad value leaves the positions of
    * the lines before it. */
  method YaoCiToHexagramCode(yaoCi: seq<int>, outChangingLines: seq<int>)
    returns (r: Result<string, LiuYaoError>, changingLines: seq<int>)
    ensures |yaoCi| != 6 ==> r == Err(YaoCiCount) && changingLines == outChangingLines
    ensures |yaoCi| == 6 && FirstNonYaoCi(yaoCi, 0) < 6 ==>
      r == Err(YaoCiValue) && changingLines == MovingPositions(yaoCi, FirstNonYaoCi(yaoCi, 0))
    ensures |yaoCi| == 6 && FirstNonYaoCi(yaoCi, 0) == 6 ==>
      r.Ok? && r.value == seq(6, i requires 0 <= i < 6 => YaoCiLine(yaoCi[i])) &&
      changingLines == MovingPositions(yaoCi, 6)
  {
    if |yaoCi| != 6 {
      return Err(YaoCiCount), outChangingLines;
    }
    var code := "";
    changingLines := [];
    for i := 0 to 6
      invariant forall j :: 0 <= j < i ==> IsYaoCi(yaoCi[j])
      invariant FirstNonYaoCi(yaoCi, 0) >= i
      invariant |code| == i && forall j :: 0 <= j < i ==> code[j] == YaoCiLine(yaoCi[j])
      invariant changingLines == MovingPositions(yaoCi, i)
    {
      var value := yaoCi[i];
      var position := i + 1;
      if value == 6 {
        code := code + "0";
        changingLines := changingLines + [position];
      } else if value == 7 {
        code := code + "1";
      } else if value == 8 {
        code := code + "0";
      } else if value == 9 {
        code := code + "1";
        changingLines := changingLines + [position];
      } else {
        FirstNonYaoCiAt(yaoCi, i);
        return Err(YaoCiValue), changingLines;
      }
    }
    r := Ok(code);
  }

  /** The first non-value is at `i` when all before it are values and it is
    * not one. */
  lemma {:induction false} FirstNonYaoCiAt(yaoCi: seq<int>, i: nat)
    requires i < |yaoCi| && !IsYaoCi(yaoCi[i]) && forall j :: 0 <= j < i ==> IsYaoCi(yaoCi[j])
    ensures FirstNonYaoCi(yaoCi, 0) == i
  {
    FirstNonYaoCiFrom(yaoCi, 0, i);
  }

  lemma {:induction false} FirstNonYaoCiFrom(yaoCi: seq<int>, from: nat, i: nat)
    requires from <= i < |yaoCi| && !IsYaoCi(yaoCi[i]) && forall j :: from <= j < i ==> IsYaoCi(yaoCi[j])
    ensures FirstNonYaoCi(yaoCi, from) == i
    decreases i - from
  {
    if from < i {
      FirstNonYaoCiFrom(yaoCi, from + 1, i);
    }
  }

  // ---------------------------------------------------------------------
  // Codes from counted numbers

  /** The line a number draws: under `oddIsYang` a number whose C++
    * remainder by two is 1 is yang; otherwise one whose remainder is 0 is.
    * The remainder of a negative odd number is -1, so such a number is yin
    * under both settings. */
  function NumberLine(num: int, oddIsYang: bool): char
  {
    var isYang := if oddIsYang then CRem(num, 2) == 1 else CRem(num, 2) == 0;
    if isYang then '1' else '0'
  }

  /** `numbers_to_hexagram_code`. */
  method NumbersToHexagramCode(numbers: seq<int>, oddIsYang: bool) returns (r: Result<string, LiuYaoError>)
    ensures |numbers| != 6 ==> r == Err(NumberCount)
    ensures |numbers| == 6 ==> r.Ok? && r.value == seq(6, i requires 0 <= i < 6 => NumberLine(numbers[i], oddIsYang))
  {
    if |numbers| != 6 {
      return Err(NumberCount);
    }
    var code := "";
    for k := 0 to |numbers|
      invariant |code| == k && forall j :: 0 <= j < k ==> code[j] == NumberLine(numbers[j], oddIsYang)
    {
      var num := numbers[k];
      var isYang := if oddIsYang then CRem(num, 2) == 1 else CRem(num, 2) == 0;
      code := code + (if isYang then "1" else "0");
    }
    r := Ok(code);
  }

  /** Every drawn line is '0' or '1'; for a non-negative number the two
    * settings draw opposite lines, while a negative odd number is yin under
    * both. */
  lemma NumberLineSettings(num: int)
    ensures NumberLine(num, true) in {'0', '1'} && NumberLine(num, false) in {'0', '1'}
    ensures num >= 0 ==> NumberLine(num, true) != NumberLine(num, false)
    ensures num >= 0 ==> (NumberLine(num, true) == '1' <==> num % 2 == 1)
    ensures num < 0 && CRem(num, 2) != 0 ==> NumberLine(num, true) == '0' && NumberLine(num, false) == '0'
  {
    CRemRange(num, 2);
  }

  /** Cast line values and counted numbers agree: reading the values 6..9 as
    * numbers with odd meaning yang draws the same lines. */
  lemma YaoCiAsNumbers(v: int)
    requires IsYaoCi(v)
    ensures YaoCiLine(v) == NumberLine(v, true)
  {
  }

  // ---------------------------------------------------------------------
  // Many requests

  /** A request: a code, the birth chart it is drawn for, the moving lines. */
  datatype Request<B> = Request(code: string, bazi: B, changingLines: seq<int>)

  /** A batch entry: a drawn chart, or the empty result carrying the error
    * and the code of the failed request. */
  datatype BatchEntry<R> = Drawn(result: R) | Failed(error: LiuYaoError, hexagramCode: string)

  /** The entry one request gets. */
  function BatchOne<B, R>(q: Request<B>, divination: (string, B, seq<int>) -> Result<R, string>): BatchEntry<R>
  {
    match Calculated(q.code, q.bazi, q.changingLines, divination)
    case Ok(v) => Drawn(v)
    case Err(e) => Failed(e, q.code)
  }

  /** `batch_calculate_liu_yao`: one entry per request, at its position; a
    * request that fails does not stop the others. */
  method BatchCalculateLiuYao<B, R>(requests: seq<Request<B>>,
                                    divination: (string, B, seq<int>) -> Result<R, string>)
    returns (results: seq<BatchEntry<R>>)
    ensures |results| == |requests|
    ensures forall i :: 0 <= i < |requests| ==> results[i] == BatchOne(requests[i], divination)
  {
    results := [];
    for i := 0 to |requests|
      invariant |results| == i
      invariant forall j :: 0 <= j < i ==> results[j] == BatchOne(requests[j], divination)
    {
      var q := requests[i];
      var r := CalculateLiuYao(q.code, q.bazi, q.changingLines, divination);
      match r {
        case Ok(v) => results := results + [Drawn(v)];
        case Err(e) => results := results + [Failed(e, q.code)];
      }
    }
  }

  /** A batch entry fails for its input exactly when its request is bad, and
    * then it names the request's code. */
  lemma BatchOneFailsOnBadInput<B, R>(q: Request<B>, divination: (string, B, seq<int>) -> Result<R, string>)
    ensures (BatchOne(q, divination).Failed? && IsInputError(BatchOne(q, divination).error))
            <==> !(ValidCode(q.code) && ValidLines(q.changingLines))
    ensures BatchOne(q, divination).Failed? ==> BatchOne(q, divination).hexagramCode == q.code
  {
    CalculatedRefusesBadInput(q.code, q.bazi, q.changingLines, divination);
  }
}
