/** The nutrition-label text parser of backend/main.py: `extract`,
    `extract_calories` and `parse_nutrition_text`. The regular-expression
    searches (over the NFKD-normalised, lower-cased ASCII text) are not
    re-implemented: a `LabelCaptures` value says what each search captured.
    Python's `float()` is modelled exactly on what those searches can
    capture, strings of digits and dots. */
module LabelParser {
  import opened Shapes
  import opened Text

  const ScannedName := "Scanned Label"

  /** Kilojoules per kilocalorie, the divisor of the kJ fallback. */
  const KjPerKcal: real := 4.184

  /** The outcome of one `re.search`: no match, or the captured number text. */
  datatype Capture = NotFound | Found(text: string)

  /** What the six searches of the parse as evidently intended captured
      over one label text: the keyword `protein`, one of `carbohydrate`,
      `carbohydrates`, `total carbs?`, and `total fat`, each followed by
      `[\d\.]+`; `\d+(?:[.,]\d+)?` before `kcal` and before `kJ`; and
      `[\d.]+` after `calories`. As written, `extract` is handed one
      string, not a list of keywords, and `"|".join` interleaves its
      letters: the protein pattern becomes `(p|r|o|t|e|i|n)[^0-9]*([\d\.]+)`,
      one letter of "protein" followed by a number, and the carbohydrate
      pattern is not a valid expression at all (see `ParseLabelAsWritten`). */
  datatype LabelCaptures = LabelCaptures(
    protein: Capture,
    carbs: Capture,
    fat: Capture,
    kcal: Capture,
    kj: Capture,
    generic: Capture)

  function Pow10(n: nat): (r: nat)
    ensures r >= 1
  {
    if n == 0 then 1 else 10 * Pow10(n - 1)
  }

  /** The first position of `c` in `s`. */
  function IndexOf(s: string, c: char): (i: nat)
    requires c in s
    ensures i < |s| && s[i] == c && c !in s[..i]
  {
    if s[0] == c then 0 else 1 + IndexOf(s[1..], c)
  }

  /** The strings over digits and '.' that Python's `float()` accepts: at
      most one dot and at least one digit ("5", "5.", ".5"; not "." nor
      "1.2.3"). */
  predicate DecimalText(s: string)
  {
    && DigitsAndDots(s)
    && multiset(s)['.'] <= 1
    && (exists i :: 0 <= i < |s| && IsDigit(s[i]))
  }

  predicate DigitsAndDots(s: string)
  {
    forall i :: 0 <= i < |s| ==> IsDigit(s[i]) || s[i] == '.'
  }

  /** Without a dot, a string of digits and dots is a float exactly when it
      is not empty. */
  lemma DecimalTextWithoutDot(s: string)
    requires DigitsAndDots(s) && '.' !in s
    ensures DecimalText(s) <==> s != []
    ensures AllDigits(s)
  {
    assert multiset(s)['.'] == 0;
    if s != [] { assert IsDigit(s[0]); }
  }

  /** Split at its first dot, a string of digits and dots is a float
      exactly when no second dot follows and some digit is left. */
  lemma DecimalTextAtDot(s: string, k: nat)
    requires DigitsAndDots(s) && k < |s| && s[k] == '.' && '.' !in s[..k]
    ensures AllDigits(s[..k])
    ensures DecimalText(s) <==> '.' !in s[k + 1..] && (k > 0 || k + 1 < |s|)
  {
    var whole, frac := s[..k], s[k + 1..];
    assert s == whole + ['.'] + frac;
    assert multiset(s)['.'] == multiset(whole)['.'] + 1 + multiset(frac)['.'];
    assert multiset(whole)['.'] == 0;
    if '.' in frac {
      assert multiset(frac)['.'] > 0;
    } else if k > 0 {
      assert IsDigit(s[0]);
    } else if k + 1 < |s| {
      assert IsDigit(s[k + 1]);
    } else {
      assert s == ['.'];
    }
  }

  /** The value of the decimal `whole.frac`. */
  function DecimalValue(whole: string, frac: string): real
    requires AllDigits(whole) && AllDigits(frac)
  {
    DigitsValue(whole) as real + DigitsValue(frac) as real / Pow10(|frac|) as real
  }

  /** Python's `float(s)` for a string of digits and dots: the decimal's
      value, or None where `float` raises ValueError. Any other character
      also gives None. */
  function FloatOf(s: string): (r: Option<real>)
    ensures r.Some? <==> DecimalText(s)
    ensures AllDigits(s) && s != [] ==> r == Some(DigitsValue(s) as real)
  {
    if !DigitsAndDots(s) then
      None
    else if '.' !in s then
      DecimalTextWithoutDot(s);
      if s == [] then None else Some(DigitsValue(s) as real)
    else
      var k := IndexOf(s, '.');
      DecimalTextAtDot(s, k);
      var whole, frac := s[..k], s[k + 1..];
      if '.' in frac || (whole == [] && frac == []) then
        None
      else
        assert AllDigits(frac);
        Some(DecimalValue(whole, frac))
  }

  const FloatErrorPrefix := "could not convert string to float: '"

  /** The message of the ValueError `float()` raises: the rejected text,
      quoted (its `repr`, which for text without quote marks is the text
      between single quotes). */
  function FloatError(s: string): (msg: string)
    ensures FloatErrorPrefix <= msg
    ensures |msg| == |FloatErrorPrefix| + |s| + 1
    ensures msg[|FloatErrorPrefix|..|msg| - 1] == s && msg[|msg| - 1] == '\''
  {
    FloatErrorPrefix + s + "'"
  }

  /** `float(s)`, raising on malformed text. */
  function ToFloat(s: string): (r: Result<real, string>)
    ensures r.Success? <==> DecimalText(s)
    ensures r.Success? ==> Some(r.value) == FloatOf(s)
    ensures r.Failure? ==> r.error == FloatError(s)
  {
    match FloatOf(s)
    case Some(v) => Success(v)
    case None => Failure(FloatError(s))
  }

  /** `s.replace(',', '.')`. */
  function DecimalComma(s: string): (r: string)
    ensures |r| == |s| && ',' !in r
    ensures forall i :: 0 <= i < |s| && s[i] != ',' ==> r[i] == s[i]
    ensures forall i :: 0 <= i < |s| && s[i] == ',' ==> r[i] == '.'
  {
    seq(|s|, i requires 0 <= i < |s| => if s[i] == ',' then '.' else s[i])
  }

  /** `extract(keywords)`: the captured number, or 0 when the keyword is
      not on the label. */
  function Extract(c: Capture): (r: Result<real, string>)
    ensures c.NotFound? ==> r == Success(0.0)
    ensures c.Found? ==> (r.Success? <==> DecimalText(c.text))
    ensures c.Found? && r.Success? ==> Some(r.value) == FloatOf(c.text)
    ensures c.Found? && r.Failure? ==> r.error == FloatError(c.text)
  {
    match c
    case NotFound => Success(0.0)
    case Found(text) => ToFloat(text)
  }

  /** `round(x, 2)`: the nearest multiple of 0.01, a tie going to the even
      multiple (on exact reals; Python rounds the binary double). */
  function Round2(x: real): (r: real)
    ensures (r * 100.0).Floor as real == r * 100.0
    ensures -0.005 <= r - x <= 0.005
  {
    var y := x * 100.0;
    var n := y.Floor;
    var frac := y - n as real;
    var m := if frac > 0.5 then n + 1 else if frac < 0.5 then n else if n % 2 == 0 then n else n + 1;
    m as real / 100.0
  }

  /** `extract_calories`: a kcal figure first, else a kJ figure converted
      to kcal, else the number after "calories", else 0. */
  function ExtractCalories(c: LabelCaptures): (r: Result<real, string>)
    ensures c.kcal.Found? ==> r == ToFloat(DecimalComma(c.kcal.text))
    ensures c.kcal.NotFound? && c.kj.Found? ==> (r.Success? <==> DecimalText(DecimalComma(c.kj.text)))
    ensures c.kcal.NotFound? && c.kj.Found? && r.Success? ==>
              exists kj :: FloatOf(DecimalComma(c.kj.text)) == Some(kj) && r.value == Round2(kj / KjPerKcal)
    ensures c.kcal.NotFound? && c.kj.Found? && r.Failure? ==> r.error == FloatError(DecimalComma(c.kj.text))
    ensures c.kcal.NotFound? && c.kj.NotFound? ==> r == Extract(c.generic)
  {
    if c.kcal.Found? then
      ToFloat(DecimalComma(c.kcal.text))
    else if c.kj.Found? then
      var kj :- ToFloat(DecimalComma(c.kj.text));
      Success(Round2(kj / KjPerKcal))
    else
      Extract(c.generic)
  }

  /** A kcal figure, when present, decides the calories whatever the kJ
      and generic searches found. */
  lemma KcalTakesPrecedence(c: LabelCaptures, kj: Capture, generic: Capture)
    requires c.kcal.Found?
    ensures ExtractCalories(c.(kj := kj, generic := generic)) == ExtractCalories(c)
  {
  }

  /** Without a kcal figure, a kJ figure decides the calories whatever the
      generic search found. */
  lemma KjBeforeGeneric(c: LabelCaptures, generic: Capture)
    requires c.kcal.NotFound? && c.kj.Found?
    ensures ExtractCalories(c.(generic := generic)) == ExtractCalories(c)
  {
  }

  /** The message of the `re.error` raised by searching for the
      carbohydrate pattern as written,
      `(c|a|r|b|o|h|y|d|r|a|t|e|||c|a|r|b|o|h|y|d|r|a|t|e|s|||t|o|t|a|l| |c|a|r|b|s|?)[^0-9]*([\d\.]+)`:
      its last alternative is a bare `?`, at position 77. */
  const CarbsPatternError := "nothing to repeat at position 77"

  /** `parse_nutrition_text` as written. `protein` is what the protein
      pattern as written (one letter of "protein" followed by a number)
      captured. The keyword arguments are evaluated in order: the protein
      figure is read first, and the carbohydrate search then raises, so no
      label ever parses. */
  function ParseLabelAsWritten(protein: Capture): (r: Result<MealRequest, string>)
    ensures r.Failure?
    ensures Extract(protein).Failure? ==> r.error == Extract(protein).error
    ensures Extract(protein).Success? ==> r.error == CarbsPatternError
  {
    var _ :- Extract(protein);
    Failure(CarbsPatternError)
  }

  /** `parse_nutrition_text` as evidently intended, each `extract` given
      its keywords as a list: the meal is always named "Scanned Label" with
      one serving; each macro comes from its own search (0 when its keyword
      is missing). The keyword arguments are evaluated in order, so the
      first capture `float()` rejects is the error raised. */
  function ParseLabel(c: LabelCaptures): (r: Result<MealRequest, string>)
    ensures r.Success? <==>
              Extract(c.protein).Success? && Extract(c.carbs).Success?
              && Extract(c.fat).Success? && ExtractCalories(c).Success?
    ensures r.Success? ==>
              && r.value.name == ScannedName && r.value.servings == 1.0
              && Success(r.value.proteinPerServing) == Extract(c.protein)
              && Success(r.value.carbsPerServing) == Extract(c.carbs)
              && Success(r.value.fatPerServing) == Extract(c.fat)
              && Success(r.value.caloriesPerServing) == ExtractCalories(c)
    ensures Extract(c.protein).Failure? ==> r == Extract(c.protein).PropagateFailure()
    ensures Extract(c.protein).Success? && Extract(c.carbs).Failure? ==> r == Extract(c.carbs).PropagateFailure()
    ensures Extract(c.protein).Success? && Extract(c.carbs).Success? && Extract(c.fat).Failure? ==>
              r == Extract(c.fat).PropagateFailure()
    ensures (Extract(c.protein).Success? && Extract(c.carbs).Success? && Extract(c.fat).Success?
             && ExtractCalories(c).Failure?) ==> r == ExtractCalories(c).PropagateFailure()
  {
    var protein :- Extract(c.protein);
    var carbs :- Extract(c.carbs);
    var fat :- Extract(c.fat);
    var calories :- ExtractCalories(c);
    Success(MealRequest(ScannedName, protein, carbs, fat, calories, 1.0))
  }

  /** With the intended parse, a label on which no keyword is found parses
      to all zeros. */
  lemma NothingFound(c: LabelCaptures)
    requires c.protein.NotFound? && c.carbs.NotFound? && c.fat.NotFound?
    requires c.kcal.NotFound? && c.kj.NotFound? && c.generic.NotFound?
    ensures ParseLabel(c) == Success(MealRequest(ScannedName, 0.0, 0.0, 0.0, 0.0, 1.0))
  {
  }

  /** A capture such as "1.2.3" (allowed by `[\d\.]+`) makes the whole
      parse fail with float()'s error, even when every other figure is fine. */
  lemma MalformedFigureFails(c: LabelCaptures)
    requires c.protein == Found("1.2.3")
    ensures ParseLabel(c) == Failure(FloatError("1.2.3"))
  {
    assert multiset("1.2.3")['.'] == 2;
  }

  /** "12" reads as 12. */
  lemma WholeNumberExample()
    ensures FloatOf("12") == Some(12.0)
  {
    assert DigitsValue("12") == 12 by {
      assert "12"[..1] == "1";
      assert DigitsValue("1") == 1 by { assert "1"[..0] == ""; }
    }
  }

  /** A decimal with one dot reads as its whole part plus its fraction. */
  lemma FloatOfOneDot(s: string, k: nat)
    requires DigitsAndDots(s) && k < |s| && s[k] == '.' && '.' !in s[..k] && '.' !in s[k + 1..]
    requires k + 1 < |s|
    ensures AllDigits(s[..k]) && AllDigits(s[k + 1..])
    ensures FloatOf(s) == Some(DecimalValue(s[..k], s[k + 1..]))
  {
    assert IndexOf(s, '.') == k;
    DecimalTextAtDot(s, k);
  }

  /** "12.5" reads as 12.5. */
  lemma DecimalExample()
    ensures FloatOf("12.5") == Some(12.5)
  {
    var s := "12.5";
    assert s[..2] == "12" && s[3..] == "5";
    FloatOfOneDot(s, 2);
    assert DigitsValue("12") == 12 by {
      assert "12"[..1] == "1";
      assert DigitsValue("1") == 1 by { assert "1"[..0] == ""; }
    }
    assert DigitsValue("5") == 5 by { assert "5"[..0] == ""; }
    assert Pow10(1) == 10;
  }

  /** A dot alone is not a number. */
  lemma LoneDotRejected()
    ensures FloatOf(".") == None
  {
    assert !DecimalText(".") by { assert forall i :: 0 <= i < 1 ==> !IsDigit("."[i]); }
  }

  /** Rounding an already rounded value changes nothing. */
  lemma Round2Idempotent(x: real)
    ensures Round2(Round2(x)) == Round2(x)
  {
    var r := Round2(x);
    var n := (r * 100.0).Floor;
    assert r * 100.0 == n as real;
  }

  /** Without a kcal figure, 2092 kJ reads as 500 kcal. */
  lemma KilojoulesConverted(c: LabelCaptures)
    requires c.kcal.NotFound? && c.kj == Found("2092")
    ensures ExtractCalories(c) == Success(500.0)
  {
    assert DecimalComma("2092") == "2092";
    KilojouleFigure();
    var kj := ToFloat(DecimalComma(c.kj.text));
    assert kj == Success(2092.0);
    assert 2092.0 / KjPerKcal == 500.0;
    assert Round2(500.0) == 500.0;
  }

  /** The figure "2092" reads as 2092. */
  lemma KilojouleFigure()
    ensures ToFloat("2092") == Success(2092.0)
  {
    assert "2"[..0] == "";
    assert DigitsValue("2") == 2;
    assert "20"[..1] == "2";
    assert DigitsValue("20") == 20;
    assert "209"[..2] == "20";
    assert DigitsValue("209") == 209;
    assert "2092"[..3] == "209";
    assert DigitsValue("2092") == 2092;
    assert AllDigits("2092");
  }
}
