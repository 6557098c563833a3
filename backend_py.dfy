/** backend/main.py: the FastAPI service. Its two module-level dictionaries
    become the fields of `Store`; `today()` becomes a `today` parameter.
    The label-upload endpoint is a chain of checks whose outcomes (reading
    the upload, opening the image, OCR) are inputs. */
module PyBackend {
  import opened Shapes
  import opened Diary
  import opened Text
  import opened LabelParser

  const NoWeightDetail := "No weight entry for today"

  /** The in-memory tables `weight_entries` and `meal_entries`. */
  class Store {
    var weightEntries: Weights
    var mealEntries: Meals

    constructor ()
      ensures weightEntries == map[] && mealEntries == map[]
    {
      weightEntries := map[];
      mealEntries := map[];
    }

    /** POST /weight: today's weight is overwritten, the answer echoes the
        date and weight. */
    method LogWeight(today: string, req: WeightRequest) returns (r: WeightEntry)
      modifies this
      ensures weightEntries == RecordWeight(old(weightEntries), today, req.weight)
      ensures mealEntries == old(mealEntries)
      ensures r == WeightEntry(req.weight, today)
    {
      weightEntries := weightEntries[today := req.weight];
      r := WeightEntry(req.weight, today);
    }

    /** GET /weight/today: 404 exactly when today has no entry, else the
        stored weight under today's date. */
    function TodayWeight(today: string): (r: Reply<WeightEntry>)
      reads this
      ensures r.Failure? <==> today !in weightEntries
      ensures r.Failure? ==> r.error == HttpError(404, NoWeightDetail)
      ensures r.Success? ==> r.value == WeightEntry(weightEntries[today], today)
    {
      if today !in weightEntries then Failure(HttpError(404, NoWeightDetail))
      else Success(WeightEntry(weightEntries[today], today))
    }

    /** POST /meals: the scaled meal is appended to today's list
        (`setdefault(today, []).append(meal)`) and returned. */
    method LogMeal(today: string, req: MealRequest) returns (meal: MealEntry)
      modifies this
      ensures meal == Scale(req)
      ensures mealEntries == AppendMeal(old(mealEntries), today, meal)
      ensures weightEntries == old(weightEntries)
    {
      meal := MealEntry(
        req.name,
        req.proteinPerServing * req.servings,
        req.carbsPerServing * req.servings,
        req.fatPerServing * req.servings,
        req.caloriesPerServing * req.servings,
        req.servings);
      if today !in mealEntries {
        mealEntries := mealEntries[today := []];
      }
      mealEntries := mealEntries[today := mealEntries[today] + [meal]];
    }

    /** GET /meals/today: today's list (empty when none) with each total
        the sum of its field over that list. */
    function TodayMeals(today: string): (r: MealsPayload)
      reads this
      ensures r.meals == Some(MealsOn(mealEntries, today))
      ensures today !in mealEntries ==> r == MealsPayload(Some([]), Some(0.0), Some(0.0), Some(0.0), Some(0.0))
      ensures r.totalProtein == Some(Sum(r.meals.value, Protein))
      ensures r.totalCarbs == Some(Sum(r.meals.value, Carbs))
      ensures r.totalFat == Some(Sum(r.meals.value, Fat))
      ensures r.totalCalories == Some(Sum(r.meals.value, Calories))
    {
      var meals := if today in mealEntries then mealEntries[today] else [];
      MealsPayload(
        Some(meals),
        Some(Sum(meals, Protein)), Some(Sum(meals, Carbs)),
        Some(Sum(meals, Fat)), Some(Sum(meals, Calories)))
    }
  }

  // ---------- POST /nutrition-label ----------

  const NotImageDetail := "File must be an image"
  const EmptyDetail := "Empty image file"
  const NoTextDetail := "No text found in image. Please ensure the nutrition label is clearly visible."

  /** `await image.read()`: the uploaded bytes, or the message of what it raised. */
  datatype Upload = Bytes(contents: seq<bv8>) | ReadRaised(reason: string)

  /** `Image.open(...)` (and the RGB conversion): success, or the message of
      what it raised. */
  datatype Decoding = Opened | OpenRaised(reason: string)

  /** `pytesseract.image_to_string(img)`: the recognised text, or the
      message of what it raised. */
  datatype Ocr = Recognized(text: string) | OcrRaised(reason: string)

  /** The content type is present and starts with "image/". */
  predicate IsImageType(contentType: Option<string>)
  {
    contentType.Some? && "image/" <= contentType.value
  }

  /** How an HTTPException prints (`str(e)`): the decimal status code, a
      colon and a space, then the detail. */
  function StatusText(status: nat, detail: string): (r: string)
    ensures var k := |r| - |detail| - 2;
            && 0 < k && AllDigits(r[..k]) && DigitsValue(r[..k]) == status
            && r[k..] == ": " + detail
  {
    var code := IntText(status);
    var r := code + ": " + detail;
    assert r[..|code|] == code && r[|code|..] == ": " + detail;
    r
  }

  /** The OCR step as written: an empty recognition raises a 400 inside the
      `try`, and the `except Exception` right after it turns that into a 500. */
  function RecognizeAsWritten(ocr: Ocr): (r: Result<string, HttpError>)
    ensures ocr.Recognized? && !Blank(ocr.text, PySpace) ==> r == Success(ocr.text)
    ensures ocr.Recognized? && Blank(ocr.text, PySpace) ==> r.Failure? && r.error.status == 500
    ensures ocr.OcrRaised? ==> r.Failure? && r.error.status == 500
  {
    match ocr
    case OcrRaised(reason) => Failure(HttpError(500, "OCR processing failed: " + reason))
    case Recognized(text) =>
      if Trim(text, PySpace) == [] then
        Failure(HttpError(500, "OCR processing failed: " + StatusText(400, NoTextDetail)))
      else
        Success(text)
  }

  /** The OCR step as evidently intended: an empty recognition is the
      client's fault, answered 400 with the "No text found" detail. */
  function Recognize(ocr: Ocr): (r: Result<string, HttpError>)
    ensures ocr.Recognized? && !Blank(ocr.text, PySpace) ==> r == Success(ocr.text)
    ensures ocr.Recognized? && Blank(ocr.text, PySpace) ==> r == Failure(HttpError(400, NoTextDetail))
    ensures ocr.OcrRaised? ==> r.Failure? && r.error.status == 500
  {
    match ocr
    case OcrRaised(reason) => Failure(HttpError(500, "OCR processing failed: " + reason))
    case Recognized(text) =>
      if Trim(text, PySpace) == [] then Failure(HttpError(400, NoTextDetail))
      else Success(text)
  }

  /** Everything before OCR: content type, then read, then emptiness, then
      opening the image. The first failing check decides the answer. */
  function Admit(contentType: Option<string>, upload: Upload, decoding: Decoding): (r: Result<bool, HttpError>)
    ensures !IsImageType(contentType) ==> r == Failure(HttpError(400, NotImageDetail))
    ensures IsImageType(contentType) && upload.ReadRaised? ==>
              r == Failure(HttpError(500, "Unexpected error: " + upload.reason))
    ensures IsImageType(contentType) && upload == Bytes([]) ==> r == Failure(HttpError(400, EmptyDetail))
    ensures IsImageType(contentType) && upload.Bytes? && upload.contents != [] && decoding.OpenRaised? ==>
              r == Failure(HttpError(400, "Invalid image format: " + decoding.reason))
    ensures r.Failure? ==> r.error.status in {400, 500} && r.error.detail != ""
    ensures r.Success? <==> IsImageType(contentType) && upload.Bytes? && upload.contents != [] && decoding.Opened?
  {
    if !IsImageType(contentType) then Failure(HttpError(400, NotImageDetail))
    else match upload
      case ReadRaised(reason) => Failure(HttpError(500, "Unexpected error: " + reason))
      case Bytes(contents) =>
        if contents == [] then Failure(HttpError(400, EmptyDetail))
        else match decoding
          case OpenRaised(reason) => Failure(HttpError(400, "Invalid image format: " + reason))
          case Opened => Success(true)
  }

  const ParseFailurePrefix := "Failed to parse nutrition data from text: "

  /** The `try` around the parse: a parsed meal is the answer, and any
      exception raised while parsing becomes a 400 carrying its message. */
  function ParseAnswer(parsed: Result<MealRequest, string>): (r: Reply<MealRequest>)
    ensures r.Success? <==> parsed.Success?
    ensures r.Success? ==> Success(r.value) == parsed
    ensures r.Failure? ==> r.error == HttpError(400, ParseFailurePrefix + parsed.error)
  {
    match parsed
    case Success(meal) => Success(meal)
    case Failure(msg) => Failure(HttpError(400, ParseFailurePrefix + msg))
  }

  /** Parsing the recognised text as evidently intended; `search` stands
      for `normalize_text` followed by the label's keyword searches. */
  function ParseStep(text: string, search: string -> LabelCaptures): (r: Reply<MealRequest>)
    ensures r.Success? <==> ParseLabel(search(text)).Success?
    ensures r.Success? ==> Success(r.value) == ParseLabel(search(text))
    ensures r.Failure? ==>
              r.error == HttpError(400, ParseFailurePrefix + ParseLabel(search(text)).error)
  {
    ParseAnswer(ParseLabel(search(text)))
  }

  /** Parsing the recognised text as written; `letterSearch` stands for
      `normalize_text` followed by the protein search as written (one
      letter of "protein" followed by a number). It always fails: with the
      protein figure's `float()` error, or else with the carbohydrate
      pattern's `re.error`. */
  function ParseStepAsWritten(text: string, letterSearch: string -> Capture): (r: Reply<MealRequest>)
    ensures r.Failure? && r.error.status == 400
    ensures Extract(letterSearch(text)).Failure? ==>
              r.error.detail == ParseFailurePrefix + Extract(letterSearch(text)).error
    ensures Extract(letterSearch(text)).Success? ==> r.error.detail == ParseFailurePrefix + CarbsPatternError
  {
    ParseAnswer(ParseLabelAsWritten(letterSearch(text)))
  }

  /** POST /nutrition-label as written: no upload is ever answered with a
      meal. A rejected upload gets its check's answer, an OCR crash or blank
      text a 500, and readable text the parse's 400. */
  function ScanLabelAsWritten(contentType: Option<string>, upload: Upload, decoding: Decoding, ocr: Ocr,
                              letterSearch: string -> Capture): (r: Reply<MealRequest>)
    ensures r.Failure? && r.error.status in {400, 500}
    ensures Admit(contentType, upload, decoding).Failure? ==> r == Admit(contentType, upload, decoding).PropagateFailure()
    ensures Admit(contentType, upload, decoding).Success? && ocr.OcrRaised? ==>
              r == Failure(HttpError(500, "OCR processing failed: " + ocr.reason))
    ensures Admit(contentType, upload, decoding).Success? && ocr.Recognized? && Blank(ocr.text, PySpace) ==>
              r == Failure(HttpError(500, "OCR processing failed: " + StatusText(400, NoTextDetail)))
    ensures Admit(contentType, upload, decoding).Success? && ocr.Recognized? && !Blank(ocr.text, PySpace) ==>
              r == ParseStepAsWritten(ocr.text, letterSearch)
  {
    var _ :- Admit(contentType, upload, decoding);
    var text :- RecognizeAsWritten(ocr);
    ParseStepAsWritten(text, letterSearch)
  }

  /** POST /nutrition-label with the OCR step and the parse corrected: every
      client-side problem with the upload is a 400, only server-side
      failures are 500s, and readable text is parsed with keyword searches. */
  function ScanLabel(contentType: Option<string>, upload: Upload, decoding: Decoding, ocr: Ocr,
                     search: string -> LabelCaptures): (r: Reply<MealRequest>)
    ensures Admit(contentType, upload, decoding).Failure? ==> r == Admit(contentType, upload, decoding).PropagateFailure()
    ensures !IsImageType(contentType) ==> r == Failure(HttpError(400, NotImageDetail))
    ensures IsImageType(contentType) && upload == Bytes([]) ==> r == Failure(HttpError(400, EmptyDetail))
    ensures Admit(contentType, upload, decoding).Success? && ocr.OcrRaised? ==>
              r == Failure(HttpError(500, "OCR processing failed: " + ocr.reason))
    ensures Admit(contentType, upload, decoding).Success? && ocr.Recognized? && Blank(ocr.text, PySpace) ==>
              r == Failure(HttpError(400, NoTextDetail))
    ensures Admit(contentType, upload, decoding).Success? && ocr.Recognized? && !Blank(ocr.text, PySpace) ==>
              r == ParseStep(ocr.text, search)
    ensures r.Failure? ==> r.error.status in {400, 500} && r.error.detail != ""
    ensures r.Failure? && r.error.status == 500 ==> upload.ReadRaised? || ocr.OcrRaised?
    ensures r.Success? <==>
              && Admit(contentType, upload, decoding).Success?
              && ocr.Recognized? && !Blank(ocr.text, PySpace)
              && ParseLabel(search(ocr.text)).Success?
    ensures r.Success? ==> Success(r.value) == ParseLabel(search(ocr.text))
    ensures r.Success? ==> r.value.name == ScannedName && r.value.servings == 1.0
  {
    var _ :- Admit(contentType, upload, decoding);
    var text :- Recognize(ocr);
    ParseStep(text, search)
  }

  /** The two versions answer alike until there is text to read: on a
      rejected upload and on an OCR crash. */
  lemma ScanAgreesBeforeText(contentType: Option<string>, upload: Upload, decoding: Decoding, ocr: Ocr,
                             letterSearch: string -> Capture, search: string -> LabelCaptures)
    requires Admit(contentType, upload, decoding).Failure? || ocr.OcrRaised?
    ensures ScanLabelAsWritten(contentType, upload, decoding, ocr, letterSearch)
         == ScanLabel(contentType, upload, decoding, ocr, search)
  {
  }

  /** A concrete case of the blank-text discrepancy: a JPEG whose OCR text
      is a single newline gets 500 as written, where 400 was meant. */
  lemma BlankTextIsA500(letterSearch: string -> Capture, search: string -> LabelCaptures)
    ensures ScanLabelAsWritten(Some("image/jpeg"), Bytes([0xFF]), Opened, Recognized("\n"), letterSearch).error.status == 500
    ensures ScanLabel(Some("image/jpeg"), Bytes([0xFF]), Opened, Recognized("\n"), search)
         == Failure(HttpError(400, NoTextDetail))
  {
    assert IsImageType(Some("image/jpeg")) by { assert "image/" == "image/jpeg"[..6]; }
    assert Blank("\n", PySpace);
  }

  /** A concrete case of the parse discrepancy: a readable label whose
      figures are all well formed is refused as written with the
      carbohydrate pattern's error, where the intended parse reads it. */
  lemma ReadableLabelRefused(letterSearch: string -> Capture, search: string -> LabelCaptures)
    requires letterSearch("protein 5g") == Found("5")
    requires search("protein 5g") == LabelCaptures(Found("5"), NotFound, NotFound, NotFound, NotFound, NotFound)
    ensures ScanLabelAsWritten(Some("image/jpeg"), Bytes([0xFF]), Opened, Recognized("protein 5g"), letterSearch)
         == Failure(HttpError(400, ParseFailurePrefix + CarbsPatternError))
    ensures ScanLabel(Some("image/jpeg"), Bytes([0xFF]), Opened, Recognized("protein 5g"), search)
         == Success(MealRequest(ScannedName, 5.0, 0.0, 0.0, 0.0, 1.0))
  {
    assert IsImageType(Some("image/jpeg")) by { assert "image/" == "image/jpeg"[..6]; }
    assert !PySpace("protein 5g"[0]);
    assert FloatOf("5") == Some(5.0) by { assert "5"[..0] == ""; }
  }
}
