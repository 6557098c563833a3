/** How the client and the two backends fit together: what a server answer
    becomes on screen, and what a form or a scanned label becomes in the
    diary. */
module EndToEnd {
  import opened Shapes
  import opened Wire
  import opened Diary
  import opened RootApp
  import opened LabelUpload
  import PyBackend
  import LabelParser

  /** A FastAPI answer as axios reports it: an HTTPException becomes an
      error response whose JSON body is `{"detail": ...}`. */
  function OverHttp(r: Reply<MealRequest>): (a: Result<MealRequest, UploadError>)
    ensures a.Success? <==> r.Success?
    ensures r.Success? ==> a.value == r.value
    ensures r.Failure? ==> a.error == ErrorResponse(r.error.status, Some(r.error.detail))
  {
    match r
    case Success(v) => Success(v)
    case Failure(e) => Failure(ErrorResponse(e.status, Some(e.detail)))
  }

  /** After fetching from the Python service, the client holds exactly
      today's stored meals and their sums. */
  lemma PyMealsMirrored(s: PyBackend.Store, today: string)
    ensures MealsView(Deliver(Success(s.TodayMeals(today))))
         == Snapshot(MealsOn(s.mealEntries, today), TotalsOf(MealsOn(s.mealEntries, today)))
  {
  }

  /** The same for the Go service, whose answer carries a null list when
      today has no entry: any answer `GoBackend.Server.MealsToday` may give
      is shown as today's meals and their sums. */
  lemma GoMealsMirrored(entries: Meals, today: string, p: MealsPayload)
    requires p.meals.None? <==> today !in entries
    requires p.meals.Some? ==> p.meals.value == entries[today]
    requires p.totalProtein == Some(Sum(MealsOn(entries, today), Protein))
    requires p.totalCarbs == Some(Sum(MealsOn(entries, today), Carbs))
    requires p.totalFat == Some(Sum(MealsOn(entries, today), Fat))
    requires p.totalCalories == Some(Sum(MealsOn(entries, today), Calories))
    ensures MealsView(Received(Some(p))) == Snapshot(MealsOn(entries, today), TotalsOf(MealsOn(entries, today)))
  {
    var ms := MealsOn(entries, today);
    assert forall k :: Total(TotalsOf(ms), k) == Sum(ms, k);
    assert TotalsOf(ms) == Totals(Sum(ms, Protein), Sum(ms, Carbs), Sum(ms, Fat), Sum(ms, Calories)) by {
      assert Total(TotalsOf(ms), Protein) == Sum(ms, Protein);
      assert Total(TotalsOf(ms), Carbs) == Sum(ms, Carbs);
      assert Total(TotalsOf(ms), Fat) == Sum(ms, Fat);
      assert Total(TotalsOf(ms), Calories) == Sum(ms, Calories);
    }
  }

  /** As written, a weight the service stored under the client's local
      today is shown by the check only while the UTC date is that same day. */
  lemma StoredWeightReachesClient(s: PyBackend.Store, now: Clock, current: Option<real>)
    requires LocalDate(now) in s.weightEntries
    requires IsoDate(now) == LocalDate(now)
    ensures NextWeight(current, Deliver(s.TodayWeight(LocalDate(now))), IsoDate(now))
         == Some(s.weightEntries[LocalDate(now)])
  {
  }

  /** With the check corrected to the local date, a weight the service
      stored under the client's local today is always shown. */
  lemma StoredWeightReachesCorrectedClient(s: PyBackend.Store, now: Clock, current: Option<real>)
    requires LocalDate(now) in s.weightEntries
    ensures NextWeight(current, Deliver(s.TodayWeight(LocalDate(now))), LocalDate(now))
         == Some(s.weightEntries[LocalDate(now)])
  {
  }

  /** With no weight stored for today the 404 rejects the request and the
      client keeps what it had. */
  lemma MissingWeightKeepsClientState(s: PyBackend.Store, today: string, current: Option<real>)
    requires today !in s.weightEntries
    ensures NextWeight(current, Deliver(s.TodayWeight(today)), today) == current
  {
  }

  /** A meal entered in the form is stored with every macro multiplied by
      its servings. */
  lemma FormMealIsScaled(m: MealEntry)
    ensures Scale(ToWire(m)).name == m.name && Scale(ToWire(m)).servings == m.servings
    ensures forall k :: Amount(Scale(ToWire(m)), k) == Amount(m, k) * m.servings
  {
    forall k
      ensures Amount(Scale(ToWire(m)), k) == Amount(m, k) * m.servings
    {
      assert PerServing(ToWire(m), k) == Amount(m, k);
    }
  }

  /** Eggs entered as 12 g protein, 1 g carbs, 10 g fat and 140 kcal with
      2 servings are posted under the per-serving names as entered, and
      stored doubled. */
  lemma EggsAreDoubled()
    ensures ToWire(MealEntry("Eggs", 12.0, 1.0, 10.0, 140.0, 2.0))
         == MealRequest("Eggs", 12.0, 1.0, 10.0, 140.0, 2.0)
    ensures Scale(ToWire(MealEntry("Eggs", 12.0, 1.0, 10.0, 140.0, 2.0)))
         == MealEntry("Eggs", 24.0, 2.0, 20.0, 280.0, 2.0)
  {
  }

  /** A parsed label handed on by the upload component, were its
      `onSubmit` the root's `handleMealSubmit`, is posted and stored
      exactly as parsed: a scan is one serving. */
  lemma ScannedLabelLoggedAsParsed(contentType: Option<string>, upload: PyBackend.Upload,
                                   decoding: PyBackend.Decoding, ocr: PyBackend.Ocr,
                                   search: string -> LabelParser.LabelCaptures)
    requires PyBackend.ScanLabel(contentType, upload, decoding, ocr, search).Success?
    ensures var req := PyBackend.ScanLabel(contentType, upload, decoding, ocr, search).value;
            var f := FinishFor(OverHttp(PyBackend.ScanLabel(contentType, upload, decoding, ocr, search)));
            && f.alert == SuccessAlert
            && f.submitted.Some?
            && f.submitted.value.name == LabelParser.ScannedName
            && Scale(ToWire(f.submitted.value)) == f.submitted.value
            && ToWire(f.submitted.value) == req
  {
    var req := PyBackend.ScanLabel(contentType, upload, decoding, ocr, search).value;
    RenameRoundTrip(FromWire(req), req);
    assert req.servings == 1.0;
  }

  /** Every rejection of a scan reaches the user as the server's own detail
      (400) or as the unreadable-image message (500), never as a generic
      server error. */
  lemma ScanRejectionsReachUser(contentType: Option<string>, upload: PyBackend.Upload,
                                decoding: PyBackend.Decoding, ocr: PyBackend.Ocr,
                                search: string -> LabelParser.LabelCaptures)
    requires PyBackend.ScanLabel(contentType, upload, decoding, ocr, search).Failure?
    ensures var e := PyBackend.ScanLabel(contentType, upload, decoding, ocr, search).error;
            var f := FinishFor(OverHttp(PyBackend.ScanLabel(contentType, upload, decoding, ocr, search)));
            && f.submitted.None?
            && (e.status == 400 ==> f.alert == Alert(ErrorTitle, e.detail))
            && (e.status == 500 ==> f.alert == Alert(ErrorTitle, UnreadableMessage))
  {
  }

  /** A label whose text is blank: as written the user is told the image
      could not be processed; as intended they are told no text was found. */
  lemma BlankLabelMessages(letterSearch: string -> LabelParser.Capture, search: string -> LabelParser.LabelCaptures)
    ensures FinishFor(OverHttp(PyBackend.ScanLabelAsWritten(
              Some("image/jpeg"), PyBackend.Bytes([0xFF]), PyBackend.Opened, PyBackend.Recognized("\n"), letterSearch))).alert
         == Alert(ErrorTitle, UnreadableMessage)
    ensures FinishFor(OverHttp(PyBackend.ScanLabel(
              Some("image/jpeg"), PyBackend.Bytes([0xFF]), PyBackend.Opened, PyBackend.Recognized("\n"), search))).alert
         == Alert(ErrorTitle, PyBackend.NoTextDetail)
  {
    PyBackend.BlankTextIsA500(letterSearch, search);
  }

  /** As written, no scan reaches `onSubmit`: every upload ends in an error
      alert. */
  lemma NoScanReachesForm(contentType: Option<string>, upload: PyBackend.Upload,
                          decoding: PyBackend.Decoding, ocr: PyBackend.Ocr,
                          letterSearch: string -> LabelParser.Capture)
    ensures FinishFor(OverHttp(PyBackend.ScanLabelAsWritten(contentType, upload, decoding, ocr, letterSearch))).submitted.None?
    ensures FinishFor(OverHttp(PyBackend.ScanLabelAsWritten(contentType, upload, decoding, ocr, letterSearch))).alert.title
         == ErrorTitle
  {
  }
}
