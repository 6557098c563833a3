# Weight and meal tracker, modelled in Dafny

This project models a small nutrition tracker. It has two parts.

- A backend keeps, per calendar day, one body weight and a list of meals. It exists twice, once in FastAPI (`backend/main.py`) and once in gin (`backend/main.go`). The Python service can also read a photographed nutrition label by OCR and parse it into a meal.
- A React Native client shows a weight-entry screen until today's weight is known, then a meal form and today's meals and totals. It also has a label-upload component.

The model keeps each source file's own form:

- The backends' in-memory maps are the fields of the classes `PyBackend.Store` and `GoBackend.Server`.
- Each React component's `useState` fields are the fields of a class: `RootApp.Root`, `WeightForm.Form`, `MealForm.Form` and `LabelUpload.Uploader`.
- Each handler is a method over those fields.
- The shared arithmetic is pure functions in `Diary`, and the label parser is pure functions in `LabelParser`. This covers scaling a meal by its servings, the per-day tables and the running totals.
- `EndToEnd` proves properties of the client and the backends together.

Modules:

| file | module | models |
|---|---|---|
| shapes.dfy | Shapes | the records exchanged: weight and meal requests and entries, totals, HTTP errors, `Option`/`Result` |
| text.dfy | Text | `trim()`/`strip()`, with JavaScript's and Python's white-space sets, and integers printed as decimal text |
| wire.dfy | Wire | the `*_per_serving` renaming between client and server, and what an awaited axios request yields |
| diary.dfy | Diary | the per-day tables both backends keep, meal scaling and totals |
| label_parser.dfy | LabelParser | `extract`, `extract_calories`, `parse_nutrition_text` of `backend/main.py` |
| backend_py.dfy | PyBackend | the FastAPI routes, including `POST /nutrition-label` |
| backend_go.dfy | GoBackend | the gin routes |
| root_app.dfy | RootApp | `App.tsx` |
| weight_form.dfy | WeightForm | `src/components/WeightEntry.tsx` |
| meal_form.dfy | MealForm | `src/components/MealEntry.tsx` |
| label_upload.dfy | LabelUpload | `src/components/NutritionLabelUpload.tsx` |
| end_to_end.dfy | EndToEnd | client and backends together |

The model handles inputs it cannot compute as follows:

- The date `today()` is a parameter. The server's local date is the key of both tables.
- JavaScript's `parseFloat` is a function parameter, where `None` stands for NaN.
- The OCR engine, the image decoder and the upload read are inputs, one datatype each. Each is either a value or the message of what it raised.
- The label's regular-expression searches are summarised by their captures. For the parse as evidently intended this is a `LabelCaptures` value. For the parse as written it is the one capture read before the parse fails.
- Each awaited request is an input outcome.

Python's `float()` is modelled exactly on the digit-and-dot strings those searches can capture.

Points of the source worth knowing when reading the model:

- The client compares today's weight against the UTC date (`toISOString`), not the local date. This is a finding below.
- Both backends store meals already multiplied by their servings (backend/main.py:106-113, backend/main.go:61-68). The client shows the stored figures as they are.
- No root component mounts the label-upload component, and there is no manual/scan toggle. The scan path ends at `onSubmit`.
- The forms reject only what `parseFloat` turns into NaN (src/components/WeightEntry.tsx:16, src/components/MealEntry.tsx:27-32). Text such as "12abc" is accepted as 12.
- As written, `extract` is given one keyword string, and `"|".join` spreads its letters into the pattern. The carbohydrate pattern is then invalid, so the label endpoint never answers with a meal. This is a finding below. The model keeps the as-written parse beside the parse with keyword lists.

## Model

| member | source | states |
|---|---|---|
| Text.Trim | src/components/WeightEntry.tsx:45 | trimming leaves nothing exactly when the text is all white space |
| Text.IntText | src/components/NutritionLabelUpload.tsx:108 | a status prints as digits without a leading zero that read back as its value, after a '-' when negative |
| Wire.ToWire | App.tsx:65-72 | the posted body carries each macro under its per-serving name, name and servings unchanged |
| Wire.FromWire | src/components/NutritionLabelUpload.tsx:87-94 | a scan answer's per-serving fields become the meal's bare macro fields |
| Wire.RenameRoundTrip | App.tsx:65-72 | the two renamings are inverse in both directions |
| Wire.Deliver | App.tsx:32-36 | an error status rejects the request; a 200 resolves with its body |
| Diary.Scale | backend/main.py:106-113 | a stored meal has each macro equal to per-serving value times servings, name and servings kept |
| Diary.MealsOn | backend/main.py:119 | a day's stored list, or [] for a day never logged |
| Diary.AppendMeal | backend/main.py:114 | the meal goes at the end of its day's list (created if absent); every other day is untouched |
| Diary.RecordWeight | backend/main.py:95 | the day's weight is set; every other day is untouched |
| Diary.LastWeightWins | backend/main.py:95 | two weights logged on one day leave only the second |
| Diary.RecordWeightIdempotent | backend/main.py:95 | logging the same weight twice is the same as once |
| Diary.Sum | backend/main.py:121-124 | a sum over no meals is 0, over one meal its amount |
| Diary.SumNonNegative | backend/main.py:121-124 | a sum over meals none of whose amounts is negative is not negative |
| Diary.TotalsOf | backend/main.py:120-125 | each total is the sum of its macro over the day's meals |
| Diary.SumConcat | backend/main.py:121-124 | a macro's sum over two lists joined is the sum of the two sums |
| Diary.TotalsConcat | backend/main.py:120-125 | totals add field by field over concatenated lists |
| Diary.TotalsAfterLogging | backend/main.py:104-125 | logging a meal raises that day's totals by per-serving value times servings, and no other day's |
| Diary.LoggedDay | backend/main.py:104-125 | logging a sequence of meals adds one list entry each, raises the day's sums by exactly their intake, and leaves other days alone |
| LabelParser.FloatOf | backend/main.py:78 | `float()` of a digit-and-dot capture succeeds exactly when it has at most one dot and a digit; an all-digit capture reads as its integer value |
| LabelParser.FloatError | backend/main.py:78 | `float()`'s ValueError message: the fixed prefix, then the rejected text between single quotes |
| LabelParser.ToFloat | backend/main.py:78 | `float()` succeeds exactly on decimal text, otherwise raises its ValueError message |
| LabelParser.DecimalComma | backend/main.py:56 | same length; every comma becomes a dot and every other character is kept |
| LabelParser.Extract | backend/main.py:75-78 | a missing keyword gives 0; a found one gives the float of its capture, or `float()`'s error message for that capture |
| LabelParser.Round2 | backend/main.py:62 | the result is a multiple of 0.01 within 0.005 of the input |
| LabelParser.Round2Idempotent | backend/main.py:62 | rounding twice is rounding once |
| LabelParser.ExtractCalories | backend/main.py:52-69 | a kcal figure decides, comma read as a dot; else a kJ figure succeeds exactly when it is decimal text, giving it divided by 4.184 and rounded, or else `float()`'s error for it; else the generic figure, then 0 |
| LabelParser.KcalTakesPrecedence | backend/main.py:54-56 | a kcal figure decides whatever the other searches found |
| LabelParser.KjBeforeGeneric | backend/main.py:59-62 | without kcal, a kJ figure decides whatever the generic search found |
| LabelParser.KilojoulesConverted | backend/main.py:59-62 | 2092 kJ reads as 500 kcal |
| LabelParser.ParseLabelAsWritten | backend/main.py:72-87 | as written it never succeeds: the error is the protein figure's `float()` error, or else the carbohydrate pattern's "nothing to repeat at position 77" |
| LabelParser.ParseLabel | backend/main.py:72-87 | as intended, with keyword lists: succeeds exactly when all four figures parse; then named "Scanned Label", one serving, each macro its own figure; otherwise the error of the first bad figure in the order protein, carbs, fat, calories |
| LabelParser.NothingFound | backend/main.py:75-87 | with the intended parse, a label with no keyword parses to all zeros |
| LabelParser.MalformedFigureFails | backend/main.py:76-78 | a capture "1.2.3" fails the whole parse |
| LabelParser.FloatOfOneDot | backend/main.py:78 | a capture with one dot and a digit after it reads as its whole part plus its fraction over the matching power of ten |
| LabelParser.WholeNumberExample | backend/main.py:78 | "12" reads as 12 |
| LabelParser.DecimalExample | backend/main.py:78 | "12.5" reads as 12.5 |
| LabelParser.LoneDotRejected | backend/main.py:78 | "." is rejected |
| PyBackend.Store.constructor | backend/main.py:18-19 | both tables start empty |
| PyBackend.Store.LogWeight | backend/main.py:93-96 | today's weight is overwritten and echoed with today's date; meals untouched |
| PyBackend.Store.TodayWeight | backend/main.py:98-102 | 404 "No weight entry for today" exactly when today has no weight, else the stored weight dated today |
| PyBackend.Store.LogMeal | backend/main.py:104-115 | the scaled meal is appended to today's list and returned; weights untouched |
| PyBackend.Store.TodayMeals | backend/main.py:117-126 | today's list (empty when absent) and each total the sum over that list |
| PyBackend.StatusText | backend/main.py:154 | `str()` of an HTTPException: digits reading back as the status, then ": " and the detail |
| PyBackend.RecognizeAsWritten | backend/main.py:148-154 | blank OCR text, as written, ends in a 500 like an OCR crash |
| PyBackend.Recognize | backend/main.py:148-154 | blank OCR text is a 400 with the "No text found" detail; an OCR crash is a 500 |
| PyBackend.Admit | backend/main.py:131-166 | checks in order, each with its detail: non-image type 400, read failure 500 "Unexpected error: ..." through the outer handler, empty file 400, undecodable image 400 "Invalid image format: ..."; passes exactly when all pass |
| PyBackend.ParseAnswer | backend/main.py:156-161 | a parsed meal is the answer; a parse exception is a 400 "Failed to parse nutrition data from text: " plus its message |
| PyBackend.ParseStep | backend/main.py:156-161 | with the intended parse: succeeds exactly when the parse does, with the parsed meal; otherwise that 400 with the parse error |
| PyBackend.ParseStepAsWritten | backend/main.py:156-161 | as written: always that 400, with the protein figure's `float()` error or else the carbohydrate pattern's error |
| PyBackend.ScanLabelAsWritten | backend/main.py:128-166 | as written: never a meal; a rejected upload gets its check's answer, an OCR crash a 500 "OCR processing failed: ...", blank text a 500 wrapping the 400 text, readable text the parse's 400 |
| PyBackend.ScanLabel | backend/main.py:128-166 | corrected: a rejected upload gets its check's answer, an OCR crash the same 500, blank text a 400 "No text found", readable text the intended parse's answer; a 500 only for a read or OCR crash; succeeds exactly when admitted, OCR gives non-blank text and it parses, and then answers the parsed meal |
| PyBackend.ScanAgreesBeforeText | backend/main.py:128-154 | the two versions answer alike on a rejected upload and on an OCR crash |
| PyBackend.ReadableLabelRefused | backend/main.py:76-84 | the readable label "protein 5g" is a 400 with the pattern error as written and a meal with 5 g protein as intended |
| PyBackend.BlankTextIsA500 | backend/main.py:149-154 | a JPEG read as "\n" gets 500 as written and 400 corrected |
| GoBackend.Server.constructor | backend/main.go:11-12 | both maps start empty |
| GoBackend.Server.PostWeight | backend/main.go:44-52 | an unbindable payload is a 400 "Invalid payload" changing nothing; otherwise today's weight is overwritten and echoed |
| GoBackend.Server.PostMeal | backend/main.go:55-71 | an unbindable payload is a 400 changing nothing; otherwise the scaled meal is appended and echoed |
| GoBackend.Server.MealsToday | backend/main.go:74-90 | the loop's four accumulators end as the sums over today's meals; the list is null exactly when today has no entry |
| GoBackend.Server.WeightToday | backend/main.go:93-100 | 404 exactly when today has no weight, else the stored weight dated today |
| RootApp.OrZero | App.tsx:48-51 | a null total reads as 0, any number as itself |
| RootApp.NextWeight | App.tsx:29-41 | the weight changes only to an answer dated today, and always does for such an answer |
| RootApp.MealsView | App.tsx:43-57 | the list (or [] for null) and each total (or 0 for null); a failed or empty answer resets both |
| RootApp.ScreenFor | App.tsx:76-90 | loading exactly while loading; the main screen exactly when a non-zero weight is known |
| RootApp.ZeroWeightShowsEntryScreen | App.tsx:86-88 | a weight of 0 still shows the weight-entry screen |
| RootApp.StaleWeightShowsEntryScreen | App.tsx:31-35 | an answer dated other than today leaves the weight-entry screen up |
| RootApp.FirstField | App.tsx:31 | `split(sep)[0]`: a prefix without `sep` that ends at the first `sep` or at the end |
| RootApp.FirstFieldOf | App.tsx:31 | text without `sep` followed by `sep` splits off exactly that text |
| RootApp.IsoDate | App.tsx:31 | today is the part of the UTC timestamp before its 'T' |
| RootApp.IsoDateRejectsTodaysWeight | App.tsx:31 | at 20:00 on 2026-10-19 in UTC-7 the client's today is 2026-10-20, so a weight stored for 2026-10-19 is rejected |
| RootApp.LocalDateAcceptsTodaysWeight | App.tsx:31-35 | compared with the local date, a weight stored for today is always accepted |
| RootApp.Root.constructor | App.tsx:14-22 | no weight, loading, no meals, zero totals |
| RootApp.Root.CheckTodayWeight | App.tsx:29-41 | the weight follows `NextWeight`, loading ends on every path, meals untouched |
| RootApp.Root.FetchTodayMeals | App.tsx:43-57 | meals and totals are replaced by `MealsView` of the answer |
| RootApp.Root.Mount | App.tsx:24-41 | after both fetches the weight follows `NextWeight` against the UTC date `IsoDate`, loading has ended, and meals and totals are as the meals fetch sets them |
| RootApp.Root.MountCorrected | App.tsx:24-41 | the same with the weight check against the local date: a weight dated the local today is always taken |
| RootApp.Root.HandleWeightSubmit | App.tsx:59-62 | posts the weight; sets it only once the POST resolves |
| RootApp.Root.HandleMealSubmit | App.tsx:64-74 | posts the renamed meal; on success meals are re-fetched, never appended locally |
| WeightForm.SubmitDisabled | src/components/WeightEntry.tsx:45 | the button is disabled exactly when the input is all white space |
| WeightForm.AcceptedImpliesEnabled | src/components/WeightEntry.tsx:15-19 | input the handler accepts never has the button disabled |
| WeightForm.Form.constructor | src/components/WeightEntry.tsx:11-12 | empty input and status |
| WeightForm.Form.HandleSubmit | src/components/WeightEntry.tsx:14-27 | NaN is refused without a call and kept; otherwise the parsed weight is submitted, the input cleared only on success |
| MealForm.Validate | src/components/MealEntry.tsx:26-46 | refused exactly when the name is empty or some numeric field is NaN; otherwise each parsed value in its own slot |
| MealForm.AddDisabled | src/components/MealEntry.tsx:108 | disabled exactly when some field is all white space |
| MealForm.ButtonAgreesWithHandler | src/components/MealEntry.tsx:26-33 | for a form the handler accepts, the button is disabled exactly when the name is blank |
| MealForm.SpacesNamePassesHandler | src/components/MealEntry.tsx:27 | for any `parseFloat` that gives NaN on blank text and 1 on "1", a name of one space passes the handler though the button is disabled |
| MealForm.Form.constructor | src/components/MealEntry.tsx:17-23 | all fields and the status empty |
| MealForm.Form.HandleSubmit | src/components/MealEntry.tsx:25-58 | submits `Validate` of the fields; refused forms are kept; fields clear only when the submit resolves |
| LabelUpload.LastSegment | src/components/NutritionLabelUpload.tsx:65 | the text after the last '/', holding no '/' |
| LabelUpload.Filename | src/components/NutritionLabelUpload.tsx:65 | that segment, or "image.jpg" exactly when the URI is empty or ends in '/' |
| LabelUpload.BareNameIsKept | src/components/NutritionLabelUpload.tsx:65 | a URI without '/' is its own file name |
| LabelUpload.DetailOr | src/components/NutritionLabelUpload.tsx:104 | a missing or empty detail gives the fallback |
| LabelUpload.ErrorMessage | src/components/NutritionLabelUpload.tsx:100-112 | 400 shows the detail or the invalid-image text; 500 the unreadable text; another status "Server error: N - detail"; no answer the network text |
| LabelUpload.ServerErrorsAreLabelled | src/components/NutritionLabelUpload.tsx:107-108 | any status other than 400 and 500 reads as a server error |
| LabelUpload.Chosen | src/components/NutritionLabelUpload.tsx:25 | an asset is uploaded exactly when the pick was not cancelled and has one; it is the first |
| LabelUpload.FinishFor | src/components/NutritionLabelUpload.tsx:86-114 | `onSubmit` is called exactly on success, with the remapped meal and the success alert; errors alert their message |
| LabelUpload.Uploader.constructor | src/components/NutritionLabelUpload.tsx:14 | not loading |
| LabelUpload.Uploader.UploadImage | src/components/NutritionLabelUpload.tsx:55-118 | loading is switched on then off on every path; the part is a JPEG named by `Filename`; the outcome is `FinishFor` |
| LabelUpload.Uploader.PickImage | src/components/NutritionLabelUpload.tsx:16-31 | a picker error alerts and uploads nothing; a cancel does nothing; otherwise the first asset is uploaded |
| LabelUpload.Uploader.TakePhoto | src/components/NutritionLabelUpload.tsx:33-53 | the camera opens only with permission "granted"; a refusal alerts and uploads nothing; errors alert; otherwise the first asset is uploaded |
| EndToEnd.OverHttp | src/components/NutritionLabelUpload.tsx:102-104 | a FastAPI error arrives as a response with its status and detail |
| EndToEnd.PyMealsMirrored | App.tsx:43-57 | the client holds exactly today's stored meals and their sums |
| EndToEnd.GoMealsMirrored | App.tsx:46 | the same for the Go answer, whose null list reads as [] |
| EndToEnd.StoredWeightReachesClient | App.tsx:29-35 | as written, a weight stored under the local date is shown on the next check when the UTC date is the same day |
| EndToEnd.StoredWeightReachesCorrectedClient | App.tsx:29-35 | with the check against the local date, a weight stored under it is always shown |
| EndToEnd.MissingWeightKeepsClientState | App.tsx:36-37 | the 404 for a missing weight leaves the client's weight as it was |
| EndToEnd.FormMealIsScaled | App.tsx:64-72 | a form meal is stored with every macro times its servings |
| EndToEnd.EggsAreDoubled | App.tsx:65-72 | the Eggs meal is posted as entered and stored doubled |
| EndToEnd.ScannedLabelLoggedAsParsed | src/components/NutritionLabelUpload.tsx:87-96 | a scanned meal re-posts to exactly the parsed request and is stored unscaled |
| EndToEnd.ScanRejectionsReachUser | src/components/NutritionLabelUpload.tsx:102-106 | a scan's 400 shows the server's detail, a 500 the unreadable text, and `onSubmit` is not called |
| EndToEnd.NoScanReachesForm | src/components/NutritionLabelUpload.tsx:86-114 | as written, no upload calls `onSubmit`; every upload ends in an error alert |
| EndToEnd.BlankLabelMessages | src/components/NutritionLabelUpload.tsx:103-106 | a blank label shows the unreadable text as written and "No text found" corrected |

## Left out

- Networking, JSON encoding, CORS and the server processes are not modelled. Each request's outcome is an input.
- FastAPI's 422 answer for a body missing a field is left out. It is generated before any handler runs.
- Go's binding of a missing number as 0 is left out. The Go payload is modelled as either a bound request or an unbindable one.
- Floating point is left out. Weights and macros are exact reals, so float rounding in the sums and products is not modelled.
- LabelParser.Round2: rounds the exact quotient half to even. Python rounds the binary double, which can differ on values near a tie.
- The regular expressions and `normalize_text` (NFKD, lower-casing, ASCII folding) are left out. Their matches are the input `LabelCaptures`.
- Tesseract OCR and Pillow image decoding are left out. Their outcomes are inputs.
- WeightForm.Form.HandleSubmit and MealForm.Validate: `parseFloat` is a parameter, so the prefix parsing it does on text such as "12abc" is not modelled.
- Rendering, styles, the meal list component and the upload buttons' `disabled={isLoading}` are left out. They are presentation only.
- The 30-second upload timeout is left out. A timeout reaches the component as a request without a response (`NoResponse`).
- RootApp.Root.Mount and RootApp.Root.MountCorrected: the two initial requests run one after the other. They write disjoint fields, so the final state does not depend on their order.
- `console.log` and `console.error` calls are left out.

## Findings

| source | as written | input that shows it | evidently intended | confidence | as-written member | corrected member |
|---|---|---|---|---|---|---|
| backend/main.py:149-154 | the 400 raised for blank OCR text is inside the `try` whose `except Exception` turns it into a 500 "OCR processing failed: 400: No text found ..." | a decodable JPEG whose OCR text is "\n" | a 400 with the "No text found" detail, so the client shows that detail | high; not executed | PyBackend.BlankTextIsA500 | PyBackend.ScanLabel |
| backend/main.py:76-84 | `extract` is handed one string, so joining `keywords` with bars joins its letters. The protein pattern matches any one letter of "protein". The carbohydrate pattern ends in the alternative `?`, which `re` rejects ("nothing to repeat at position 77"). Line 160 turns that into a 400 | any accepted image with readable text, e.g. "protein 5g" | pass each keyword list (`["protein"]`, `["carbohydrate", "carbohydrates", "total carbs?"]`, `["total fat"]`) so each search is for whole words and a label parses | high; not executed | PyBackend.ReadableLabelRefused | PyBackend.ScanLabel |
| App.tsx:31 | the client takes today as the UTC date (`toISOString`), while both backends store under their local date | device and server in UTC-7 at 20:00 on 2026-10-19: the server answers date 2026-10-19, the client compares with 2026-10-20 | compare against the local calendar date, so a weight logged today is accepted | high; not executed | RootApp.IsoDateRejectsTodaysWeight | RootApp.Root.MountCorrected |
