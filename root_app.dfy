/** App.tsx: the root component. Its `useState` fields become the fields of
    `Root`; each awaited request is an input outcome, and the date the
    client compares against is a parameter. */
module RootApp {
  import opened Shapes
  import opened Wire

  /** The three screens the root renders. */
  datatype Screen = LoadingScreen | WeightEntryScreen | MainScreen

  /** Today's meals and their totals as held by the client. */
  datatype Snapshot = Snapshot(meals: seq<MealEntry>, totals: Totals)

  /** JavaScript truthiness of a number that may be null: null and 0 are falsy. */
  predicate Truthy(x: Option<real>)
  {
    x.Some? && x.value != 0.0
  }

  /** `x || 0` for a JSON number that may be null or missing. */
  function OrZero(x: Option<real>): (r: real)
    ensures x.None? ==> r == 0.0
    ensures x.Some? ==> r == x.value
  {
    if Truthy(x) then x.value else 0.0
  }

  /** `todayWeight` after `checkTodayWeight`: the fetched weight when the
      answer carries `today` as its date, otherwise what it was. */
  function NextWeight(current: Option<real>, res: Fetch<WeightEntry>, today: string): (w: Option<real>)
    ensures w != current ==> res.Received? && res.data.Some? && res.data.value.date == today
    ensures res.Received? && res.data.Some? && res.data.value.date == today ==> w == Some(res.data.value.weight)
  {
    match res
    case Received(Some(entry)) => if entry.date == today then Some(entry.weight) else current
    case _ => current
  }

  /** `meals` and `totals` after `fetchTodayMeals`: the answer's list (or
      [] when null) and its totals (each 0 when null); a failed request, or
      a null body whose `.meals` read throws, resets both. */
  function MealsView(res: Fetch<MealsPayload>): (v: Snapshot)
    ensures !(res.Received? && res.data.Some?) ==> v == Snapshot([], NoTotals)
    ensures res.Received? && res.data.Some? ==>
              v.meals == (if res.data.value.meals.Some? then res.data.value.meals.value else [])
    ensures res.Received? && res.data.Some? ==>
              var p := res.data.value;
              && v.totals.protein == (if p.totalProtein.Some? then p.totalProtein.value else 0.0)
              && v.totals.carbs == (if p.totalCarbs.Some? then p.totalCarbs.value else 0.0)
              && v.totals.fat == (if p.totalFat.Some? then p.totalFat.value else 0.0)
              && v.totals.calories == (if p.totalCalories.Some? then p.totalCalories.value else 0.0)
  {
    match res
    case Received(Some(p)) =>
      Snapshot(
        if p.meals.Some? then p.meals.value else [],
        Totals(OrZero(p.totalProtein), OrZero(p.totalCarbs), OrZero(p.totalFat), OrZero(p.totalCalories)))
    case _ => Snapshot([], NoTotals)
  }

  /** The screen choice at the end of App.tsx: loading while the weight
      check is pending, then weight entry whenever `todayWeight` is falsy
      (null or 0), then the main screen. */
  function ScreenFor(isLoading: bool, todayWeight: Option<real>): (s: Screen)
    ensures s == LoadingScreen <==> isLoading
    ensures s == MainScreen <==> !isLoading && todayWeight.Some? && todayWeight.value != 0.0
  {
    if isLoading then LoadingScreen
    else if !Truthy(todayWeight) then WeightEntryScreen
    else MainScreen
  }

  /** A logged weight of 0 still shows the weight-entry screen. */
  lemma ZeroWeightShowsEntryScreen()
    ensures ScreenFor(false, Some(0.0)) == WeightEntryScreen
  {
  }

  /** An answer dated other than `today` leaves a fresh client on the
      weight-entry screen, though a row came back. */
  lemma StaleWeightShowsEntryScreen(res: Fetch<WeightEntry>, today: string)
    requires res.Received? && res.data.Some? && res.data.value.date != today
    ensures ScreenFor(false, NextWeight(None, res, today)) == WeightEntryScreen
  {
  }

  /** The device clock, read two ways: `toISOString()`, the UTC time
      ("YYYY-MM-DDTHH:mm:ss.sssZ"), and the local calendar date
      ("YYYY-MM-DD"). */
  datatype Clock = Clock(iso: string, localDate: string)

  /** `s.split(sep)[0]`: the text before the first `sep`, or all of `s`
      when it has none. */
  function FirstField(s: string, sep: char): (r: string)
    ensures r <= s && sep !in r
    ensures |r| == |s| || s[|r|] == sep
  {
    if s == [] || s[0] == sep then [] else [s[0]] + FirstField(s[1..], sep)
  }

  /** The first field is determined by those two properties: text without
      `sep` followed by `sep` splits off exactly that text. */
  lemma {:induction false} FirstFieldOf(head: string, tail: string, sep: char)
    requires sep !in head && tail != [] && tail[0] == sep
    ensures FirstField(head + tail, sep) == head
  {
    if head != [] {
      assert (head + tail)[0] == head[0] != sep;
      assert (head + tail)[1..] == head[1..] + tail;
      FirstFieldOf(head[1..], tail, sep);
    }
  }

  /** `new Date().toISOString().split('T')[0]`: the UTC date. */
  function IsoDate(now: Clock): (d: string)
    ensures d <= now.iso && 'T' !in d
    ensures |d| == |now.iso| || now.iso[|d|] == 'T'
  {
    FirstField(now.iso, 'T')
  }

  /** The local calendar date, the "today" the backends store under. */
  function LocalDate(now: Clock): string
  {
    now.localDate
  }

  /** As written, a weight the server stored under its (local) today is
      rejected whenever the UTC date has already moved on: at 20:00 on
      2026-10-19 in UTC-7 the UTC date is 2026-10-20. */
  lemma IsoDateRejectsTodaysWeight()
    ensures var now := Clock("2026-10-20T03:00:00.000Z", "2026-10-19");
            var res := Received(Some(WeightEntry(80.0, LocalDate(now))));
            && IsoDate(now) == "2026-10-20"
            && NextWeight(None, res, IsoDate(now)) == None
            && ScreenFor(false, NextWeight(None, res, IsoDate(now))) == WeightEntryScreen
  {
    assert "2026-10-20T03:00:00.000Z" == "2026-10-20" + "T03:00:00.000Z";
    FirstFieldOf("2026-10-20", "T03:00:00.000Z", 'T');
  }

  /** Compared against the local date, a weight the server stored under
      the same local today is always accepted. */
  lemma LocalDateAcceptsTodaysWeight(now: Clock, w: real, current: Option<real>)
    ensures NextWeight(current, Received(Some(WeightEntry(w, now.localDate))), LocalDate(now)) == Some(w)
  {
  }

  /** The root component's state. */
  class Root {
    var todayWeight: Option<real>
    var isLoading: bool
    var meals: seq<MealEntry>
    var totals: Totals

    constructor ()
      ensures todayWeight == None && isLoading && meals == [] && totals == NoTotals
    {
      todayWeight := None;
      isLoading := true;
      meals := [];
      totals := NoTotals;
    }

    /** `checkTodayWeight`: accepts a fetched weight only when its date is
        `today`; `isLoading` ends false on every path. */
    method CheckTodayWeight(today: string, res: Fetch<WeightEntry>)
      modifies this
      ensures todayWeight == NextWeight(old(todayWeight), res, today)
      ensures !isLoading
      ensures meals == old(meals) && totals == old(totals)
    {
      if res.Received? && res.data.Some? && res.data.value.date == today {
        todayWeight := Some(res.data.value.weight);
      }
      isLoading := false;
    }

    /** `fetchTodayMeals`: meals and totals are replaced wholesale. */
    method FetchTodayMeals(res: Fetch<MealsPayload>)
      modifies this
      ensures Snapshot(meals, totals) == MealsView(res)
      ensures todayWeight == old(todayWeight) && isLoading == old(isLoading)
    {
      if res.Received? && res.data.Some? {
        var p := res.data.value;
        meals := if p.meals.Some? then p.meals.value else [];
        totals := Totals(OrZero(p.totalProtein), OrZero(p.totalCarbs), OrZero(p.totalFat), OrZero(p.totalCalories));
      } else {
        meals := [];
        totals := Totals(0.0, 0.0, 0.0, 0.0);
      }
    }

    /** The mount effect, the two fetches taken one after the other; the
        weight check compares against the UTC date (`IsoDate`). */
    method Mount(now: Clock, weightRes: Fetch<WeightEntry>, mealsRes: Fetch<MealsPayload>)
      modifies this
      ensures todayWeight == NextWeight(old(todayWeight), weightRes, IsoDate(now))
      ensures !isLoading
      ensures Snapshot(meals, totals) == MealsView(mealsRes)
    {
      CheckTodayWeight(IsoDate(now), weightRes);
      FetchTodayMeals(mealsRes);
    }

    /** The mount effect with the weight check corrected to compare against
        the local date, the date the backends store under. */
    method MountCorrected(now: Clock, weightRes: Fetch<WeightEntry>, mealsRes: Fetch<MealsPayload>)
      modifies this
      ensures todayWeight == NextWeight(old(todayWeight), weightRes, LocalDate(now))
      ensures weightRes.Received? && weightRes.data.Some? && weightRes.data.value.date == now.localDate ==>
                todayWeight == Some(weightRes.data.value.weight)
      ensures !isLoading
      ensures Snapshot(meals, totals) == MealsView(mealsRes)
    {
      CheckTodayWeight(LocalDate(now), weightRes);
      FetchTodayMeals(mealsRes);
    }

    /** `handleWeightSubmit`: `todayWeight` is set only once the POST has
        resolved (`posted`); a rejected POST is passed on (`ok` false) and
        changes nothing. */
    method HandleWeightSubmit(weight: real, posted: bool) returns (body: WeightRequest, ok: bool)
      modifies this
      ensures body == WeightRequest(weight)
      ensures ok == posted
      ensures todayWeight == (if posted then Some(weight) else old(todayWeight))
      ensures isLoading == old(isLoading) && meals == old(meals) && totals == old(totals)
    {
      body := WeightRequest(weight);
      ok := posted;
      if posted {
        todayWeight := Some(weight);
      }
    }

    /** `handleMealSubmit`: posts the renamed meal; once the POST resolves,
        meals and totals are replaced by a re-fetch, never appended to
        locally. A rejected POST is passed on and changes nothing. */
    method HandleMealSubmit(meal: MealEntry, posted: bool, refetch: Fetch<MealsPayload>)
      returns (body: MealRequest, ok: bool)
      modifies this
      ensures body == ToWire(meal)
      ensures ok == posted
      ensures posted ==> Snapshot(meals, totals) == MealsView(refetch)
      ensures !posted ==> meals == old(meals) && totals == old(totals)
      ensures todayWeight == old(todayWeight) && isLoading == old(isLoading)
    {
      body := MealRequest(meal.name, meal.protein, meal.carbs, meal.fat, meal.calories, meal.servings);
      ok := posted;
      if posted {
        FetchTodayMeals(refetch);
      }
    }
  }
}
