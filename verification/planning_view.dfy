/**
 * The front-end planning view of one line for one week: six days, each with
 * a list of editable reference rows. Only the pure helpers are modelled; the
 * Angular signals become an `Option<WeekPlanification>` value passed in and
 * returned.
 */
module PlanningView {
  import opened Wrappers
  import opened JsMath
  import opened Days

  /** One editable row. The view's numbers are integers here. */
  datatype ReferenceProduction = ReferenceProduction(
    reference: string,
    of: string,
    qtePlanifier: int,
    nhPlanifier: int,
    emballage: int,
    nop: int,
    nhRealiser: int,
    decProd: int,
    deltaProd: int,
    pcsProd: int,
    decMag: int,
    deltaProdMag: int
  )

  datatype ProductionDay = ProductionDay(day: string, date: string, production: int, references: seq<ReferenceProduction>)

  datatype WeekPlanification = WeekPlanification(weekNumber: int, ligne: string, days: seq<ProductionDay>)

  /** Indexing past the end of `days` yields `undefined`, and reading `.references` of it throws. */
  datatype ViewError = TypeError

  /** `weekDays`: the view's columns, the same six days the service accepts. */
  const WeekDays: seq<string> := ["lundi", "mardi", "mercredi", "jeudi", "vendredi", "samedi"]

  lemma WeekDaysAreWorkingDays()
    ensures WeekDays == JoursValides
    ensures forall i :: 0 <= i < |WeekDays| ==> ParseDay(WeekDays[i]) == Some(AllDays[i])
  {
    DayNamesRoundTrip();
  }

  /** `createEmptyReference()`: nothing planned, packaging 200, empty strings. */
  const EmptyReference := ReferenceProduction("", "", 0, 0, 200, 0, 0, 0, 0, 0, 0, 0)

  /** `calculateDayTotal(day)`: the `reduce` over the rows, from the first to the last. */
  function SumQte(refs: seq<ReferenceProduction>): int
    decreases |refs|
  {
    if refs == [] then 0 else SumQte(refs[..|refs| - 1]) + refs[|refs| - 1].qtePlanifier
  }

  function DayTotal(day: ProductionDay): int {
    SumQte(day.references)
  }

  /** The total of a concatenation is the sum of the totals. */
  lemma {:induction false} SumQteAppend(a: seq<ReferenceProduction>, b: seq<ReferenceProduction>)
    decreases |b|
    ensures SumQte(a + b) == SumQte(a) + SumQte(b)
  {
    if b == [] {
      assert a + b == a;
    } else {
      SumQteAppend(a, b[..|b| - 1]);
      assert (a + b)[..|a + b| - 1] == a + b[..|b| - 1];
      assert (a + b)[|a + b| - 1] == b[|b| - 1];
    }
  }

  /** Appending one row adds its quantity. */
  lemma SumQteSnoc(a: seq<ReferenceProduction>, x: ReferenceProduction)
    ensures SumQte(a + [x]) == SumQte(a) + x.qtePlanifier
  {
    assert (a + [x])[..|a + [x]| - 1] == a;
  }

  /** A sequence is its prefix, the element at `i` and its suffix. */
  lemma SplitAt<T>(s: seq<T>, i: nat)
    requires i < |s|
    ensures s == s[..i] + [s[i]] + s[i + 1..]
  {
  }

  /** Removing the row at `i` lowers the total by exactly that row's quantity. */
  lemma SumQteRemove(refs: seq<ReferenceProduction>, i: nat)
    requires i < |refs|
    ensures SumQte(refs[..i] + refs[i + 1..]) == SumQte(refs) - refs[i].qtePlanifier
  {
    var a, x, b := refs[..i], refs[i], refs[i + 1..];
    SplitAt(refs, i);
    calc {
      SumQte(refs);
    == { SumQteAppend(a + [x], b); }
      SumQte(a + [x]) + SumQte(b);
    == { SumQteSnoc(a, x); }
      SumQte(a) + x.qtePlanifier + SumQte(b);
    == { SumQteAppend(a, b); }
      SumQte(a + b) + x.qtePlanifier;
    }
  }

  /** The `reduce` over the days of the day totals. */
  function SumDays(days: seq<ProductionDay>): int
    decreases |days|
  {
    if days == [] then 0 else SumDays(days[..|days| - 1]) + DayTotal(days[|days| - 1])
  }

  /** `calculateWeekTotal()`: 0 when nothing is loaded. */
  function WeekTotal(planif: Option<WeekPlanification>): int {
    match planif
    case None => 0
    case Some(p) => SumDays(p.days)
  }

  /** Replacing one day changes the week total by the change of that day's total. */
  lemma {:induction false} SumDaysUpdate(days: seq<ProductionDay>, i: nat, d: ProductionDay)
    requires i < |days|
    decreases |days|
    ensures SumDays(days[i := d]) == SumDays(days) - DayTotal(days[i]) + DayTotal(d)
  {
    var n := |days| - 1;
    if i < n {
      SumDaysUpdate(days[..n], i, d);
      assert days[i := d][..n] == days[..n][i := d];
    } else {
      assert days[i := d][..n] == days[..n];
    }
  }

  /**
   * `onQtePlanifierChange(ref)`: two labour hours per hundred pieces, rounded,
   * and one operator per started eight hours; nothing when nothing is planned.
   */
  function OnQtePlanifierChange(ref: ReferenceProduction): (r: ReferenceProduction)
    ensures r == ref.(nhPlanifier := r.nhPlanifier, nop := r.nop)
    ensures ref.qtePlanifier <= 0 ==> r.nhPlanifier == 0 && r.nop == 0
    ensures ref.qtePlanifier > 0 ==>
      ref.qtePlanifier as real / 50.0 - 0.5 < r.nhPlanifier as real <= ref.qtePlanifier as real / 50.0 + 0.5
    ensures r.nhPlanifier >= 0
    ensures 8 * (r.nop - 1) < r.nhPlanifier <= 8 * r.nop || (r.nhPlanifier == 0 && r.nop == 0)
  {
    if ref.qtePlanifier > 0 then
      var x := ref.qtePlanifier as real / 100.0 * 2.0;
      var nh := JsRound(x);
      JsRoundIsNearest(x);
      CeilDivBounds(nh, 8);
      ref.(nhPlanifier := nh, nop := CeilDiv(nh, 8))
    else
      ref.(nhPlanifier := 0, nop := 0)
  }

  /** Entering the same quantity again changes nothing. */
  lemma OnQtePlanifierChangeIdempotent(ref: ReferenceProduction)
    ensures OnQtePlanifierChange(OnQtePlanifierChange(ref)) == OnQtePlanifierChange(ref)
  {
  }

  /** 200 pieces need 4 hours and 1 operator; 1000 pieces need 20 hours and 3 operators. */
  lemma OperatorExamples()
    ensures OnQtePlanifierChange(EmptyReference.(qtePlanifier := 200)).nop == 1
    ensures OnQtePlanifierChange(EmptyReference.(qtePlanifier := 1000)).nhPlanifier == 20
    ensures OnQtePlanifierChange(EmptyReference.(qtePlanifier := 1000)).nop == 3
  {
    assert JsRound(200 as real / 100.0 * 2.0) == 4;
    assert JsRound(1000 as real / 100.0 * 2.0) == 20;
  }

  /** `addNewReference(dayIndex)`: append an empty row to the chosen day. */
  function AddNewReference(planif: Option<WeekPlanification>, dayIndex: int)
    : (r: Result<Option<WeekPlanification>, ViewError>)
    ensures planif.None? ==> r == Success(None)
    ensures planif.Some? ==> (r.Failure? <==> !(0 <= dayIndex < |planif.value.days|))
    ensures r.Success? && planif.Some? ==>
      && r.value.Some?
      && |r.value.value.days| == |planif.value.days|
      && (forall i :: 0 <= i < |planif.value.days| && i != dayIndex ==>
            r.value.value.days[i] == planif.value.days[i])
      && r.value.value.days[dayIndex].references == planif.value.days[dayIndex].references + [EmptyReference]
  {
    match planif
    case None => Success(None)
    case Some(p) =>
      if 0 <= dayIndex < |p.days| then
        var d := p.days[dayIndex];
        Success(Some(p.(days := p.days[dayIndex := d.(references := d.references + [EmptyReference])])))
      else Failure(TypeError)
  }

  /** Adding a row grows the day by one and leaves the day and week totals unchanged. */
  lemma AddNewReferenceKeepsTotals(planif: Option<WeekPlanification>, dayIndex: int)
    requires AddNewReference(planif, dayIndex).Success?
    ensures WeekTotal(AddNewReference(planif, dayIndex).value) == WeekTotal(planif)
    ensures planif.Some? ==>
      |AddNewReference(planif, dayIndex).value.value.days[dayIndex].references|
        == |planif.value.days[dayIndex].references| + 1
  {
    if planif.Some? {
      var p := planif.value;
      var d := p.days[dayIndex];
      var d' := d.(references := d.references + [EmptyReference]);
      SumQteAppend(d.references, [EmptyReference]);
      SumDaysUpdate(p.days, dayIndex, d');
    }
  }

  /**
   * `Array.prototype.splice(start, 1)`: a negative start counts from the end,
   * and a start at or past the end removes nothing.
   */
  function SpliceOne<T>(s: seq<T>, start: int): (r: seq<T>)
    ensures 0 <= start < |s| ==> r == s[..start] + s[start + 1..]
    ensures -|s| <= start < 0 ==> r == s[..|s| + start] + s[|s| + start + 1..]
    ensures start < -|s| && |s| > 0 ==> r == s[1..]
    ensures start >= |s| ==> r == s
    ensures |r| == |s| || |r| == |s| - 1
  {
    var k := if start < 0 then (if |s| + start < 0 then 0 else |s| + start) else start;
    if k < |s| then s[..k] + s[k + 1..] else s
  }

  /** `removeReference(dayIndex, refIndex)`: remove a row unless it is the day's only one. */
  function RemoveReference(planif: Option<WeekPlanification>, dayIndex: int, refIndex: int)
    : (r: Result<Option<WeekPlanification>, ViewError>)
    ensures planif.None? ==> r == Success(None)
    ensures planif.Some? ==> (r.Failure? <==> !(0 <= dayIndex < |planif.value.days|))
    ensures r.Success? && planif.Some? ==>
      && r.value.Some?
      && |r.value.value.days| == |planif.value.days|
      && (forall i :: 0 <= i < |planif.value.days| && i != dayIndex ==>
            r.value.value.days[i] == planif.value.days[i])
      && var before := planif.value.days[dayIndex].references;
         var after := r.value.value.days[dayIndex].references;
         && (|before| <= 1 ==> after == before)
         && (|before| >= 1 ==> |after| >= 1)
         && (|before| > 1 && 0 <= refIndex < |before| ==> after == before[..refIndex] + before[refIndex + 1..])
         && (|before| > 1 && -|before| <= refIndex < 0 ==>
               after == before[..|before| + refIndex] + before[|before| + refIndex + 1..])
         && (|before| > 1 && refIndex < -|before| ==> after == before[1..])
         && (refIndex >= |before| ==> after == before)
  {
    match planif
    case None => Success(None)
    case Some(p) =>
      if 0 <= dayIndex < |p.days| then
        var d := p.days[dayIndex];
        if |d.references| > 1 then
          Success(Some(p.(days := p.days[dayIndex := d.(references := SpliceOne(d.references, refIndex))])))
        else Success(planif)
      else Failure(TypeError)
  }

  /** Removing the row at `refIndex` lowers the week total by that row's quantity. */
  lemma RemoveReferenceTotal(p: WeekPlanification, dayIndex: nat, refIndex: nat)
    requires dayIndex < |p.days| && 1 < |p.days[dayIndex].references| && refIndex < |p.days[dayIndex].references|
    ensures WeekTotal(RemoveReference(Some(p), dayIndex, refIndex).value)
      == WeekTotal(Some(p)) - p.days[dayIndex].references[refIndex].qtePlanifier
  {
    var d := p.days[dayIndex];
    var d' := d.(references := d.references[..refIndex] + d.references[refIndex + 1..]);
    SumQteRemove(d.references, refIndex);
    SumDaysUpdate(p.days, dayIndex, d');
  }

  /**
   * Adding a row and then removing the last row gives back the original view,
   * provided the day already had a row (a day with none keeps the added one).
   */
  lemma AddThenRemoveLast(p: WeekPlanification, dayIndex: nat)
    requires dayIndex < |p.days| && |p.days[dayIndex].references| >= 1
    ensures var added := AddNewReference(Some(p), dayIndex).value;
      RemoveReference(added, dayIndex, |p.days[dayIndex].references|) == Success(Some(p))
  {
    var d := p.days[dayIndex];
    var refs := d.references + [EmptyReference];
    var n := |d.references|;
    assert refs[..n] + refs[n + 1..] == d.references;
    assert SpliceOne(refs, n) == d.references;
    var added := AddNewReference(Some(p), dayIndex).value.value;
    assert added.days[dayIndex].references == refs;
    assert added.days[dayIndex].(references := d.references) == d;
    assert added.days[dayIndex := d] == p.days;
    assert added.(days := p.days) == p;
  }
}
