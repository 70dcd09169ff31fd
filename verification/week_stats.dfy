/**
 * `getSemaineStats`: the number of lines and references of a week, the
 * planned and declared quantities summed over every reference and every
 * working day, and the completion rate.
 */
module WeekStats {
  import opened Wrappers
  import opened JsMath
  import opened Days
  import opened Production
  import opened Store
  import opened Catalogue
  import opened Weeks

  /** The two quantities the statistics add up. */
  datatype Measure = Planned | Declared

  /**
   * `if (data && data.qtePlanifiee) total += data.qtePlanifiee`: an empty
   * slot or a zero value adds nothing.
   */
  function SlotValue(m: Measure, slot: Option<ProductionData>): int {
    if slot.None? then 0
    else
      var v := match m case Planned => slot.value.qtePlanifiee case Declared => slot.value.decProduction;
      if v != 0 then v else 0
  }

  /** The sum over the days `ds` of one reference. */
  function DaysSum(m: Measure, r: LigneReference, ds: seq<Day>): int
    decreases |ds|
  {
    if ds == [] then 0 else DaysSum(m, r, ds[..|ds| - 1]) + SlotValue(m, r.Slot(ds[|ds| - 1]))
  }

  /** The sum over the six working days of each reference in `refs`. */
  function RefsSum(m: Measure, refs: seq<LigneReference>): int
    decreases |refs|
  {
    if refs == [] then 0 else RefsSum(m, refs[..|refs| - 1]) + DaysSum(m, refs[|refs| - 1], AllDays)
  }

  /** The sum over the references of each line in `ls`. */
  function LinesSum(m: Measure, db: Db, ls: seq<nat>): int
    decreases |ls|
  {
    if ls == [] then 0 else LinesSum(m, db, ls[..|ls| - 1]) + RefsSum(m, ReferencesOf(db, ls[|ls| - 1], 0))
  }

  /** `totalReferences += ligne.references.length` for each line in `ls`. */
  function LinesRefCount(db: Db, ls: seq<nat>): nat
    decreases |ls|
  {
    if ls == [] then 0 else LinesRefCount(db, ls[..|ls| - 1]) + |ReferencesOf(db, ls[|ls| - 1], 0)|
  }

  /** The answer of `getSemaineStats`. */
  datatype SemaineStats = SemaineStats(
    semaine: string,
    totalLignes: nat,
    totalReferences: nat,
    totalQtePlanifiee: int,
    totalDecProduction: int,
    tauxRealisation: real
  )

  /** `Math.round(taux * 100) / 100` of the declared-over-planned percentage, 0 when nothing is planned. */
  function Taux(qte: int, dec: int): (t: real)
    ensures qte <= 0 ==> t == 0.0
    ensures qte > 0 ==> -0.005 <= t - dec as real / qte as real * 100.0 <= 0.005
  {
    if qte > 0 then
      Round2Error(dec as real / qte as real * 100.0);
      Round2(dec as real / qte as real * 100.0)
    else
      Round2Zero();
      Round2(0.0)
  }

  /** The statistics of an existing week, defined by the sums above. */
  function StatsOf(db: Db, semaineId: nat): SemaineStats
    requires semaineId in db.semaines
  {
    var ls := LignesOf(db, semaineId, 0);
    var qte := LinesSum(Planned, db, ls);
    var dec := LinesSum(Declared, db, ls);
    SemaineStats(db.semaines[semaineId].nom, |ls|, LinesRefCount(db, ls), qte, dec, Taux(qte, dec))
  }

  /** `jours.forEach(...)` for one reference. */
  method SumDays(m: Measure, r: LigneReference) returns (total: int)
    ensures total == DaysSum(m, r, AllDays)
  {
    total := 0;
    var k := 0;
    while k < |AllDays|
      invariant 0 <= k <= |AllDays|
      invariant total == DaysSum(m, r, AllDays[..k])
    {
      assert AllDays[..k + 1][..k] == AllDays[..k];
      total := total + SlotValue(m, r.Slot(AllDays[k]));
      k := k + 1;
    }
    assert AllDays[..|AllDays|] == AllDays;
  }

  /** `ligne.references.forEach(...)` for one line. */
  method SumReferences(refs: seq<LigneReference>) returns (qte: int, dec: int)
    ensures qte == RefsSum(Planned, refs) && dec == RefsSum(Declared, refs)
  {
    qte, dec := 0, 0;
    var j := 0;
    while j < |refs|
      invariant 0 <= j <= |refs|
      invariant qte == RefsSum(Planned, refs[..j]) && dec == RefsSum(Declared, refs[..j])
    {
      assert refs[..j + 1][..j] == refs[..j];
      var q := SumDays(Planned, refs[j]);
      var d := SumDays(Declared, refs[j]);
      qte, dec := qte + q, dec + d;
      j := j + 1;
    }
    assert refs[..|refs|] == refs;
  }

  /** `getSemaineStats(semaineId)`: 404 for an unknown week, otherwise the loops over lines and references. */
  method GetSemaineStats(db: Db, semaineId: nat) returns (r: Result<SemaineStats, Error>)
    ensures r.Failure? <==> semaineId !in db.semaines
    ensures r.Failure? ==> r.error == NotFound
    ensures r.Success? ==> r.value == StatsOf(db, semaineId)
    ensures r.Success? ==>
      && r.value.semaine == db.semaines[semaineId].nom
      && r.value.totalLignes == |LignesOf(db, semaineId, 0)|
      && (r.value.totalQtePlanifiee <= 0 ==> r.value.tauxRealisation == 0.0)
  {
    if semaineId !in db.semaines {
      return Failure(NotFound);
    }
    var ls := LignesOf(db, semaineId, 0);
    var totalReferences: nat := 0;
    var qte, dec := 0, 0;
    var i := 0;
    while i < |ls|
      invariant 0 <= i <= |ls|
      invariant totalReferences == LinesRefCount(db, ls[..i])
      invariant qte == LinesSum(Planned, db, ls[..i]) && dec == LinesSum(Declared, db, ls[..i])
    {
      assert ls[..i + 1][..i] == ls[..i];
      var refs := ReferencesOf(db, ls[i], 0);
      var q, d := SumReferences(refs);
      qte, dec := qte + q, dec + d;
      totalReferences := totalReferences + |refs|;
      i := i + 1;
    }
    assert ls[..|ls|] == ls;
    return Success(SemaineStats(db.semaines[semaineId].nom, |ls|, totalReferences, qte, dec, Taux(qte, dec)));
  }

  /** A reference whose six slots hold the zero record adds nothing. */
  lemma {:induction false} ZeroDaysSum(m: Measure, r: LigneReference, ds: seq<Day>)
    requires AllSlotsZero(r)
    decreases |ds|
    ensures DaysSum(m, r, ds) == 0
  {
    if ds != [] {
      ZeroDaysSum(m, r, ds[..|ds| - 1]);
      assert r.Slot(ds[|ds| - 1]) == Some(ZeroRecord);
    }
  }

  lemma {:induction false} ZeroRefsSum(m: Measure, refs: seq<LigneReference>)
    requires forall i :: 0 <= i < |refs| ==> AllSlotsZero(refs[i])
    decreases |refs|
    ensures RefsSum(m, refs) == 0
  {
    if refs != [] {
      ZeroRefsSum(m, refs[..|refs| - 1]);
      ZeroDaysSum(m, refs[|refs| - 1], AllDays);
    }
  }

  /** Lines whose references all start from zero add nothing. */
  lemma {:induction false} ZeroLinesSum(m: Measure, db: Db, ls: seq<nat>)
    requires forall i, k :: 0 <= i < |ls| && k in db.references && db.references[k].semaineLigne == ls[i]
               ==> AllSlotsZero(db.references[k])
    decreases |ls|
    ensures LinesSum(m, db, ls) == 0
  {
    if ls != [] {
      ZeroLinesSum(m, db, ls[..|ls| - 1]);
      var refs := ReferencesOf(db, ls[|ls| - 1], 0);
      forall i | 0 <= i < |refs|
        ensures AllSlotsZero(refs[i])
      {
        assert refs[i] in db.references.Values;
        var k :| k in db.references && db.references[k] == refs[i];
        assert db.references[k].semaineLigne == ls[|ls| - 1];
      }
      ZeroRefsSum(m, refs);
    }
  }

  /** Reference `k` hangs under a line of week `semaine`. */
  predicate UnderWeek(db: Db, semaine: nat, k: nat) {
    && k in db.references
    && db.references[k].semaineLigne in db.lignes
    && db.lignes[db.references[k].semaineLigne].semaine == semaine
  }

  /** After inserting the lines of a week that owned none, every reference under that week is all zero. */
  lemma InsertedWeekReferencesZero(db: Db, semaine: nat, cat: seq<Product>, ls: seq<string>)
    requires KeysBelow(db.lignes, db.nextLigne) && KeysBelow(db.references, db.nextReference)
    requires ReferencesOwned(db)
    requires forall k :: k in db.lignes ==> db.lignes[k].semaine != semaine
    ensures forall k :: UnderWeek(InsertLignes(db, semaine, cat, ls), semaine, k) ==>
      AllSlotsZero(InsertLignes(db, semaine, cat, ls).references[k])
  {
    var r := InsertLignes(db, semaine, cat, ls);
    InsertedReferencesOfWeek(db, semaine, cat, ls);
    InsertLignesFreshReferences(db, semaine, cat, ls);
    forall k | UnderWeek(r, semaine, k)
      ensures AllSlotsZero(r.references[k])
    {
      assert r.references[k].semaineLigne in LigneIdsOf(r, semaine);
    }
  }

  /** Every reference under a line of the week a creation adds is all zero. */
  lemma CreatedWeekReferencesZero(db: Db, nom: string, dateDebut: string, dateFin: string, creePar: nat,
                                  cat: seq<Product>)
    requires Valid(db)
    requires CreateSemaine(db, nom, dateDebut, dateFin, creePar, cat).Success?
    ensures var c := CreateSemaine(db, nom, dateDebut, dateFin, creePar, cat).value;
      forall k :: k in c.0.references && c.0.references[k].semaineLigne in c.0.lignes
                  && c.0.lignes[c.0.references[k].semaineLigne].semaine == c.1.id
        ==> AllSlotsZero(c.0.references[k])
  {
    FindSemaineComplete(db, nom);
    NoLineOfNextWeek(db);
    InsertedWeekReferencesZero(
      AddSemaine(db, Semaine(nom, dateDebut, dateFin, creePar)),
      db.nextSemaine, cat, DistinctLines(cat));
    CreateSemaineStore(db, nom, dateDebut, dateFin, creePar, cat);
  }

  /** A week that was just created reports nothing planned, nothing declared and a 0 rate. */
  lemma CreatedWeekStatsZero(db: Db, nom: string, dateDebut: string, dateFin: string, creePar: nat,
                             cat: seq<Product>)
    requires Valid(db)
    requires CreateSemaine(db, nom, dateDebut, dateFin, creePar, cat).Success?
    ensures var c := CreateSemaine(db, nom, dateDebut, dateFin, creePar, cat).value;
      && c.1.id in c.0.semaines
      && StatsOf(c.0, c.1.id).totalQtePlanifiee == 0
      && StatsOf(c.0, c.1.id).totalDecProduction == 0
      && StatsOf(c.0, c.1.id).tauxRealisation == 0.0
  {
    var c := CreateSemaine(db, nom, dateDebut, dateFin, creePar, cat).value;
    CreatedWeekReferencesZero(db, nom, dateDebut, dateFin, creePar, cat);
    var ls := LignesOf(c.0, c.1.id, 0);
    ZeroLinesSum(Planned, c.0, ls);
    ZeroLinesSum(Declared, c.0, ls);
  }
}
