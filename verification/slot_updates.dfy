/**
 * Writing one day slot of one reference: by reference id
 * (`updateProductionData`) or by natural key week / line / reference code
 * (`updateProductionSimple`). Both merge the update over the stored slot and
 * store the re-derived record.
 */
module SlotUpdates {
  import opened Wrappers
  import opened Days
  import opened Production
  import opened Store

  /** The body of `POST /plan/:jour`: the natural key plus the production fields. */
  datatype SimpleUpdate = SimpleUpdate(semaine: string, ligne: string, reference: string, data: ProductionInput)

  /** `updateProductionData(referenceId, jour, updateData)`: the new store and the record written. */
  function UpdateProductionData(db: Db, referenceId: nat, jour: string, updateData: ProductionInput)
    : (r: Result<(Db, ProductionData), Error>)
    ensures r.Failure? <==> referenceId !in db.references || ParseDay(jour).None?
    ensures r.Failure? ==> r.error == NotFound
    ensures r.Success? ==> r.value.0.references.Keys == db.references.Keys
    ensures r.Success? ==>
      var d := ParseDay(jour).value;
      var before := db.references[referenceId];
      var after := r.value.0.references[referenceId];
      && r.value.0 == db.(references := db.references[referenceId := after])
      && after.semaineLigne == before.semaineLigne && after.reference == before.reference
      && after.Slot(d) == Some(r.value.1)
      && (forall e: Day :: e != d ==> after.Slot(e) == before.Slot(e))
      && r.value.1 == CalculateAutoFields(Some(Merge(SlotInput(before.Slot(d)), updateData)))
  {
    if referenceId !in db.references then Failure(NotFound)
    else
      match ParseDay(jour)
      case None => Failure(NotFound)
      case Some(d) =>
        var ligneReference := db.references[referenceId];
        var finalData := CalculateAutoFields(Some(Merge(SlotInput(ligneReference.Slot(d)), updateData)));
        Success((db.(references := db.references[referenceId := ligneReference.WithSlot(d, Some(finalData))]),
                 finalData))
  }

  /** Rewriting one slot keeps every database constraint: the reference keeps its line and its code. */
  lemma UpdateProductionDataValid(db: Db, referenceId: nat, jour: string, updateData: ProductionInput)
    requires Valid(db)
    ensures var r := UpdateProductionData(db, referenceId, jour, updateData);
      r.Success? ==> Valid(r.value.0)
  {
  }

  /** The reference a natural key designates: week by name, line by name within it, reference by code within that. */
  predicate Designates(db: Db, k: nat, semaine: string, ligne: string, reference: string) {
    && k in db.references
    && db.references[k].reference == reference
    && db.references[k].semaineLigne in db.lignes
    && db.lignes[db.references[k].semaineLigne].nomLigne == ligne
    && db.lignes[db.references[k].semaineLigne].semaine in db.semaines
    && db.semaines[db.lignes[db.references[k].semaineLigne].semaine].nom == semaine
  }

  /** The three `findOne` lookups of `updateProductionSimple`, in order. */
  function ResolveReference(db: Db, semaine: string, ligne: string, reference: string): (r: Option<nat>)
    ensures r.Some? ==> Designates(db, r.value, semaine, ligne, reference)
    ensures Valid(db) && r.None? ==> forall k :: k in db.references ==> !Designates(db, k, semaine, ligne, reference)
  {
    match FindSemaine(db, semaine, 0)
    case None => None
    case Some(s) =>
      match FindLigne(db, s, ligne, 0)
      case None => None
      case Some(l) => FindReference(db, l, reference, 0)
  }

  /**
   * `updateProductionSimple(jour, updateData)`. An invalid day is refused before
   * the `try`; a week, line or reference that is not found throws inside the
   * `try` and so surfaces as the catch-all internal error.
   */
  function UpdateProductionSimple(db: Db, jour: string, updateData: SimpleUpdate)
    : (r: Result<(Db, ProductionData), Error>)
    ensures ParseDay(jour).None? ==> r == Failure(NotFound)
    ensures ParseDay(jour).Some? && ResolveReference(db, updateData.semaine, updateData.ligne, updateData.reference).None?
            ==> r == Failure(InternalServerError)
    ensures ParseDay(jour).Some? && ResolveReference(db, updateData.semaine, updateData.ligne, updateData.reference).Some?
            ==> r == UpdateProductionData(db, ResolveReference(db, updateData.semaine, updateData.ligne,
                                                               updateData.reference).value, jour, updateData.data)
  {
    match ParseDay(jour)
    case None => Failure(NotFound)
    case Some(d) =>
      match ResolveReference(db, updateData.semaine, updateData.ligne, updateData.reference)
      case None => Failure(InternalServerError)
      case Some(id) =>
        var ligneReference := db.references[id];
        // `{ ...currentData, ...updateData }` without `semaine`, `ligne` and `reference`
        var productionData := Merge(SlotInput(ligneReference.Slot(d)), updateData.data);
        var finalData := CalculateAutoFields(Some(productionData));
        Success((db.(references := db.references[id := ligneReference.WithSlot(d, Some(finalData))]), finalData))
  }

  /** In a valid store the natural-key update succeeds exactly when the day is valid and the key designates a reference. */
  lemma UpdateProductionSimpleSucceeds(db: Db, jour: string, u: SimpleUpdate)
    requires Valid(db)
    ensures UpdateProductionSimple(db, jour, u).Success? <==>
      ParseDay(jour).Some? && exists k :: Designates(db, k, u.semaine, u.ligne, u.reference)
  {
    var res := ResolveReference(db, u.semaine, u.ligne, u.reference);
    if res.Some? {
      assert Designates(db, res.value, u.semaine, u.ligne, u.reference);
    }
  }

  /** Writing the same update to the same slot twice leaves the store as after the first write. */
  lemma {:induction false} UpdateProductionDataIdempotent(db: Db, referenceId: nat, jour: string, u: ProductionInput)
    requires UpdateProductionData(db, referenceId, jour, u).Success?
    ensures var db1 := UpdateProductionData(db, referenceId, jour, u).value.0;
      UpdateProductionData(db1, referenceId, jour, u) == UpdateProductionData(db, referenceId, jour, u)
  {
    var d := ParseDay(jour).value;
    var before := db.references[referenceId];
    var db1 := UpdateProductionData(db, referenceId, jour, u).value.0;
    var after := db1.references[referenceId];
    var f1 := CalculateAutoFields(Some(Merge(SlotInput(before.Slot(d)), u)));
    ReapplyUpdate(before.Slot(d), u);
    assert after.Slot(d) == Some(f1);
    WithOwnSlot(after, d);
    assert db1.references[referenceId := after] == db1.references;
    assert db1.(references := db1.references) == db1;
  }

  /**
   * A key that designates nothing is answered with the catch-all internal
   * error, not with the 404 the thrown exception carries.
   */
  lemma UnknownKeyIsInternalError()
    ensures UpdateProductionSimple(EmptyDb, "lundi", SimpleUpdate("semaine46", "L04", "RA1", NoInput))
         == Failure(InternalServerError)
    ensures UpdateProductionSimpleIntended(EmptyDb, "lundi", SimpleUpdate("semaine46", "L04", "RA1", NoInput))
         == Failure(NotFound)
  {
  }

  /**
   * `updateProductionSimple` with the 404s its lookups throw reaching the
   * caller, as they do in `updateProductionData`.
   */
  function UpdateProductionSimpleIntended(db: Db, jour: string, updateData: SimpleUpdate)
    : (r: Result<(Db, ProductionData), Error>)
    ensures r.Failure? ==> r.error == NotFound
    ensures r.Success? ==> r == UpdateProductionSimple(db, jour, updateData)
    ensures UpdateProductionSimple(db, jour, updateData).Success? ==> r == UpdateProductionSimple(db, jour, updateData)
  {
    match ParseDay(jour)
    case None => Failure(NotFound)
    case Some(_) =>
      match ResolveReference(db, updateData.semaine, updateData.ligne, updateData.reference)
      case None => Failure(NotFound)
      case Some(id) => UpdateProductionData(db, id, jour, updateData.data)
  }

  /** In a valid store the intended update is a 404 exactly when the day is invalid or the key designates nothing. */
  lemma UpdateProductionSimpleIntendedNotFound(db: Db, jour: string, u: SimpleUpdate)
    requires Valid(db)
    ensures UpdateProductionSimpleIntended(db, jour, u) == Failure(NotFound) <==>
      ParseDay(jour).None? || forall k :: !Designates(db, k, u.semaine, u.ligne, u.reference)
  {
    var res := ResolveReference(db, u.semaine, u.ligne, u.reference);
    if res.Some? {
      assert Designates(db, res.value, u.semaine, u.ligne, u.reference);
    }
  }
}
