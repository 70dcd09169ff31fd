/**
 * The flat planning rows (`Planification`): one row per week / day / line /
 * reference, created with JavaScript `||` defaults, updated field by field,
 * and deleted by id.
 */
module FlatPlanning {
  import opened Wrappers
  import opened Days
  import opened Production
  import opened Store

  /** The body of `POST /planifications`; an absent optional field is `None`. */
  datatype CreatePlanificationDto = CreatePlanificationDto(
    semaine: string,
    jour: string,
    ligne: string,
    reference: string,
    of: Option<string>,
    qtePlanifiee: Option<int>,
    emballage: Option<string>,
    nbOperateurs: Option<int>,
    decProduction: Option<int>,
    decMagasin: Option<int>
  )

  /** The body of `PATCH /planifications/:id`; `None` is a field left `undefined`. */
  datatype UpdatePlanificationDto = UpdatePlanificationDto(
    of: Option<string>,
    qtePlanifiee: Option<int>,
    emballage: Option<string>,
    nbOperateurs: Option<int>,
    decProduction: Option<int>,
    decMagasin: Option<int>
  )

  function DtoKey(dto: CreatePlanificationDto): PlanKey {
    PlanKey(dto.semaine, dto.jour, dto.ligne, dto.reference)
  }

  /**
   * The row `createPlanification` saves. A missing or falsy value takes the
   * default: `''` for the order number, `'200'` for the packaging, `0` for
   * the numbers.
   */
  function NewPlanification(semaineEntity: nat, dto: CreatePlanificationDto): (p: Planification)
    ensures KeyOf(p) == DtoKey(dto) && p.semaineEntity == semaineEntity
    ensures p.emballage != ""
    ensures p.emballage == "200" <==> dto.emballage.None? || dto.emballage.value in {"", "200"}
    ensures p.qtePlanifiee == 0 <==> dto.qtePlanifiee.None? || dto.qtePlanifiee.value == 0
    ensures p.of == dto.of.GetOr("")
    ensures dto.emballage.Some? && dto.emballage.value != "" ==> p.emballage == dto.emballage.value
    ensures p.qtePlanifiee == dto.qtePlanifiee.GetOr(0) && p.nbOperateurs == dto.nbOperateurs.GetOr(0)
    ensures p.decProduction == dto.decProduction.GetOr(0) && p.decMagasin == dto.decMagasin.GetOr(0)
  {
    Planification(semaineEntity, dto.semaine, dto.jour, dto.ligne, dto.reference,
                  StrOr(dto.of, ""), NumOr(dto.qtePlanifiee, 0), StrOr(dto.emballage, "200"),
                  NumOr(dto.nbOperateurs, 0), NumOr(dto.decProduction, 0), NumOr(dto.decMagasin, 0))
  }

  /**
   * `createPlanification`: reject an unknown day (400), then a duplicate key
   * (409), then an unknown week (404); otherwise save the row under a fresh id.
   */
  function CreatePlanification(db: Db, dto: CreatePlanificationDto): (r: Result<(Db, nat), Error>)
    requires Valid(db)
    ensures dto.jour !in JoursValides ==> r == Failure(BadRequest)
    ensures dto.jour in JoursValides ==>
      (r == Failure(Conflict) <==>
        exists k :: k in db.planifications && KeyOf(db.planifications[k]) == DtoKey(dto))
    ensures r == Failure(NotFound) <==>
      && dto.jour in JoursValides
      && (forall k :: k in db.semaines ==> db.semaines[k].nom != dto.semaine)
    ensures r.Success? ==>
      && r.value.1 == db.nextPlanification
      && r.value.0 == db.(planifications := r.value.0.planifications, nextPlanification := r.value.1 + 1)
      && r.value.0.planifications.Keys == db.planifications.Keys + {r.value.1}
      && KeyOf(r.value.0.planifications[r.value.1]) == DtoKey(dto)
      && FindSemaine(db, dto.semaine, 0).Some?
      && r.value.0.planifications[r.value.1] == NewPlanification(FindSemaine(db, dto.semaine, 0).value, dto)
      && (forall k :: k in db.planifications ==> r.value.0.planifications[k] == db.planifications[k])
  {
    if ParseDay(dto.jour).None? then Failure(BadRequest)
    else if FindPlanification(db, DtoKey(dto), 0).Some? then Failure(Conflict)
    else
      match FindSemaine(db, dto.semaine, 0)
      case None =>
        NoRowOfUnknownWeek(db, DtoKey(dto));
        Failure(NotFound)
      case Some(s) =>
        var id := db.nextPlanification;
        Success((db.(planifications := db.planifications[id := NewPlanification(s, dto)], nextPlanification := id + 1),
                 id))
  }

  /** In a valid store a row only names a week that exists. */
  lemma NoRowOfUnknownWeek(db: Db, key: PlanKey)
    requires Valid(db)
    requires forall k :: k in db.semaines ==> db.semaines[k].nom != key.semaine
    ensures forall k :: k in db.planifications ==> KeyOf(db.planifications[k]) != key
  {
    forall k | k in db.planifications
      ensures KeyOf(db.planifications[k]) != key
    {
      assert db.planifications[k].semaineEntity in db.semaines;
    }
  }

  /** Creation keeps every database constraint, in particular the uniqueness of the natural key. */
  lemma CreatePlanificationValid(db: Db, dto: CreatePlanificationDto)
    requires Valid(db)
    ensures CreatePlanification(db, dto).Success? ==> Valid(CreatePlanification(db, dto).value.0)
  {
    if ParseDay(dto.jour).Some? && FindPlanification(db, DtoKey(dto), 0).None? && FindSemaine(db, dto.semaine, 0).Some? {
      var s := FindSemaine(db, dto.semaine, 0).value;
      AddPlanificationValid(db, NewPlanification(s, dto));
    }
  }

  /** Saving a row under the next id keeps every constraint when its week exists and its key is unused. */
  lemma AddPlanificationValid(db: Db, p: Planification)
    requires Valid(db)
    requires p.semaineEntity in db.semaines && db.semaines[p.semaineEntity].nom == p.semaine
    requires ParseDay(p.jour).Some?
    requires forall k :: k in db.planifications ==> KeyOf(db.planifications[k]) != KeyOf(p)
    ensures Valid(db.(planifications := db.planifications[db.nextPlanification := p],
                      nextPlanification := db.nextPlanification + 1))
  {
    var db1 := db.(planifications := db.planifications[db.nextPlanification := p],
                   nextPlanification := db.nextPlanification + 1);
    assert PlanificationsOwned(db1);
    assert UniquePlanKeys(db1);
  }

  /** After a successful creation, looking the key up finds the new row. */
  lemma CreateThenFind(db: Db, dto: CreatePlanificationDto)
    requires Valid(db)
    requires CreatePlanification(db, dto).Success?
    ensures var r := CreatePlanification(db, dto).value;
      FindPlanification(r.0, DtoKey(dto), 0) == Some(r.1)
  {
    var r := CreatePlanification(db, dto).value;
    CreatePlanificationValid(db, dto);
    var f := FindPlanification(r.0, DtoKey(dto), 0);
    assert f.Some?;
  }

  /**
   * `updatePlanification`: every field the body carries is overwritten, the
   * others and the natural key are kept.
   */
  function ApplyUpdate(p: Planification, dto: UpdatePlanificationDto): (q: Planification)
    ensures KeyOf(q) == KeyOf(p) && q.semaineEntity == p.semaineEntity
    ensures q.of == dto.of.GetOr(p.of) && q.emballage == dto.emballage.GetOr(p.emballage)
    ensures q.qtePlanifiee == dto.qtePlanifiee.GetOr(p.qtePlanifiee)
    ensures q.nbOperateurs == dto.nbOperateurs.GetOr(p.nbOperateurs)
    ensures q.decProduction == dto.decProduction.GetOr(p.decProduction)
    ensures q.decMagasin == dto.decMagasin.GetOr(p.decMagasin)
  {
    p.(of := if dto.of.Some? then dto.of.value else p.of,
       qtePlanifiee := if dto.qtePlanifiee.Some? then dto.qtePlanifiee.value else p.qtePlanifiee,
       emballage := if dto.emballage.Some? then dto.emballage.value else p.emballage,
       nbOperateurs := if dto.nbOperateurs.Some? then dto.nbOperateurs.value else p.nbOperateurs,
       decProduction := if dto.decProduction.Some? then dto.decProduction.value else p.decProduction,
       decMagasin := if dto.decMagasin.Some? then dto.decMagasin.value else p.decMagasin)
  }

  /** Applying the same update twice is applying it once. */
  lemma ApplyUpdateIdempotent(p: Planification, dto: UpdatePlanificationDto)
    ensures ApplyUpdate(ApplyUpdate(p, dto), dto) == ApplyUpdate(p, dto)
  {
  }

  /** An empty body changes nothing. */
  lemma EmptyUpdateIsIdentity(p: Planification)
    ensures ApplyUpdate(p, UpdatePlanificationDto(None, None, None, None, None, None)) == p
  {
  }

  /** `updatePlanification(id, dto)`: 404 for an unknown id, otherwise the row is updated in place. */
  function UpdatePlanification(db: Db, id: nat, dto: UpdatePlanificationDto): (r: Result<Db, Error>)
    ensures r.Failure? <==> id !in db.planifications
    ensures r.Failure? ==> r.error == NotFound
    ensures r.Success? ==>
      && r.value.planifications.Keys == db.planifications.Keys
      && r.value == db.(planifications := r.value.planifications)
      && (forall k :: k in db.planifications && k != id ==> r.value.planifications[k] == db.planifications[k])
      && KeyOf(r.value.planifications[id]) == KeyOf(db.planifications[id])
      && r.value.planifications[id] == ApplyUpdate(db.planifications[id], dto)
  {
    if id !in db.planifications then Failure(NotFound)
    else Success(db.(planifications := db.planifications[id := ApplyUpdate(db.planifications[id], dto)]))
  }

  /** An update never touches a key or a week, so every constraint still holds. */
  lemma UpdatePlanificationValid(db: Db, id: nat, dto: UpdatePlanificationDto)
    requires Valid(db)
    ensures UpdatePlanification(db, id, dto).Success? ==> Valid(UpdatePlanification(db, id, dto).value)
  {
    if id in db.planifications {
      var r := UpdatePlanification(db, id, dto).value;
      forall k | k in r.planifications
        ensures KeyOf(r.planifications[k]) == KeyOf(db.planifications[k])
        ensures r.planifications[k].semaineEntity == db.planifications[k].semaineEntity
      {
      }
      assert PlanificationsOwned(r);
      assert UniquePlanKeys(r);
    }
  }

  /** Sending the same update twice leaves the store as sending it once. */
  lemma UpdatePlanificationIdempotent(db: Db, id: nat, dto: UpdatePlanificationDto)
    requires UpdatePlanification(db, id, dto).Success?
    ensures var once := UpdatePlanification(db, id, dto).value;
      UpdatePlanification(once, id, dto) == Success(once)
  {
    var once := UpdatePlanification(db, id, dto).value;
    ApplyUpdateIdempotent(db.planifications[id], dto);
    assert once.planifications[id := ApplyUpdate(once.planifications[id], dto)] == once.planifications;
  }

  /** The answer of a deletion: the id and the natural key of the removed row. */
  datatype DeletedPlanification = DeletedPlanification(id: nat, key: PlanKey)

  /** `deletePlanification(id)`: 404 for an unknown id, otherwise the row is removed and its key reported. */
  function DeletePlanification(db: Db, id: nat): (r: Result<(Db, DeletedPlanification), Error>)
    ensures r.Failure? <==> id !in db.planifications
    ensures r.Failure? ==> r.error == NotFound
    ensures r.Success? ==>
      && r.value.0 == db.(planifications := db.planifications - {id})
      && r.value.1 == DeletedPlanification(id, KeyOf(db.planifications[id]))
    ensures r.Success? && Valid(db) ==> Valid(r.value.0)
  {
    if id !in db.planifications then Failure(NotFound)
    else Success((db.(planifications := db.planifications - {id}),
                  DeletedPlanification(id, KeyOf(db.planifications[id]))))
  }

  /** Creating a row and deleting it again restores the rows and reports the key that was created. */
  lemma CreateThenDeletePlanification(db: Db, dto: CreatePlanificationDto)
    requires Valid(db)
    requires CreatePlanification(db, dto).Success?
    ensures var c := CreatePlanification(db, dto).value;
      var d := DeletePlanification(c.0, c.1);
      && d.Success?
      && d.value.0.planifications == db.planifications
      && d.value.1.key == DtoKey(dto)
      && FindPlanification(d.value.0, DtoKey(dto), 0).None?
  {
    var c := CreatePlanification(db, dto).value;
    var d := DeletePlanification(c.0, c.1).value;
    assert d.0.planifications == db.planifications;
  }
}
