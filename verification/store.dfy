/**
 * The four tables of the planning database as immutable maps from generated
 * ids to rows, with one auto-increment counter per table, and the
 * constraints the database and the service keep on them.
 *
 * A week (`Semaine`) owns its lines (`SemaineLigne`) and its flat planning
 * rows (`Planification`); a line owns its references (`LigneReference`); a
 * reference holds six nullable day slots, one `ProductionData` each.
 */
module Store {
  import opened Wrappers
  import opened Days
  import opened Production

  /** The HTTP exceptions the service throws. */
  datatype Error = NotFound | Conflict | BadRequest | InternalServerError

  /** A planning week. The dates are kept as the strings the request carried. */
  datatype Semaine = Semaine(nom: string, dateDebut: string, dateFin: string, creePar: nat)

  /** A production line inside one week; `semaine` is the owning week's id. */
  datatype SemaineLigne = SemaineLigne(
    semaine: nat,
    nomLigne: string,
    imageUrl: Option<string>,
    imageOriginalName: Option<string>
  )

  /** A catalogue reference under one line, with one nullable slot per working day. */
  datatype LigneReference = LigneReference(
    semaineLigne: nat,
    reference: string,
    lundi: Option<ProductionData>,
    mardi: Option<ProductionData>,
    mercredi: Option<ProductionData>,
    jeudi: Option<ProductionData>,
    vendredi: Option<ProductionData>,
    samedi: Option<ProductionData>
  ) {
    /** `ligneReference[jour]`. */
    function Slot(d: Day): Option<ProductionData> {
      match d
      case Lundi => lundi
      case Mardi => mardi
      case Mercredi => mercredi
      case Jeudi => jeudi
      case Vendredi => vendredi
      case Samedi => samedi
    }

    /** `ligneReference[jour] = v`: one slot is replaced and nothing else changes. */
    function WithSlot(d: Day, v: Option<ProductionData>): (r: LigneReference)
      ensures r.Slot(d) == v
      ensures forall e: Day :: e != d ==> r.Slot(e) == Slot(e)
      ensures r.semaineLigne == semaineLigne && r.reference == reference
    {
      match d
      case Lundi => this.(lundi := v)
      case Mardi => this.(mardi := v)
      case Mercredi => this.(mercredi := v)
      case Jeudi => this.(jeudi := v)
      case Vendredi => this.(vendredi := v)
      case Samedi => this.(samedi := v)
    }
  }

  /** Writing back a slot's own value changes nothing. */
  lemma WithOwnSlot(r: LigneReference, d: Day)
    ensures r.WithSlot(d, r.Slot(d)) == r
  {
  }

  /** A flat planning row; `semaineEntity` is the id of the week named `semaine`. */
  datatype Planification = Planification(
    semaineEntity: nat,
    semaine: string,
    jour: string,
    ligne: string,
    reference: string,
    of: string,
    qtePlanifiee: int,
    emballage: string,
    nbOperateurs: int,
    decProduction: int,
    decMagasin: int
  )

  /** The natural key of a flat planning row. */
  datatype PlanKey = PlanKey(semaine: string, jour: string, ligne: string, reference: string)

  function KeyOf(p: Planification): PlanKey {
    PlanKey(p.semaine, p.jour, p.ligne, p.reference)
  }

  datatype Db = Db(
    semaines: map<nat, Semaine>,
    lignes: map<nat, SemaineLigne>,
    references: map<nat, LigneReference>,
    planifications: map<nat, Planification>,
    nextSemaine: nat,
    nextLigne: nat,
    nextReference: nat,
    nextPlanification: nat
  )

  const EmptyDb := Db(map[], map[], map[], map[], 0, 0, 0, 0)

  /** Every generated id is below its table's counter, so the counter is always fresh. */
  predicate KeysBelow<T>(m: map<nat, T>, n: nat) {
    forall k :: k in m ==> k < n
  }

  /** Every line belongs to an existing week. */
  predicate LignesOwned(db: Db) {
    forall k :: k in db.lignes ==> db.lignes[k].semaine in db.semaines
  }

  /** Every reference belongs to an existing line. */
  predicate ReferencesOwned(db: Db) {
    forall k :: k in db.references ==> db.references[k].semaineLigne in db.lignes
  }

  /** Every flat row points at an existing week whose name it carries, and names a working day. */
  predicate PlanificationsOwned(db: Db) {
    forall k :: k in db.planifications ==>
      && db.planifications[k].semaineEntity in db.semaines
      && db.semaines[db.planifications[k].semaineEntity].nom == db.planifications[k].semaine
      && ParseDay(db.planifications[k].jour).Some?
  }

  /** The unique column `semaines.nom`. */
  predicate UniqueNoms(db: Db) {
    forall a, b :: a in db.semaines && b in db.semaines && db.semaines[a].nom == db.semaines[b].nom ==> a == b
  }

  /** The unique index on (semaine, nomLigne). */
  predicate UniqueLigneNames(db: Db) {
    forall a, b ::
      a in db.lignes && b in db.lignes &&
      db.lignes[a].semaine == db.lignes[b].semaine && db.lignes[a].nomLigne == db.lignes[b].nomLigne
      ==> a == b
  }

  /** No two flat rows share (semaine, jour, ligne, reference); creation refuses duplicates. */
  predicate UniquePlanKeys(db: Db) {
    forall a, b ::
      a in db.planifications && b in db.planifications &&
      KeyOf(db.planifications[a]) == KeyOf(db.planifications[b])
      ==> a == b
  }

  predicate Valid(db: Db) {
    && KeysBelow(db.semaines, db.nextSemaine)
    && KeysBelow(db.lignes, db.nextLigne)
    && KeysBelow(db.references, db.nextReference)
    && KeysBelow(db.planifications, db.nextPlanification)
    && LignesOwned(db)
    && ReferencesOwned(db)
    && PlanificationsOwned(db)
    && UniqueNoms(db)
    && UniqueLigneNames(db)
    && UniquePlanKeys(db)
  }

  lemma EmptyDbValid()
    ensures Valid(EmptyDb)
  {
  }

  // ---------------------------------------------------------------------------
  // findOne: the row with the smallest id that matches, scanning ids upwards.

  /** `semaineRepository.findOne({ where: { nom } })`. */
  function FindSemaine(db: Db, nom: string, from: nat): (r: Option<nat>)
    decreases db.nextSemaine - from
    ensures r.Some? ==> from <= r.value && r.value in db.semaines && db.semaines[r.value].nom == nom
    ensures r.None? ==> forall k :: from <= k < db.nextSemaine && k in db.semaines ==> db.semaines[k].nom != nom
  {
    if from >= db.nextSemaine then None
    else if from in db.semaines && db.semaines[from].nom == nom then Some(from)
    else FindSemaine(db, nom, from + 1)
  }

  /** `semaineLigneRepository.findOne({ where: { semaine: { id }, nomLigne } })`. */
  function FindLigne(db: Db, semaine: nat, nomLigne: string, from: nat): (r: Option<nat>)
    decreases db.nextLigne - from
    ensures r.Some? ==>
      && from <= r.value && r.value in db.lignes
      && db.lignes[r.value].semaine == semaine && db.lignes[r.value].nomLigne == nomLigne
    ensures r.None? ==> forall k :: from <= k < db.nextLigne && k in db.lignes ==>
      !(db.lignes[k].semaine == semaine && db.lignes[k].nomLigne == nomLigne)
  {
    if from >= db.nextLigne then None
    else if from in db.lignes && db.lignes[from].semaine == semaine && db.lignes[from].nomLigne == nomLigne
    then Some(from)
    else FindLigne(db, semaine, nomLigne, from + 1)
  }

  /** `ligneReferenceRepository.findOne({ where: { semaineLigne: { id }, reference } })`. */
  function FindReference(db: Db, semaineLigne: nat, reference: string, from: nat): (r: Option<nat>)
    decreases db.nextReference - from
    ensures r.Some? ==>
      && from <= r.value && r.value in db.references
      && db.references[r.value].semaineLigne == semaineLigne && db.references[r.value].reference == reference
    ensures r.Some? ==> forall k :: from <= k < r.value && k in db.references ==>
      !(db.references[k].semaineLigne == semaineLigne && db.references[k].reference == reference)
    ensures r.None? ==> forall k :: from <= k < db.nextReference && k in db.references ==>
      !(db.references[k].semaineLigne == semaineLigne && db.references[k].reference == reference)
  {
    if from >= db.nextReference then None
    else if from in db.references && db.references[from].semaineLigne == semaineLigne
            && db.references[from].reference == reference
    then Some(from)
    else FindReference(db, semaineLigne, reference, from + 1)
  }

  /** `planificationRepository.findOne({ where: { semaine, jour, ligne, reference } })`. */
  function FindPlanification(db: Db, key: PlanKey, from: nat): (r: Option<nat>)
    decreases db.nextPlanification - from
    ensures r.Some? ==> from <= r.value && r.value in db.planifications && KeyOf(db.planifications[r.value]) == key
    ensures r.None? ==> forall k :: from <= k < db.nextPlanification && k in db.planifications ==>
      KeyOf(db.planifications[k]) != key
  {
    if from >= db.nextPlanification then None
    else if from in db.planifications && KeyOf(db.planifications[from]) == key then Some(from)
    else FindPlanification(db, key, from + 1)
  }

  /** In a valid store a week name is found exactly when some week carries it. */
  lemma FindSemaineComplete(db: Db, nom: string)
    requires Valid(db)
    ensures FindSemaine(db, nom, 0).None? <==> forall k :: k in db.semaines ==> db.semaines[k].nom != nom
  {
  }

  /** In a valid store a week name that is not found appears on no flat row either. */
  lemma NoRowNamed(db: Db, nom: string)
    requires Valid(db)
    requires FindSemaine(db, nom, 0).None?
    ensures forall k :: k in db.planifications ==> db.planifications[k].semaine != nom
  {
    FindSemaineComplete(db, nom);
    forall k | k in db.planifications
      ensures db.planifications[k].semaine != nom
    {
      assert db.semaines[db.planifications[k].semaineEntity].nom == db.planifications[k].semaine;
    }
  }

  // ---------------------------------------------------------------------------
  // find: every matching row, in id order.

  /** The ids of a week's lines (`relations: ['lignes']`). */
  function LignesOf(db: Db, semaine: nat, from: nat): (r: seq<nat>)
    decreases db.nextLigne - from
    ensures forall i :: 0 <= i < |r| ==> from <= r[i] && r[i] in db.lignes && db.lignes[r[i]].semaine == semaine
    ensures forall k :: from <= k < db.nextLigne && k in db.lignes && db.lignes[k].semaine == semaine ==> k in r
  {
    if from >= db.nextLigne then []
    else if from in db.lignes && db.lignes[from].semaine == semaine then [from] + LignesOf(db, semaine, from + 1)
    else LignesOf(db, semaine, from + 1)
  }

  /** The line ids come out strictly increasing: each line at most once, in id order. */
  lemma {:induction false} LignesOfSorted(db: Db, semaine: nat, from: nat)
    decreases db.nextLigne - from
    ensures forall i, j :: 0 <= i < j < |LignesOf(db, semaine, from)| ==>
      LignesOf(db, semaine, from)[i] < LignesOf(db, semaine, from)[j]
  {
    if from < db.nextLigne {
      LignesOfSorted(db, semaine, from + 1);
      var rest, all := LignesOf(db, semaine, from + 1), LignesOf(db, semaine, from);
      if from in db.lignes && db.lignes[from].semaine == semaine {
        assert all == [from] + rest;
        forall i, j | 0 <= i < j < |all|
          ensures all[i] < all[j]
        {
          assert all[j] == rest[j - 1];
          if i > 0 {
            assert all[i] == rest[i - 1];
          }
        }
      }
    }
  }

  /** The ids of a line's references, in increasing id order. */
  function ReferenceIdsOf(db: Db, semaineLigne: nat, from: nat): (r: seq<nat>)
    decreases db.nextReference - from
    ensures forall i :: 0 <= i < |r| ==> (
      from <= r[i] < db.nextReference && r[i] in db.references && db.references[r[i]].semaineLigne == semaineLigne)
  {
    if from >= db.nextReference then []
    else if from in db.references && db.references[from].semaineLigne == semaineLigne
    then [from] + ReferenceIdsOf(db, semaineLigne, from + 1)
    else ReferenceIdsOf(db, semaineLigne, from + 1)
  }

  /** A line's references (`relations: ['references']`). */
  function ReferencesOf(db: Db, semaineLigne: nat, from: nat): (r: seq<LigneReference>)
    decreases db.nextReference - from
    ensures forall i :: 0 <= i < |r| ==> r[i].semaineLigne == semaineLigne && r[i] in db.references.Values
  {
    if from >= db.nextReference then []
    else if from in db.references && db.references[from].semaineLigne == semaineLigne
    then [db.references[from]] + ReferencesOf(db, semaineLigne, from + 1)
    else ReferencesOf(db, semaineLigne, from + 1)
  }

  /** The listed references are the rows of the listed ids, one each, in id order. */
  lemma {:induction false} ReferencesOfIds(db: Db, semaineLigne: nat, from: nat)
    decreases db.nextReference - from
    ensures |ReferencesOf(db, semaineLigne, from)| == |ReferenceIdsOf(db, semaineLigne, from)|
    ensures forall i :: 0 <= i < |ReferencesOf(db, semaineLigne, from)| ==>
      ReferencesOf(db, semaineLigne, from)[i] == db.references[ReferenceIdsOf(db, semaineLigne, from)[i]]
  {
    if from < db.nextReference {
      ReferencesOfIds(db, semaineLigne, from + 1);
      var rest, restIds := ReferencesOf(db, semaineLigne, from + 1), ReferenceIdsOf(db, semaineLigne, from + 1);
      if from in db.references && db.references[from].semaineLigne == semaineLigne {
        var all, allIds := ReferencesOf(db, semaineLigne, from), ReferenceIdsOf(db, semaineLigne, from);
        assert all == [db.references[from]] + rest;
        assert allIds == [from] + restIds;
        forall i | 0 < i < |all|
          ensures all[i] == db.references[allIds[i]]
        {
          assert all[i] == rest[i - 1] && allIds[i] == restIds[i - 1];
        }
      } else {
        assert ReferencesOf(db, semaineLigne, from) == rest;
        assert ReferenceIdsOf(db, semaineLigne, from) == restIds;
      }
    }
  }

  /** The reference ids come out strictly increasing: each row at most once, in id order. */
  lemma {:induction false} ReferenceIdsOfSorted(db: Db, semaineLigne: nat, from: nat)
    decreases db.nextReference - from
    ensures forall i, j :: 0 <= i < j < |ReferenceIdsOf(db, semaineLigne, from)| ==>
      ReferenceIdsOf(db, semaineLigne, from)[i] < ReferenceIdsOf(db, semaineLigne, from)[j]
  {
    if from < db.nextReference {
      ReferenceIdsOfSorted(db, semaineLigne, from + 1);
      var rest, all := ReferenceIdsOf(db, semaineLigne, from + 1), ReferenceIdsOf(db, semaineLigne, from);
      if from in db.references && db.references[from].semaineLigne == semaineLigne {
        assert all == [from] + rest;
        forall i, j | 0 <= i < j < |all|
          ensures all[i] < all[j]
        {
          assert all[j] == rest[j - 1];
          if i > 0 {
            assert all[i] == rest[i - 1];
          }
        }
      }
    }
  }

  /** Every stored row of the id range that matches is listed. */
  lemma {:induction false} ReferenceIdsOfComplete(db: Db, semaineLigne: nat, from: nat)
    decreases db.nextReference - from
    ensures forall k :: from <= k < db.nextReference && k in db.references && db.references[k].semaineLigne == semaineLigne ==>
      k in ReferenceIdsOf(db, semaineLigne, from)
  {
    if from < db.nextReference {
      ReferenceIdsOfComplete(db, semaineLigne, from + 1);
      var rest, all := ReferenceIdsOf(db, semaineLigne, from + 1), ReferenceIdsOf(db, semaineLigne, from);
      if from in db.references && db.references[from].semaineLigne == semaineLigne {
        assert all == [from] + rest;
      }
    }
  }

  /** Every stored row that matches is in the listing. */
  lemma ReferencesOfComplete(db: Db, semaineLigne: nat, from: nat)
    ensures forall k :: from <= k < db.nextReference && k in db.references && db.references[k].semaineLigne == semaineLigne ==>
      db.references[k] in ReferencesOf(db, semaineLigne, from)
  {
    ReferencesOfIds(db, semaineLigne, from);
    ReferenceIdsOfComplete(db, semaineLigne, from);
    var ids := ReferenceIdsOf(db, semaineLigne, from);
    forall k | from <= k < db.nextReference && k in db.references && db.references[k].semaineLigne == semaineLigne
      ensures db.references[k] in ReferencesOf(db, semaineLigne, from)
    {
      var i :| 0 <= i < |ids| && ids[i] == k;
      assert ReferencesOf(db, semaineLigne, from)[i] == db.references[k];
    }
  }

  /** The ids of the flat rows carrying a week name, in increasing id order. */
  function PlanificationIdsOf(db: Db, semaine: string, from: nat): (r: seq<nat>)
    decreases db.nextPlanification - from
    ensures forall i :: 0 <= i < |r| ==> (
      from <= r[i] < db.nextPlanification && r[i] in db.planifications && db.planifications[r[i]].semaine == semaine)
  {
    if from >= db.nextPlanification then []
    else if from in db.planifications && db.planifications[from].semaine == semaine
    then [from] + PlanificationIdsOf(db, semaine, from + 1)
    else PlanificationIdsOf(db, semaine, from + 1)
  }

  /** `planificationRepository.find({ where: { semaine } })`. */
  function PlanificationsOf(db: Db, semaine: string, from: nat): (r: seq<Planification>)
    decreases db.nextPlanification - from
    ensures forall i :: 0 <= i < |r| ==> r[i].semaine == semaine && r[i] in db.planifications.Values
  {
    if from >= db.nextPlanification then []
    else if from in db.planifications && db.planifications[from].semaine == semaine
    then [db.planifications[from]] + PlanificationsOf(db, semaine, from + 1)
    else PlanificationsOf(db, semaine, from + 1)
  }

  /** The listed flat rows are the rows of the listed ids, one each, in id order. */
  lemma {:induction false} PlanificationsOfIds(db: Db, semaine: string, from: nat)
    decreases db.nextPlanification - from
    ensures |PlanificationsOf(db, semaine, from)| == |PlanificationIdsOf(db, semaine, from)|
    ensures forall i :: 0 <= i < |PlanificationsOf(db, semaine, from)| ==>
      PlanificationsOf(db, semaine, from)[i] == db.planifications[PlanificationIdsOf(db, semaine, from)[i]]
  {
    if from < db.nextPlanification {
      PlanificationsOfIds(db, semaine, from + 1);
      var rest, restIds := PlanificationsOf(db, semaine, from + 1), PlanificationIdsOf(db, semaine, from + 1);
      if from in db.planifications && db.planifications[from].semaine == semaine {
        var all, allIds := PlanificationsOf(db, semaine, from), PlanificationIdsOf(db, semaine, from);
        assert all == [db.planifications[from]] + rest;
        assert allIds == [from] + restIds;
        forall i | 0 < i < |all|
          ensures all[i] == db.planifications[allIds[i]]
        {
          assert all[i] == rest[i - 1] && allIds[i] == restIds[i - 1];
        }
      } else {
        assert PlanificationsOf(db, semaine, from) == rest;
        assert PlanificationIdsOf(db, semaine, from) == restIds;
      }
    }
  }

  /** The planification ids come out strictly increasing: each row at most once, in id order. */
  lemma {:induction false} PlanificationIdsOfSorted(db: Db, semaine: string, from: nat)
    decreases db.nextPlanification - from
    ensures forall i, j :: 0 <= i < j < |PlanificationIdsOf(db, semaine, from)| ==>
      PlanificationIdsOf(db, semaine, from)[i] < PlanificationIdsOf(db, semaine, from)[j]
  {
    if from < db.nextPlanification {
      PlanificationIdsOfSorted(db, semaine, from + 1);
      var rest, all := PlanificationIdsOf(db, semaine, from + 1), PlanificationIdsOf(db, semaine, from);
      if from in db.planifications && db.planifications[from].semaine == semaine {
        assert all == [from] + rest;
        forall i, j | 0 <= i < j < |all|
          ensures all[i] < all[j]
        {
          assert all[j] == rest[j - 1];
          if i > 0 {
            assert all[i] == rest[i - 1];
          }
        }
      }
    }
  }

  /** Every stored row of the id range that matches is listed. */
  lemma {:induction false} PlanificationIdsOfComplete(db: Db, semaine: string, from: nat)
    decreases db.nextPlanification - from
    ensures forall k :: from <= k < db.nextPlanification && k in db.planifications && db.planifications[k].semaine == semaine ==>
      k in PlanificationIdsOf(db, semaine, from)
  {
    if from < db.nextPlanification {
      PlanificationIdsOfComplete(db, semaine, from + 1);
      var rest, all := PlanificationIdsOf(db, semaine, from + 1), PlanificationIdsOf(db, semaine, from);
      if from in db.planifications && db.planifications[from].semaine == semaine {
        assert all == [from] + rest;
      }
    }
  }

  /** Every stored row that matches is in the listing. */
  lemma PlanificationsOfComplete(db: Db, semaine: string, from: nat)
    ensures forall k :: from <= k < db.nextPlanification && k in db.planifications && db.planifications[k].semaine == semaine ==>
      db.planifications[k] in PlanificationsOf(db, semaine, from)
  {
    PlanificationsOfIds(db, semaine, from);
    PlanificationIdsOfComplete(db, semaine, from);
    var ids := PlanificationIdsOf(db, semaine, from);
    forall k | from <= k < db.nextPlanification && k in db.planifications && db.planifications[k].semaine == semaine
      ensures db.planifications[k] in PlanificationsOf(db, semaine, from)
    {
      var i :| 0 <= i < |ids| && ids[i] == k;
      assert PlanificationsOf(db, semaine, from)[i] == db.planifications[k];
    }
  }
}
