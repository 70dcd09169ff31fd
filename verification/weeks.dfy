/**
 * Creating a week, which fans the catalogue out into one line per distinct
 * catalogue line and one reference per product, every reference starting
 * with the zero record in all six day slots; and deleting a week with
 * everything it owns.
 */
module Weeks {
  import opened Wrappers
  import opened Days
  import opened Production
  import opened Store
  import opened Catalogue

  /** A reference as week creation inserts it: all six slots hold the zero record. */
  function NewReference(ligne: nat, reference: string): LigneReference {
    LigneReference(ligne, reference, Some(ZeroRecord), Some(ZeroRecord), Some(ZeroRecord),
                   Some(ZeroRecord), Some(ZeroRecord), Some(ZeroRecord))
  }

  predicate AllSlotsZero(r: LigneReference) {
    forall d: Day :: r.Slot(d) == Some(ZeroRecord)
  }

  lemma NewReferenceZero(ligne: nat, reference: string)
    ensures AllSlotsZero(NewReference(ligne, reference))
  {
    forall d: Day ensures NewReference(ligne, reference).Slot(d) == Some(ZeroRecord) {
      match d
      case Lundi =>
      case Mardi =>
      case Mercredi =>
      case Jeudi =>
      case Vendredi =>
      case Samedi =>
    }
  }

  /** A line as week creation inserts it, with the image chosen for its name. */
  function NewLigne(semaine: nat, cat: seq<Product>, ligne: string): SemaineLigne {
    SemaineLigne(semaine, ligne, LineImageUrl(cat, ligne), LineImageName(cat, ligne))
  }

  /** `ligneReferenceRepository.save(ligneReferences)`: the references get consecutive fresh ids. */
  function InsertReferences(db: Db, ligne: nat, refs: seq<string>): (r: Db)
    decreases |refs|
    ensures r.nextReference == db.nextReference + |refs|
    ensures r.semaines == db.semaines && r.lignes == db.lignes && r.planifications == db.planifications
    ensures r.nextSemaine == db.nextSemaine && r.nextLigne == db.nextLigne
    ensures r.nextPlanification == db.nextPlanification
  {
    if refs == [] then db
    else
      var db1 := db.(references := db.references[db.nextReference := NewReference(ligne, refs[0])],
                     nextReference := db.nextReference + 1);
      InsertReferences(db1, ligne, refs[1..])
  }

  /** The reference ids `InsertReferences` allocates are exactly the fresh range. */
  lemma {:induction false} InsertReferencesKeys(db: Db, ligne: nat, refs: seq<string>)
    decreases |refs|
    ensures forall k :: k in InsertReferences(db, ligne, refs).references <==>
      k in db.references || db.nextReference <= k < db.nextReference + |refs|
  {
    if refs != [] {
      var db1 := db.(references := db.references[db.nextReference := NewReference(ligne, refs[0])],
                     nextReference := db.nextReference + 1);
      InsertReferencesKeys(db1, ligne, refs[1..]);
    }
  }

  /** References below the counter are left as they were. */
  lemma {:induction false} InsertReferencesKeeps(db: Db, ligne: nat, refs: seq<string>, k: nat)
    requires k in db.references && k < db.nextReference
    decreases |refs|
    ensures k in InsertReferences(db, ligne, refs).references
    ensures InsertReferences(db, ligne, refs).references[k] == db.references[k]
  {
    if refs != [] {
      var db1 := db.(references := db.references[db.nextReference := NewReference(ligne, refs[0])],
                     nextReference := db.nextReference + 1);
      InsertReferencesKeeps(db1, ligne, refs[1..], k);
    }
  }

  /** The `j`-th code of `refs` becomes the reference with id `nextReference + j`. */
  lemma {:induction false} InsertReferencesAt(db: Db, ligne: nat, refs: seq<string>, j: nat)
    requires j < |refs|
    decreases |refs|
    ensures db.nextReference + j in InsertReferences(db, ligne, refs).references
    ensures InsertReferences(db, ligne, refs).references[db.nextReference + j] == NewReference(ligne, refs[j])
  {
    var db1 := db.(references := db.references[db.nextReference := NewReference(ligne, refs[0])],
                   nextReference := db.nextReference + 1);
    if j == 0 {
      InsertReferencesKeeps(db1, ligne, refs[1..], db.nextReference);
    } else {
      InsertReferencesAt(db1, ligne, refs[1..], j - 1);
      assert refs[1..][j - 1] == refs[j];
    }
  }

  /** `semaineLigneRepository.save(ligne)`: the line gets the next id. */
  function AddLigne(db: Db, w: SemaineLigne): Db {
    db.(lignes := db.lignes[db.nextLigne := w], nextLigne := db.nextLigne + 1)
  }

  /** One turn of the loop: save the line `l` under the next id, then its references. */
  function InsertLigne(db: Db, semaine: nat, cat: seq<Product>, l: string): (r: Db)
    ensures r.lignes == db.lignes[db.nextLigne := NewLigne(semaine, cat, l)] && r.nextLigne == db.nextLigne + 1
    ensures r.nextReference == db.nextReference + |ReferencesOfLine(cat, l)|
    ensures r.semaines == db.semaines && r.planifications == db.planifications
    ensures r.nextSemaine == db.nextSemaine && r.nextPlanification == db.nextPlanification
  {
    var db1 := AddLigne(db, NewLigne(semaine, cat, l));
    InsertReferences(db1, db.nextLigne, ReferencesOfLine(cat, l))
  }

  /** The turn's references take exactly the next ids. */
  lemma InsertLigneReferenceKeys(db: Db, semaine: nat, cat: seq<Product>, l: string)
    ensures forall k :: k in InsertLigne(db, semaine, cat, l).references <==>
      k in db.references || db.nextReference <= k < db.nextReference + |ReferencesOfLine(cat, l)|
  {
    var db1 := AddLigne(db, NewLigne(semaine, cat, l));
    InsertReferencesKeys(db1, db.nextLigne, ReferencesOfLine(cat, l));
  }

  /** The turn leaves the references below the counter alone. */
  lemma InsertLigneKeepsReference(db: Db, semaine: nat, cat: seq<Product>, l: string, k: nat)
    requires k in db.references && k < db.nextReference
    ensures k in InsertLigne(db, semaine, cat, l).references
    ensures InsertLigne(db, semaine, cat, l).references[k] == db.references[k]
  {
    var db1 := AddLigne(db, NewLigne(semaine, cat, l));
    InsertReferencesKeeps(db1, db.nextLigne, ReferencesOfLine(cat, l), k);
  }

  /** A reference of the turn is all zero and belongs to the turn's line. */
  lemma InsertLigneNewReference(db: Db, semaine: nat, cat: seq<Product>, l: string, k: nat)
    requires db.nextReference <= k < db.nextReference + |ReferencesOfLine(cat, l)|
    ensures k in InsertLigne(db, semaine, cat, l).references
    ensures InsertLigne(db, semaine, cat, l).references[k].semaineLigne == db.nextLigne
    ensures AllSlotsZero(InsertLigne(db, semaine, cat, l).references[k])
  {
    var db1 := AddLigne(db, NewLigne(semaine, cat, l));
    FirstLineReference(db1, db.nextLigne, ReferencesOfLine(cat, l), k);
  }

  /** The loop over the distinct lines: save the line, then its references. */
  function InsertLignes(db: Db, semaine: nat, cat: seq<Product>, ls: seq<string>): (r: Db)
    decreases |ls|
    ensures r.nextLigne == db.nextLigne + |ls|
    ensures r.nextReference == db.nextReference + TotalReferences(cat, ls)
    ensures r.semaines == db.semaines && r.planifications == db.planifications
    ensures r.nextSemaine == db.nextSemaine && r.nextPlanification == db.nextPlanification
  {
    if ls == [] then db
    else InsertLignes(InsertLigne(db, semaine, cat, ls[0]), semaine, cat, ls[1..])
  }

  /** The line ids `InsertLignes` allocates are exactly the fresh range. */
  lemma {:induction false} InsertLignesLineKeys(db: Db, semaine: nat, cat: seq<Product>, ls: seq<string>)
    decreases |ls|
    ensures forall k :: k in InsertLignes(db, semaine, cat, ls).lignes <==>
      k in db.lignes || db.nextLigne <= k < db.nextLigne + |ls|
  {
    if ls != [] {
      var db2 := InsertLigne(db, semaine, cat, ls[0]);
      InsertLignesLineKeys(db2, semaine, cat, ls[1..]);
    }
  }

  /** Lines that existed below the counter are left as they were. */
  lemma {:induction false} InsertLignesKeepsLignes(db: Db, semaine: nat, cat: seq<Product>, ls: seq<string>, k: nat)
    requires k in db.lignes && k < db.nextLigne
    decreases |ls|
    ensures k in InsertLignes(db, semaine, cat, ls).lignes
    ensures InsertLignes(db, semaine, cat, ls).lignes[k] == db.lignes[k]
  {
    if ls != [] {
      var db2 := InsertLigne(db, semaine, cat, ls[0]);
      InsertLignesKeepsLignes(db2, semaine, cat, ls[1..], k);
    }
  }

  /** The `i`-th name of `ls` becomes the line with id `nextLigne + i`. */
  lemma {:induction false} InsertLignesLineAt(db: Db, semaine: nat, cat: seq<Product>, ls: seq<string>, i: nat)
    requires i < |ls|
    decreases |ls|
    ensures db.nextLigne + i in InsertLignes(db, semaine, cat, ls).lignes
    ensures InsertLignes(db, semaine, cat, ls).lignes[db.nextLigne + i] == NewLigne(semaine, cat, ls[i])
  {
    var id := db.nextLigne;
    var db2 := InsertLigne(db, semaine, cat, ls[0]);
    if i == 0 {
      assert id in db2.lignes && db2.lignes[id] == NewLigne(semaine, cat, ls[0]);
      InsertLignesKeepsLignes(db2, semaine, cat, ls[1..], id);
    } else {
      InsertLignesLineAt(db2, semaine, cat, ls[1..], i - 1);
      assert ls[1..][i - 1] == ls[i];
    }
  }

  /** The reference ids `InsertLignes` allocates are exactly the fresh range. */
  lemma {:induction false} InsertLignesReferenceKeys(db: Db, semaine: nat, cat: seq<Product>, ls: seq<string>)
    decreases |ls|
    ensures forall k :: k in InsertLignes(db, semaine, cat, ls).references <==>
      k in db.references || db.nextReference <= k < InsertLignes(db, semaine, cat, ls).nextReference
  {
    if ls != [] {
      var db2 := InsertLigne(db, semaine, cat, ls[0]);
      InsertLigneReferenceKeys(db, semaine, cat, ls[0]);
      InsertLignesReferenceKeys(db2, semaine, cat, ls[1..]);
    }
  }

  /** References that existed below the counter are left as they were. */
  lemma {:induction false} InsertLignesKeepsReferences(db: Db, semaine: nat, cat: seq<Product>, ls: seq<string>, k: nat)
    requires k in db.references && k < db.nextReference
    decreases |ls|
    ensures k in InsertLignes(db, semaine, cat, ls).references
    ensures InsertLignes(db, semaine, cat, ls).references[k] == db.references[k]
  {
    if ls != [] {
      var db2 := InsertLigne(db, semaine, cat, ls[0]);
      InsertLigneKeepsReference(db, semaine, cat, ls[0], k);
      InsertLignesKeepsReferences(db2, semaine, cat, ls[1..], k);
    }
  }

  /** A fresh reference of the first line is all zero and belongs to that line. */
  lemma FirstLineReference(db: Db, ligne: nat, refs: seq<string>, k: nat)
    requires db.nextReference <= k < db.nextReference + |refs|
    ensures k in InsertReferences(db, ligne, refs).references
    ensures InsertReferences(db, ligne, refs).references[k].semaineLigne == ligne
    ensures AllSlotsZero(InsertReferences(db, ligne, refs).references[k])
  {
    var j := k - db.nextReference;
    InsertReferencesAt(db, ligne, refs, j);
    NewReferenceZero(ligne, refs[j]);
  }

  /** Every fresh reference is all zero and belongs to one of the fresh lines. */
  lemma {:induction false} InsertLignesNewReference(db: Db, semaine: nat, cat: seq<Product>, ls: seq<string>, k: nat)
    requires db.nextReference <= k < db.nextReference + TotalReferences(cat, ls)
    decreases |ls|
    ensures k in InsertLignes(db, semaine, cat, ls).references
    ensures AllSlotsZero(InsertLignes(db, semaine, cat, ls).references[k])
    ensures db.nextLigne <= InsertLignes(db, semaine, cat, ls).references[k].semaineLigne < db.nextLigne + |ls|
  {
    assert ls != [];
    var db2 := InsertLigne(db, semaine, cat, ls[0]);
    assert TotalReferences(cat, ls) == |ReferencesOfLine(cat, ls[0])| + TotalReferences(cat, ls[1..]);
    if k < db.nextReference + |ReferencesOfLine(cat, ls[0])| {
      InsertLigneNewReference(db, semaine, cat, ls[0], k);
      InsertLignesKeepsReferences(db2, semaine, cat, ls[1..], k);
    } else {
      InsertLignesNewReference(db2, semaine, cat, ls[1..], k);
    }
  }

  /** One line after the insertion is either an untouched old line or the line of one name of `ls`. */
  lemma InsertLignesLineShapeAt(db: Db, semaine: nat, cat: seq<Product>, ls: seq<string>, k: nat)
    requires KeysBelow(db.lignes, db.nextLigne)
    requires k in InsertLignes(db, semaine, cat, ls).lignes
    ensures || (k in db.lignes && InsertLignes(db, semaine, cat, ls).lignes[k] == db.lignes[k])
            || (db.nextLigne <= k < db.nextLigne + |ls|
                && InsertLignes(db, semaine, cat, ls).lignes[k] == NewLigne(semaine, cat, ls[k - db.nextLigne]))
  {
    if k in db.lignes {
      InsertLignesKeepsLignes(db, semaine, cat, ls, k);
    } else {
      InsertLignesLineKeys(db, semaine, cat, ls);
      InsertLignesLineAt(db, semaine, cat, ls, k - db.nextLigne);
    }
  }

  /** Every reference after the insertion is either an untouched old one or a zero one under a new line. */
  lemma InsertLignesReferenceShape(db: Db, semaine: nat, cat: seq<Product>, ls: seq<string>)
    requires KeysBelow(db.references, db.nextReference)
    ensures forall k :: k in InsertLignes(db, semaine, cat, ls).references ==>
      || (k in db.references && InsertLignes(db, semaine, cat, ls).references[k] == db.references[k])
      || (&& AllSlotsZero(InsertLignes(db, semaine, cat, ls).references[k])
          && db.nextLigne <= InsertLignes(db, semaine, cat, ls).references[k].semaineLigne < db.nextLigne + |ls|)
  {
    var r := InsertLignes(db, semaine, cat, ls);
    InsertLignesReferenceKeys(db, semaine, cat, ls);
    forall k | k in r.references
      ensures || (k in db.references && r.references[k] == db.references[k])
              || (AllSlotsZero(r.references[k]) && db.nextLigne <= r.references[k].semaineLigne < db.nextLigne + |ls|)
    {
      if k in db.references {
        InsertLignesKeepsReferences(db, semaine, cat, ls, k);
      } else {
        InsertLignesNewReference(db, semaine, cat, ls, k);
      }
    }
  }

  /** The counters stay above every id. */
  lemma InsertLignesKeysBelow(db: Db, semaine: nat, cat: seq<Product>, ls: seq<string>)
    requires KeysBelow(db.lignes, db.nextLigne) && KeysBelow(db.references, db.nextReference)
    ensures var r := InsertLignes(db, semaine, cat, ls);
      KeysBelow(r.lignes, r.nextLigne) && KeysBelow(r.references, r.nextReference)
  {
    InsertLignesLineKeys(db, semaine, cat, ls);
    InsertLignesReferenceKeys(db, semaine, cat, ls);
  }

  /** Every line still belongs to a week. */
  lemma InsertLignesLignesOwned(db: Db, semaine: nat, cat: seq<Product>, ls: seq<string>)
    requires KeysBelow(db.lignes, db.nextLigne) && LignesOwned(db) && semaine in db.semaines
    ensures LignesOwned(InsertLignes(db, semaine, cat, ls))
  {
    var r := InsertLignes(db, semaine, cat, ls);
    InsertLignesLineKeys(db, semaine, cat, ls);
    forall k | k in r.lignes
      ensures r.lignes[k].semaine in r.semaines
    {
      if k in db.lignes {
        InsertLignesKeepsLignes(db, semaine, cat, ls, k);
      } else {
        InsertLignesLineAt(db, semaine, cat, ls, k - db.nextLigne);
      }
    }
  }

  /** Every reference still belongs to a line. */
  lemma InsertLignesReferencesOwned(db: Db, semaine: nat, cat: seq<Product>, ls: seq<string>)
    requires KeysBelow(db.references, db.nextReference) && ReferencesOwned(db)
    ensures ReferencesOwned(InsertLignes(db, semaine, cat, ls))
  {
    var r := InsertLignes(db, semaine, cat, ls);
    InsertLignesLineKeys(db, semaine, cat, ls);
    InsertLignesReferenceKeys(db, semaine, cat, ls);
    forall k | k in r.references
      ensures r.references[k].semaineLigne in r.lignes
    {
      if k in db.references {
        InsertLignesKeepsReferences(db, semaine, cat, ls, k);
      } else {
        InsertLignesNewReference(db, semaine, cat, ls, k);
      }
    }
  }

  /** Line names stay unique within a week when the new week had none and `ls` has no repeats. */
  lemma InsertLignesUniqueNames(db: Db, semaine: nat, cat: seq<Product>, ls: seq<string>)
    requires KeysBelow(db.lignes, db.nextLigne) && UniqueLigneNames(db) && NoDup(ls)
    requires forall k :: k in db.lignes ==> db.lignes[k].semaine != semaine
    ensures UniqueLigneNames(InsertLignes(db, semaine, cat, ls))
  {
    var r := InsertLignes(db, semaine, cat, ls);
    var n := db.nextLigne;
    InsertLignesLineKeys(db, semaine, cat, ls);
    forall a, b | a in r.lignes && b in r.lignes && r.lignes[a].semaine == r.lignes[b].semaine
                  && r.lignes[a].nomLigne == r.lignes[b].nomLigne
      ensures a == b
    {
      if a in db.lignes {
        InsertLignesKeepsLignes(db, semaine, cat, ls, a);
      } else {
        InsertLignesLineAt(db, semaine, cat, ls, a - n);
      }
      if b in db.lignes {
        InsertLignesKeepsLignes(db, semaine, cat, ls, b);
      } else {
        InsertLignesLineAt(db, semaine, cat, ls, b - n);
      }
      if a !in db.lignes && b !in db.lignes {
        assert ls[a - n] == ls[b - n];
      }
    }
  }

  /**
   * Inserting the lines of a week that has none yet, under pairwise distinct
   * names, keeps every database constraint.
   */
  lemma InsertLignesValid(db: Db, semaine: nat, cat: seq<Product>, ls: seq<string>)
    requires Valid(db) && semaine in db.semaines && NoDup(ls)
    requires forall k :: k in db.lignes ==> db.lignes[k].semaine != semaine
    ensures Valid(InsertLignes(db, semaine, cat, ls))
  {
    InsertLignesKeysBelow(db, semaine, cat, ls);
    InsertLignesLignesOwned(db, semaine, cat, ls);
    InsertLignesReferencesOwned(db, semaine, cat, ls);
    InsertLignesUniqueNames(db, semaine, cat, ls);
  }

  /** The answer of a successful week creation. */
  datatype CreatedSemaine = CreatedSemaine(id: nat, nom: string, totalLignes: nat, totalReferences: nat)

  /** `semaineRepository.save(semaine)`: the week stored under the next id. */
  function AddSemaine(db: Db, w: Semaine): Db {
    db.(semaines := db.semaines[db.nextSemaine := w], nextSemaine := db.nextSemaine + 1)
  }

  /**
   * `createSemaine`: refuse a name already taken, save the week, then fan the
   * catalogue out into its lines and references.
   */
  function CreateSemaine(db: Db, nom: string, dateDebut: string, dateFin: string, creePar: nat,
                         cat: seq<Product>): (r: Result<(Db, CreatedSemaine), Error>)
    requires Valid(db)
    ensures r.Failure? <==> exists k :: k in db.semaines && db.semaines[k].nom == nom
    ensures r.Failure? ==> r.error == Conflict
    ensures r.Success? ==>
      && r.value.1.id == db.nextSemaine && r.value.1.nom == nom
      && r.value.0.semaines == db.semaines[db.nextSemaine := Semaine(nom, dateDebut, dateFin, creePar)]
      && r.value.0.planifications == db.planifications
      && r.value.0.nextLigne == db.nextLigne + r.value.1.totalLignes
      && r.value.0.nextReference == db.nextReference + r.value.1.totalReferences
  {
    if FindSemaine(db, nom, 0).Some? then Failure(Conflict)
    else
      var id := db.nextSemaine;
      var db0 := AddSemaine(db, Semaine(nom, dateDebut, dateFin, creePar));
      var ls := DistinctLines(cat);
      var db1 := InsertLignes(db0, id, cat, ls);
      Success((db1, CreatedSemaine(id, nom, |ls|, TotalReferences(cat, ls))))
  }

  /** No line of a consistent store belongs to the week id not handed out yet. */
  lemma NoLineOfNextWeek(db: Db)
    requires Valid(db)
    ensures forall k :: k in db.lignes ==> db.lignes[k].semaine != db.nextSemaine
  {
    forall k | k in db.lignes
      ensures db.lignes[k].semaine != db.nextSemaine
    {
      assert db.lignes[k].semaine in db.semaines;
    }
  }

  /** Saving a week under a fresh id and an unused name keeps every constraint. */
  lemma AddSemaineValid(db: Db, w: Semaine)
    requires Valid(db)
    requires FindSemaine(db, w.nom, 0).None?
    ensures Valid(AddSemaine(db, w))
  {
    var id := db.nextSemaine;
    var db0 := AddSemaine(db, w);
    FindSemaineComplete(db, w.nom);
    assert KeysBelow(db0.semaines, db0.nextSemaine);
    assert LignesOwned(db0);
    assert ReferencesOwned(db0) && UniqueLigneNames(db0) && UniquePlanKeys(db0);
    forall k | k in db0.planifications
      ensures db0.planifications[k].semaineEntity in db0.semaines
      ensures db0.semaines[db0.planifications[k].semaineEntity] == db.semaines[db.planifications[k].semaineEntity]
    {
    }
    assert PlanificationsOwned(db0);
    forall a, b | a in db0.semaines && b in db0.semaines && db0.semaines[a].nom == db0.semaines[b].nom
      ensures a == b
    {
    }
    assert UniqueNoms(db0);
  }

  /** The store a successful creation returns: the week saved under the next id, then its lines. */
  lemma CreateSemaineStore(db: Db, nom: string, dateDebut: string, dateFin: string, creePar: nat, cat: seq<Product>)
    requires Valid(db)
    requires FindSemaine(db, nom, 0).None?
    ensures CreateSemaine(db, nom, dateDebut, dateFin, creePar, cat).Success?
    ensures CreateSemaine(db, nom, dateDebut, dateFin, creePar, cat).value.0
         == InsertLignes(AddSemaine(db, Semaine(nom, dateDebut, dateFin, creePar)),
                         db.nextSemaine, cat, DistinctLines(cat))
  {
  }

  /** Saving a week under a fresh id and an unused name, then its lines, keeps every constraint. */
  lemma NewWeekValid(db: Db, w: Semaine, cat: seq<Product>)
    requires Valid(db)
    requires FindSemaine(db, w.nom, 0).None?
    ensures Valid(InsertLignes(AddSemaine(db, w),
                               db.nextSemaine, cat, DistinctLines(cat)))
  {
    AddSemaineValid(db, w);
    NoLineOfNextWeek(db);
    InsertLignesValid(AddSemaine(db, w),
                      db.nextSemaine, cat, DistinctLines(cat));
  }

  /** Creation keeps every database constraint. */
  lemma CreateSemaineValid(db: Db, nom: string, dateDebut: string, dateFin: string, creePar: nat, cat: seq<Product>)
    requires Valid(db)
    ensures var r := CreateSemaine(db, nom, dateDebut, dateFin, creePar, cat);
      r.Success? ==> Valid(r.value.0)
  {
    if FindSemaine(db, nom, 0).None? {
      NewWeekValid(db, Semaine(nom, dateDebut, dateFin, creePar), cat);
      CreateSemaineStore(db, nom, dateDebut, dateFin, creePar, cat);
    }
  }

  /**
   * The counts the answer reports: one line per distinct catalogue line, one
   * reference per catalogue product.
   */
  lemma CreateSemaineCounts(db: Db, nom: string, dateDebut: string, dateFin: string, creePar: nat, cat: seq<Product>)
    requires Valid(db)
    ensures var r := CreateSemaine(db, nom, dateDebut, dateFin, creePar, cat);
      r.Success? ==> r.value.1.totalLignes == |LineSet(cat)| && r.value.1.totalReferences == |cat|
  {
    DistinctLinesCount(cat);
    EveryProductFannedOutOnce(cat);
  }

  /** Week `semaine` owns a line named `l`. */
  predicate HasLineNamed(db: Db, semaine: nat, l: string) {
    exists k :: k in db.lignes && db.lignes[k].semaine == semaine && db.lignes[k].nomLigne == l
  }

  /** Inserting the lines `ls` for a week that owns no line yet gives it one line per name of `ls`, and no other. */
  lemma InsertLignesNames(db: Db, semaine: nat, cat: seq<Product>, ls: seq<string>)
    requires KeysBelow(db.lignes, db.nextLigne)
    requires forall k :: k in db.lignes ==> db.lignes[k].semaine != semaine
    ensures forall l :: l in ls <==> HasLineNamed(InsertLignes(db, semaine, cat, ls), semaine, l)
  {
    var r := InsertLignes(db, semaine, cat, ls);
    forall l | l in ls
      ensures exists k :: k in r.lignes && r.lignes[k].semaine == semaine && r.lignes[k].nomLigne == l
    {
      var i :| 0 <= i < |ls| && ls[i] == l;
      InsertLignesLineAt(db, semaine, cat, ls, i);
      assert r.lignes[db.nextLigne + i].nomLigne == l;
    }
    forall l, k | k in r.lignes && r.lignes[k].semaine == semaine && r.lignes[k].nomLigne == l
      ensures l in ls
    {
      InsertLignesLineShapeAt(db, semaine, cat, ls, k);
      assert k !in db.lignes;
      assert ls[k - db.nextLigne] in ls;
    }
  }

  /** The new week's lines are named after exactly the catalogue's lines. */
  lemma CreateSemaineLines(db: Db, nom: string, dateDebut: string, dateFin: string, creePar: nat, cat: seq<Product>)
    requires Valid(db)
    ensures var r := CreateSemaine(db, nom, dateDebut, dateFin, creePar, cat);
      r.Success? ==>
        forall l :: l in LineSet(cat) <==>
          exists k :: k in r.value.0.lignes && r.value.0.lignes[k].semaine == r.value.1.id
                      && r.value.0.lignes[k].nomLigne == l
  {
    if FindSemaine(db, nom, 0).None? {
      NoLineOfNextWeek(db);
      InsertLignesNames(AddSemaine(db, Semaine(nom, dateDebut, dateFin, creePar)),
                        db.nextSemaine, cat, DistinctLines(cat));
      CreateSemaineStore(db, nom, dateDebut, dateFin, creePar, cat);
    }
  }

  /** Reference `k` of `db` starts all zero under a line of week `semaine`. */
  predicate FreshUnder(db: Db, semaine: nat, k: nat) {
    && k in db.references
    && AllSlotsZero(db.references[k])
    && db.references[k].semaineLigne in db.lignes
    && db.lignes[db.references[k].semaineLigne].semaine == semaine
  }

  /** Every reference the insertion adds starts all zero under one of the inserted lines. */
  lemma InsertLignesFreshReferences(db: Db, semaine: nat, cat: seq<Product>, ls: seq<string>)
    requires KeysBelow(db.lignes, db.nextLigne) && KeysBelow(db.references, db.nextReference)
    ensures forall k :: k in InsertLignes(db, semaine, cat, ls).references && k !in db.references ==>
      FreshUnder(InsertLignes(db, semaine, cat, ls), semaine, k)
  {
    var r := InsertLignes(db, semaine, cat, ls);
    InsertLignesReferenceShape(db, semaine, cat, ls);
    forall k | k in r.references && k !in db.references
      ensures FreshUnder(r, semaine, k)
    {
      var n := r.references[k].semaineLigne;
      InsertLignesLineAt(db, semaine, cat, ls, n - db.nextLigne);
    }
  }

  /** Every reference the creation adds starts all zero under one of the new week's lines. */
  lemma CreateSemaineReferences(db: Db, nom: string, dateDebut: string, dateFin: string, creePar: nat, cat: seq<Product>)
    requires Valid(db)
    ensures var r := CreateSemaine(db, nom, dateDebut, dateFin, creePar, cat);
      r.Success? ==>
        forall k :: k in r.value.0.references && k !in db.references ==>
          && AllSlotsZero(r.value.0.references[k])
          && r.value.0.references[k].semaineLigne in r.value.0.lignes
          && r.value.0.lignes[r.value.0.references[k].semaineLigne].semaine == r.value.1.id
  {
    if FindSemaine(db, nom, 0).None? {
      InsertLignesFreshReferences(
        AddSemaine(db, Semaine(nom, dateDebut, dateFin, creePar)),
        db.nextSemaine, cat, DistinctLines(cat));
      CreateSemaineStore(db, nom, dateDebut, dateFin, creePar, cat);
    }
  }

  /** The product codes of a list of references, in list order. */
  function Codes(refs: seq<LigneReference>): seq<string> {
    seq(|refs|, i requires 0 <= i < |refs| => refs[i].reference)
  }

  /** Where the references of the `i`-th name of `ls` start: after those of the names before it. */
  function LineStart(db: Db, cat: seq<Product>, ls: seq<string>, i: nat): nat
    requires i <= |ls|
  {
    db.nextReference + TotalReferences(cat, ls[..i])
  }

  /** The start of name `i` of `ls` is the start of name `i - 1` of `ls[1..]` once the first line is inserted. */
  lemma LineStartStep(db: Db, semaine: nat, cat: seq<Product>, ls: seq<string>, i: nat)
    requires 0 < i <= |ls|
    ensures LineStart(db, cat, ls, i) == LineStart(InsertLigne(db, semaine, cat, ls[0]), cat, ls[1..], i - 1)
  {
    assert ls[..i][0] == ls[0];
    assert ls[..i][1..] == ls[1..][..i - 1];
  }

  /** Product `j` of line `l` becomes the `j`-th reference the turn saves. */
  lemma InsertLigneReferenceAt(db: Db, semaine: nat, cat: seq<Product>, l: string, j: nat)
    requires j < |ReferencesOfLine(cat, l)|
    ensures db.nextReference + j in InsertLigne(db, semaine, cat, l).references
    ensures InsertLigne(db, semaine, cat, l).references[db.nextReference + j]
         == NewReference(db.nextLigne, ReferencesOfLine(cat, l)[j])
  {
    InsertReferencesAt(AddLigne(db, NewLigne(semaine, cat, l)), db.nextLigne, ReferencesOfLine(cat, l), j);
  }

  /** Product `j` of the `i`-th name of `ls` becomes the reference with id `LineStart + j`, under line `nextLigne + i`. */
  lemma {:induction false} InsertLignesReferenceAt(db: Db, semaine: nat, cat: seq<Product>, ls: seq<string>, i: nat, j: nat)
    requires i < |ls| && j < |ReferencesOfLine(cat, ls[i])|
    decreases |ls|
    ensures LineStart(db, cat, ls, i) + j in InsertLignes(db, semaine, cat, ls).references
    ensures InsertLignes(db, semaine, cat, ls).references[LineStart(db, cat, ls, i) + j]
         == NewReference(db.nextLigne + i, ReferencesOfLine(cat, ls[i])[j])
  {
    var db2 := InsertLigne(db, semaine, cat, ls[0]);
    if i == 0 {
      assert ls[..0] == [];
      InsertLigneReferenceAt(db, semaine, cat, ls[0], j);
      InsertLignesKeepsReferences(db2, semaine, cat, ls[1..], db.nextReference + j);
    } else {
      LineStartStep(db, semaine, cat, ls, i);
      assert ls[1..][i - 1] == ls[i];
      InsertLignesReferenceAt(db2, semaine, cat, ls[1..], i - 1, j);
    }
  }

  /** A fresh reference under line `nextLigne + i` has an id in the block of the `i`-th name. */
  lemma {:induction false} InsertLignesReferenceOwner(db: Db, semaine: nat, cat: seq<Product>, ls: seq<string>, i: nat, k: nat)
    requires i < |ls|
    requires db.nextReference <= k < db.nextReference + TotalReferences(cat, ls)
    requires k in InsertLignes(db, semaine, cat, ls).references
    requires InsertLignes(db, semaine, cat, ls).references[k].semaineLigne == db.nextLigne + i
    decreases |ls|
    ensures LineStart(db, cat, ls, i) <= k < LineStart(db, cat, ls, i) + |ReferencesOfLine(cat, ls[i])|
  {
    var db2 := InsertLigne(db, semaine, cat, ls[0]);
    assert TotalReferences(cat, ls) == |ReferencesOfLine(cat, ls[0])| + TotalReferences(cat, ls[1..]);
    if k < db.nextReference + |ReferencesOfLine(cat, ls[0])| {
      InsertLigneNewReference(db, semaine, cat, ls[0], k);
      InsertLignesKeepsReferences(db2, semaine, cat, ls[1..], k);
      assert i == 0;
      assert ls[..0] == [];
    } else {
      InsertLignesNewReference(db2, semaine, cat, ls[1..], k);
      LineStartStep(db, semaine, cat, ls, i);
      assert ls[1..][i - 1] == ls[i];
      InsertLignesReferenceOwner(db2, semaine, cat, ls[1..], i - 1, k);
    }
  }

  /** `s` holds exactly the numbers of `[a, b)`. */
  ghost predicate HoldsRange(s: seq<nat>, a: nat, b: nat) {
    forall x :: x in s <==> a <= x < b
  }

  /** A strictly increasing sequence holding exactly the numbers of `[a, b)` is that range. */
  lemma {:induction false} IncreasingRange(s: seq<nat>, a: nat, b: nat)
    requires a <= b
    requires forall i, j :: 0 <= i < j < |s| ==> s[i] < s[j]
    requires HoldsRange(s, a, b)
    decreases b - a
    ensures |s| + a == b
    ensures forall i :: 0 <= i < |s| ==> s[i] == a + i
  {
    if s != [] {
      assert s[0] in s;
      assert a in s;
      var m :| 0 <= m < |s| && s[m] == a;
      assert s[0] == s[m];
      var t := s[1..];
      forall x
        ensures x in t <==> a + 1 <= x < b
      {
        if x in t {
          var p :| 0 <= p < |t| && t[p] == x;
          assert s[p + 1] == x && s[0] < s[p + 1];
          assert x in s;
        }
        if a + 1 <= x < b {
          assert x in s;
          var p :| 0 <= p < |s| && s[p] == x;
          assert p != 0;
          assert t[p - 1] == x;
        }
      }
      IncreasingRange(t, a + 1, b);
      forall i | 0 < i < |s|
        ensures s[i] == a + i
      {
        assert s[i] == t[i - 1];
      }
    } else {
      assert a !in s;
    }
  }

  /** The references that were there stay, under the lines that were there. */
  lemma InsertLignesOldReferences(db: Db, semaine: nat, cat: seq<Product>, ls: seq<string>)
    requires KeysBelow(db.lignes, db.nextLigne) && KeysBelow(db.references, db.nextReference)
    requires ReferencesOwned(db)
    ensures forall x :: x in db.references ==>
      x in InsertLignes(db, semaine, cat, ls).references
      && InsertLignes(db, semaine, cat, ls).references[x].semaineLigne < db.nextLigne
  {
    forall x | x in db.references
      ensures x in InsertLignes(db, semaine, cat, ls).references
      ensures InsertLignes(db, semaine, cat, ls).references[x].semaineLigne < db.nextLigne
    {
      InsertLignesKeepsReferences(db, semaine, cat, ls, x);
    }
  }

  /** The ids listed under the `i`-th inserted line are exactly the block of the `i`-th name. */
  lemma InsertLignesLineIds(db: Db, semaine: nat, cat: seq<Product>, ls: seq<string>, i: nat)
    requires KeysBelow(db.lignes, db.nextLigne) && KeysBelow(db.references, db.nextReference)
    requires ReferencesOwned(db)
    requires i < |ls|
    ensures HoldsRange(ReferenceIdsOf(InsertLignes(db, semaine, cat, ls), db.nextLigne + i, 0),
                       LineStart(db, cat, ls, i), LineStart(db, cat, ls, i) + |ReferencesOfLine(cat, ls[i])|)
  {
    var r := InsertLignes(db, semaine, cat, ls);
    var n := db.nextLigne + i;
    var a := LineStart(db, cat, ls, i);
    var ids := ReferenceIdsOf(r, n, 0);
    InsertLignesReferenceKeys(db, semaine, cat, ls);
    InsertLignesKeysBelow(db, semaine, cat, ls);
    ReferenceIdsOfComplete(r, n, 0);
    InsertLignesOldReferences(db, semaine, cat, ls);
    forall x | x in ids
      ensures a <= x < a + |ReferencesOfLine(cat, ls[i])|
    {
      assert x !in db.references;
      InsertLignesReferenceOwner(db, semaine, cat, ls, i, x);
    }
    forall x | a <= x < a + |ReferencesOfLine(cat, ls[i])|
      ensures x in ids
    {
      InsertLignesReferenceAt(db, semaine, cat, ls, i, x - a);
    }
  }

  /** The references with ids `a`, `a + 1`, ... exist and carry `codes`, in order. */
  ghost predicate CodesFrom(r: Db, a: nat, codes: seq<string>) {
    forall k :: a <= k < a + |codes| ==> k in r.references && r.references[k].reference == codes[k - a]
  }

  /** When the ids listed under line `n` are exactly `[a, a + |codes|)` and row `k` of them has code `k - a`, the line lists exactly those codes. */
  lemma CodesOfRange(r: Db, n: nat, a: nat, codes: seq<string>)
    requires HoldsRange(ReferenceIdsOf(r, n, 0), a, a + |codes|)
    requires CodesFrom(r, a, codes)
    ensures Codes(ReferencesOf(r, n, 0)) == codes
  {
    var ids := ReferenceIdsOf(r, n, 0);
    ReferenceIdsOfSorted(r, n, 0);
    IncreasingRange(ids, a, a + |codes|);
    ReferencesOfIds(r, n, 0);
    forall j | 0 <= j < |codes|
      ensures Codes(ReferencesOf(r, n, 0))[j] == codes[j]
    {
      assert ids[j] == a + j;
    }
  }

  /** The block of the `i`-th inserted line holds its products' codes, in catalogue order. */
  lemma InsertLignesLineBlock(db: Db, semaine: nat, cat: seq<Product>, ls: seq<string>, i: nat)
    requires i < |ls|
    ensures CodesFrom(InsertLignes(db, semaine, cat, ls), LineStart(db, cat, ls, i), ReferencesOfLine(cat, ls[i]))
  {
    forall k | LineStart(db, cat, ls, i) <= k < LineStart(db, cat, ls, i) + |ReferencesOfLine(cat, ls[i])|
      ensures k in InsertLignes(db, semaine, cat, ls).references
      ensures InsertLignes(db, semaine, cat, ls).references[k].reference == ReferencesOfLine(cat, ls[i])[k - LineStart(db, cat, ls, i)]
    {
      InsertLignesReferenceAt(db, semaine, cat, ls, i, k - LineStart(db, cat, ls, i));
    }
  }

  /** The references listed under the `i`-th inserted line carry, in order, the codes of its catalogue products. */
  lemma InsertLignesLineCodes(db: Db, semaine: nat, cat: seq<Product>, ls: seq<string>, i: nat)
    requires KeysBelow(db.lignes, db.nextLigne) && KeysBelow(db.references, db.nextReference)
    requires ReferencesOwned(db)
    requires i < |ls|
    ensures Codes(ReferencesOf(InsertLignes(db, semaine, cat, ls), db.nextLigne + i, 0)) == ReferencesOfLine(cat, ls[i])
  {
    InsertLignesLineIds(db, semaine, cat, ls, i);
    InsertLignesLineBlock(db, semaine, cat, ls, i);
    CodesOfRange(InsertLignes(db, semaine, cat, ls), db.nextLigne + i, LineStart(db, cat, ls, i), ReferencesOfLine(cat, ls[i]));
  }

  /** Every line of week `semaine` the insertion creates lists, in id order, the codes of its catalogue products. */
  predicate CodesMatchCatalogue(db: Db, semaine: nat, cat: seq<Product>) {
    forall n :: n in db.lignes && db.lignes[n].semaine == semaine ==>
      Codes(ReferencesOf(db, n, 0)) == ReferencesOfLine(cat, db.lignes[n].nomLigne)
  }

  /** A line of week `semaine` after the insertion is the line of one name of `ls`. */
  lemma InsertLignesLineOfWeek(db: Db, semaine: nat, cat: seq<Product>, ls: seq<string>, n: nat)
    requires KeysBelow(db.lignes, db.nextLigne)
    requires forall k :: k in db.lignes ==> db.lignes[k].semaine != semaine
    requires n in InsertLignes(db, semaine, cat, ls).lignes && InsertLignes(db, semaine, cat, ls).lignes[n].semaine == semaine
    ensures db.nextLigne <= n < db.nextLigne + |ls|
    ensures InsertLignes(db, semaine, cat, ls).lignes[n].nomLigne == ls[n - db.nextLigne]
  {
    InsertLignesLineShapeAt(db, semaine, cat, ls, n);
    assert n !in db.lignes;
  }

  /** The same, for a line found by id. */
  lemma InsertLignesCodesAt(db: Db, semaine: nat, cat: seq<Product>, ls: seq<string>, n: nat)
    requires KeysBelow(db.lignes, db.nextLigne) && KeysBelow(db.references, db.nextReference)
    requires ReferencesOwned(db)
    requires forall k :: k in db.lignes ==> db.lignes[k].semaine != semaine
    requires n in InsertLignes(db, semaine, cat, ls).lignes && InsertLignes(db, semaine, cat, ls).lignes[n].semaine == semaine
    ensures Codes(ReferencesOf(InsertLignes(db, semaine, cat, ls), n, 0))
         == ReferencesOfLine(cat, InsertLignes(db, semaine, cat, ls).lignes[n].nomLigne)
  {
    InsertLignesLineOfWeek(db, semaine, cat, ls, n);
    InsertLignesLineCodes(db, semaine, cat, ls, n - db.nextLigne);
  }

  lemma InsertLignesCodes(db: Db, semaine: nat, cat: seq<Product>, ls: seq<string>)
    requires KeysBelow(db.lignes, db.nextLigne) && KeysBelow(db.references, db.nextReference)
    requires ReferencesOwned(db)
    requires forall k :: k in db.lignes ==> db.lignes[k].semaine != semaine
    ensures CodesMatchCatalogue(InsertLignes(db, semaine, cat, ls), semaine, cat)
  {
    var r := InsertLignes(db, semaine, cat, ls);
    forall n | n in r.lignes && r.lignes[n].semaine == semaine
      ensures Codes(ReferencesOf(r, n, 0)) == ReferencesOfLine(cat, r.lignes[n].nomLigne)
    {
      InsertLignesCodesAt(db, semaine, cat, ls, n);
    }
  }

  /**
   * After `createSemaine`, each line of the new week lists, in id order, one
   * reference per catalogue product of that line, with the products' codes
   * in catalogue order.
   */
  lemma CreateSemaineReferenceCodes(db: Db, nom: string, dateDebut: string, dateFin: string, creePar: nat, cat: seq<Product>)
    requires Valid(db)
    ensures var r := CreateSemaine(db, nom, dateDebut, dateFin, creePar, cat);
      r.Success? ==> CodesMatchCatalogue(r.value.0, r.value.1.id, cat)
  {
    if FindSemaine(db, nom, 0).None? {
      var db0 := AddSemaine(db, Semaine(nom, dateDebut, dateFin, creePar));
      NoLineOfNextWeek(db);
      assert ReferencesOwned(db0);
      InsertLignesCodes(db0, db.nextSemaine, cat, DistinctLines(cat));
      CreateSemaineStore(db, nom, dateDebut, dateFin, creePar, cat);
    }
  }

  // ---------------------------------------------------------------------------
  // deleteSemaine

  /** The ids of the lines a week owns. */
  function LigneIdsOf(db: Db, id: nat): set<nat> {
    set k | k in db.lignes && db.lignes[k].semaine == id
  }

  /**
   * `deleteSemaine`: the week must exist; its flat rows (matched by week
   * name), the references of its lines, its lines and the week itself are
   * removed, and nothing else changes.
   */
  function DeleteSemaine(db: Db, id: nat): (r: Result<Db, Error>)
    ensures r.Failure? <==> id !in db.semaines
    ensures r.Failure? ==> r.error == NotFound
    ensures r.Success? ==>
      && r.value.semaines.Keys == db.semaines.Keys - {id}
      && (forall k :: k in r.value.lignes <==> k in db.lignes && db.lignes[k].semaine != id)
      && (forall k :: k in r.value.references <==>
            k in db.references && db.references[k].semaineLigne !in LigneIdsOf(db, id))
      && (forall k :: k in r.value.planifications <==>
            k in db.planifications && db.planifications[k].semaine != db.semaines[id].nom)
    ensures r.Success? ==>
      && (forall k :: k in r.value.semaines ==> r.value.semaines[k] == db.semaines[k])
      && (forall k :: k in r.value.lignes ==> r.value.lignes[k] == db.lignes[k])
      && (forall k :: k in r.value.references ==> r.value.references[k] == db.references[k])
      && (forall k :: k in r.value.planifications ==> r.value.planifications[k] == db.planifications[k])
  {
    if id !in db.semaines then Failure(NotFound)
    else
      var nom := db.semaines[id].nom;
      var owned := LigneIdsOf(db, id);
      Success(db.(
        semaines := db.semaines - {id},
        lignes := map k | k in db.lignes && db.lignes[k].semaine != id :: db.lignes[k],
        references := map k | k in db.references && db.references[k].semaineLigne !in owned :: db.references[k],
        planifications := map k | k in db.planifications && db.planifications[k].semaine != nom
                                :: db.planifications[k]))
  }

  /** Deletion keeps every database constraint: nothing is left pointing at what was removed. */
  lemma DeleteSemaineValid(db: Db, id: nat)
    requires Valid(db)
    ensures DeleteSemaine(db, id).Success? ==> Valid(DeleteSemaine(db, id).value)
  {
    if id in db.semaines {
      var r := DeleteSemaine(db, id).value;
      assert LignesOwned(r);
      assert ReferencesOwned(r);
      forall k | k in r.planifications
        ensures r.planifications[k].semaineEntity in r.semaines
      {
        assert db.planifications[k].semaineEntity != id;
      }
    }
  }

  /** After deletion the week's name is free again: no week and no flat row carries it. */
  lemma DeleteSemaineFreesName(db: Db, id: nat)
    requires Valid(db) && id in db.semaines
    ensures var r := DeleteSemaine(db, id).value;
      && (forall k :: k in r.semaines ==> r.semaines[k].nom != db.semaines[id].nom)
      && (forall k :: k in r.planifications ==> r.planifications[k].semaine != db.semaines[id].nom)
  {
  }

  /** After inserting a fresh week's lines, the lines of that week are exactly the new ones. */
  lemma InsertedLignesOfWeek(db: Db, semaine: nat, cat: seq<Product>, ls: seq<string>)
    requires KeysBelow(db.lignes, db.nextLigne)
    requires forall k :: k in db.lignes ==> db.lignes[k].semaine != semaine
    ensures var r := InsertLignes(db, semaine, cat, ls);
      && (forall k :: k in r.lignes ==> (k in db.lignes <==> r.lignes[k].semaine != semaine))
      && (forall k :: k in db.lignes ==> k in r.lignes && r.lignes[k] == db.lignes[k])
  {
    var r := InsertLignes(db, semaine, cat, ls);
    InsertLignesLineKeys(db, semaine, cat, ls);
    forall k | k in r.lignes
      ensures k in db.lignes <==> r.lignes[k].semaine != semaine
    {
      if k in db.lignes {
        InsertLignesKeepsLignes(db, semaine, cat, ls, k);
      } else {
        InsertLignesLineAt(db, semaine, cat, ls, k - db.nextLigne);
      }
    }
    forall k | k in db.lignes
      ensures k in r.lignes && r.lignes[k] == db.lignes[k]
    {
      InsertLignesKeepsLignes(db, semaine, cat, ls, k);
    }
  }

  /** ... and the references under those lines are exactly the new references. */
  lemma InsertedReferencesOfWeek(db: Db, semaine: nat, cat: seq<Product>, ls: seq<string>)
    requires KeysBelow(db.lignes, db.nextLigne) && KeysBelow(db.references, db.nextReference)
    requires ReferencesOwned(db)
    requires forall k :: k in db.lignes ==> db.lignes[k].semaine != semaine
    ensures var r := InsertLignes(db, semaine, cat, ls);
      && (forall k :: k in r.references ==>
            (k in db.references <==> r.references[k].semaineLigne !in LigneIdsOf(r, semaine)))
      && (forall k :: k in db.references ==> k in r.references && r.references[k] == db.references[k])
  {
    var r := InsertLignes(db, semaine, cat, ls);
    InsertLignesReferenceKeys(db, semaine, cat, ls);
    forall k | k in r.references
      ensures k in db.references <==> r.references[k].semaineLigne !in LigneIdsOf(r, semaine)
    {
      if k in db.references {
        InsertLignesKeepsReferences(db, semaine, cat, ls, k);
        InsertLignesKeepsLignes(db, semaine, cat, ls, db.references[k].semaineLigne);
      } else {
        InsertLignesNewReference(db, semaine, cat, ls, k);
        InsertLignesLineAt(db, semaine, cat, ls, r.references[k].semaineLigne - db.nextLigne);
      }
    }
    forall k | k in db.references
      ensures k in r.references && r.references[k] == db.references[k]
    {
      InsertLignesKeepsReferences(db, semaine, cat, ls, k);
    }
  }

  /**
   * Deleting a week from a store that is `base` plus that week and rows that
   * all belong to it gives back `base`'s tables.
   */
  lemma DeleteRestores(mid: Db, id: nat, base: Db)
    requires id in mid.semaines && id !in base.semaines
    requires mid.semaines == base.semaines[id := mid.semaines[id]]
    requires forall k :: k in mid.lignes ==> (k in base.lignes <==> mid.lignes[k].semaine != id)
    requires forall k :: k in base.lignes ==> k in mid.lignes && mid.lignes[k] == base.lignes[k]
    requires forall k :: k in mid.references ==>
      (k in base.references <==> mid.references[k].semaineLigne !in LigneIdsOf(mid, id))
    requires forall k :: k in base.references ==> k in mid.references && mid.references[k] == base.references[k]
    requires mid.planifications == base.planifications
    requires forall k :: k in base.planifications ==> base.planifications[k].semaine != mid.semaines[id].nom
    ensures var r := DeleteSemaine(mid, id);
      && r.Success?
      && r.value.semaines == base.semaines && r.value.lignes == base.lignes
      && r.value.references == base.references && r.value.planifications == base.planifications
  {
    var r := DeleteSemaine(mid, id).value;
    assert r.semaines == base.semaines;
    assert r.lignes == base.lignes;
    assert r.references == base.references;
    assert r.planifications == base.planifications;
  }

  /** `r` succeeded with the four tables of `db`. */
  predicate Restores(r: Result<Db, Error>, db: Db) {
    && r.Success?
    && r.value.semaines == db.semaines && r.value.lignes == db.lignes
    && r.value.references == db.references && r.value.planifications == db.planifications
  }

  /** Deleting a week that was just saved with its lines gives back the tables it was added to. */
  lemma NewWeekDeleteRestores(db: Db, w: Semaine, cat: seq<Product>)
    requires Valid(db)
    requires FindSemaine(db, w.nom, 0).None?
    ensures Restores(DeleteSemaine(
        InsertLignes(AddSemaine(db, w),
                     db.nextSemaine, cat, DistinctLines(cat)),
        db.nextSemaine), db)
  {
    NoLineOfNextWeek(db);
    NoRowNamed(db, w.nom);
    InsertThenDelete(db, w, cat, DistinctLines(cat));
  }

  /** Saving week `w` under a fresh id, then lines `ls` for it, then deleting it, gives back `base`'s tables. */
  lemma InsertThenDelete(base: Db, w: Semaine, cat: seq<Product>, ls: seq<string>)
    requires base.nextSemaine !in base.semaines
    requires KeysBelow(base.lignes, base.nextLigne) && KeysBelow(base.references, base.nextReference)
    requires ReferencesOwned(base)
    requires forall k :: k in base.lignes ==> base.lignes[k].semaine != base.nextSemaine
    requires forall k :: k in base.planifications ==> base.planifications[k].semaine != w.nom
    ensures Restores(DeleteSemaine(InsertLignes(AddSemaine(base, w), base.nextSemaine, cat, ls), base.nextSemaine), base)
  {
    var id := base.nextSemaine;
    var db0 := AddSemaine(base, w);
    var db1 := InsertLignes(db0, id, cat, ls);
    assert ReferencesOwned(db0);
    InsertedLignesOfWeek(db0, id, cat, ls);
    InsertedReferencesOfWeek(db0, id, cat, ls);
    DeleteRestores(db1, id, base);
  }

  /** Creating a week and deleting it again restores every table (only the counters move on). */
  lemma CreateThenDelete(db: Db, nom: string, dateDebut: string, dateFin: string, creePar: nat, cat: seq<Product>)
    requires Valid(db)
    requires CreateSemaine(db, nom, dateDebut, dateFin, creePar, cat).Success?
    ensures var c := CreateSemaine(db, nom, dateDebut, dateFin, creePar, cat).value;
      var r := DeleteSemaine(c.0, c.1.id);
      && r.Success?
      && r.value.semaines == db.semaines && r.value.lignes == db.lignes
      && r.value.references == db.references && r.value.planifications == db.planifications
  {
    FindSemaineComplete(db, nom);
    NewWeekDeleteRestores(db, Semaine(nom, dateDebut, dateFin, creePar), cat);
    CreateSemaineStore(db, nom, dateDebut, dateFin, creePar, cat);
  }

  /** A deleted week's name can be used again at once. */
  lemma DeleteThenRecreate(db: Db, id: nat, dateDebut: string, dateFin: string, creePar: nat, cat: seq<Product>)
    requires Valid(db) && id in db.semaines
    ensures Valid(DeleteSemaine(db, id).value)
    ensures CreateSemaine(DeleteSemaine(db, id).value, db.semaines[id].nom, dateDebut, dateFin, creePar, cat).Success?
  {
    DeleteSemaineValid(db, id);
    DeleteSemaineFreesName(db, id);
  }
}
