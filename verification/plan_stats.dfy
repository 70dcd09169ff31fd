/**
 * `getPlanificationStats`: the totals over a week's flat planning rows, and
 * the same totals grouped by day and by line. The object used as a
 * dictionary is modelled as a sequence of buckets in order of first
 * appearance, looked up by key.
 */
module PlanStats {
  import opened Wrappers
  import opened Days
  import opened Store
  import opened Catalogue

  /** `{ count, qtePlanifiee, decProduction, decMagasin }`. */
  datatype Totals = Totals(count: nat, qtePlanifiee: int, decProduction: int, decMagasin: int)

  const ZeroTotals := Totals(0, 0, 0, 0)

  function Plus(a: Totals, b: Totals): Totals {
    Totals(a.count + b.count, a.qtePlanifiee + b.qtePlanifiee,
           a.decProduction + b.decProduction, a.decMagasin + b.decMagasin)
  }

  /** What one row contributes. */
  function RowTotals(p: Planification): Totals {
    Totals(1, p.qtePlanifiee, p.decProduction, p.decMagasin)
  }

  /** The totals of a sequence of rows, accumulated from the first row to the last. */
  function SumRows(ps: seq<Planification>): Totals
    decreases |ps|
  {
    if ps == [] then ZeroTotals
    else Plus(SumRows(ps[..|ps| - 1]), RowTotals(ps[|ps| - 1]))
  }

  /** The count of the totals is the number of rows. */
  lemma {:induction false} SumRowsCount(ps: seq<Planification>)
    decreases |ps|
    ensures SumRows(ps).count == |ps|
  {
    if ps != [] {
      SumRowsCount(ps[..|ps| - 1]);
    }
  }

  /** `parJour` or `parLigne`. */
  datatype Grouping = ByJour | ByLigne

  function KeyFor(g: Grouping, p: Planification): string {
    match g
    case ByJour => p.jour
    case ByLigne => p.ligne
  }

  /** One entry of `parJour` / `parLigne`. */
  datatype Bucket = Bucket(key: string, totals: Totals)

  function Keys(bs: seq<Bucket>): (r: seq<string>)
    ensures |r| == |bs| && forall i :: 0 <= i < |bs| ==> r[i] == bs[i].key
  {
    if bs == [] then [] else [bs[0].key] + Keys(bs[1..])
  }

  /** The totals filed under `key`, or zero when there is no such entry. */
  function Lookup(bs: seq<Bucket>, key: string): Totals {
    if bs == [] then ZeroTotals
    else if bs[0].key == key then bs[0].totals
    else Lookup(bs[1..], key)
  }

  /** The sum of all entries. */
  function SumBuckets(bs: seq<Bucket>): Totals {
    if bs == [] then ZeroTotals else Plus(bs[0].totals, SumBuckets(bs[1..]))
  }

  /**
   * `if (!stats.parJour[k]) stats.parJour[k] = zero; stats.parJour[k] += row`:
   * the entry is created at the end the first time its key is seen.
   */
  function Bump(bs: seq<Bucket>, key: string, p: Planification): seq<Bucket> {
    if bs == [] then [Bucket(key, RowTotals(p))]
    else if bs[0].key == key then [Bucket(key, Plus(bs[0].totals, RowTotals(p)))] + bs[1..]
    else [bs[0]] + Bump(bs[1..], key, p)
  }

  lemma {:induction false} BumpKeys(bs: seq<Bucket>, key: string, p: Planification)
    ensures Keys(Bump(bs, key, p)) == if key in Keys(bs) then Keys(bs) else Keys(bs) + [key]
  {
    if bs != [] && bs[0].key != key {
      BumpKeys(bs[1..], key, p);
      assert Keys(bs) == [bs[0].key] + Keys(bs[1..]);
    }
  }

  lemma {:induction false} BumpLookup(bs: seq<Bucket>, key: string, p: Planification, k: string)
    ensures Lookup(Bump(bs, key, p), k) == if k == key then Plus(Lookup(bs, k), RowTotals(p)) else Lookup(bs, k)
  {
    if bs != [] && bs[0].key != key {
      BumpLookup(bs[1..], key, p, k);
    }
  }

  lemma {:induction false} BumpSum(bs: seq<Bucket>, key: string, p: Planification)
    ensures SumBuckets(Bump(bs, key, p)) == Plus(SumBuckets(bs), RowTotals(p))
  {
    if bs != [] && bs[0].key != key {
      BumpSum(bs[1..], key, p);
    }
  }

  /** The rows filed under `key`. */
  function Filter(ps: seq<Planification>, g: Grouping, key: string): (r: seq<Planification>)
    decreases |ps|
    ensures forall i :: 0 <= i < |r| ==> r[i] in ps && KeyFor(g, r[i]) == key
  {
    if ps == [] then []
    else
      var p := ps[|ps| - 1];
      Filter(ps[..|ps| - 1], g, key) + (if KeyFor(g, p) == key then [p] else [])
  }

  /** The `forEach` over the rows, for one of the two groupings. */
  function Group(ps: seq<Planification>, g: Grouping): seq<Bucket>
    decreases |ps|
  {
    if ps == [] then []
    else
      var p := ps[|ps| - 1];
      Bump(Group(ps[..|ps| - 1], g), KeyFor(g, p), p)
  }

  /** Each entry holds exactly the totals of the rows with its key. */
  lemma {:induction false} GroupLookup(ps: seq<Planification>, g: Grouping, k: string)
    decreases |ps|
    ensures Lookup(Group(ps, g), k) == SumRows(Filter(ps, g, k))
  {
    if ps != [] {
      var q := ps[..|ps| - 1];
      var p := ps[|ps| - 1];
      GroupLookup(q, g, k);
      BumpLookup(Group(q, g), KeyFor(g, p), p, k);
      var f := Filter(q, g, k);
      assert ps[..|ps| - 1] == q;
      if KeyFor(g, p) == k {
        assert Filter(ps, g, k) == f + [p];
        assert (f + [p])[..|f|] == f;
      } else {
        assert Filter(ps, g, k) == f + [] == f;
      }
    }
  }

  /** Appending an element that is not there yet keeps a list duplicate-free. */
  lemma NoDupSnoc(s: seq<string>, x: string)
    requires NoDup(s) && x !in s
    ensures NoDup(s + [x])
  {
    forall i, j | 0 <= i < j < |s + [x]|
      ensures (s + [x])[i] != (s + [x])[j]
    {
      if j == |s| {
        assert (s + [x])[i] == s[i];
      } else {
        assert (s + [x])[i] == s[i] && (s + [x])[j] == s[j];
      }
    }
  }

  /** The keys appear in the order they are first met, each once. */
  lemma {:induction false} GroupKeysNoDup(ps: seq<Planification>, g: Grouping)
    decreases |ps|
    ensures NoDup(Keys(Group(ps, g)))
  {
    if ps != [] {
      var q := ps[..|ps| - 1];
      var p := ps[|ps| - 1];
      var before := Keys(Group(q, g));
      GroupKeysNoDup(q, g);
      BumpKeys(Group(q, g), KeyFor(g, p), p);
      if KeyFor(g, p) !in before {
        NoDupSnoc(before, KeyFor(g, p));
      }
    }
  }

  /** After a bump, the keys are the old keys and the bumped one. */
  lemma {:induction false} BumpKeyMember(bs: seq<Bucket>, key: string, p: Planification, k: string)
    ensures k in Keys(Bump(bs, key, p)) <==> k in Keys(bs) || k == key
  {
    BumpKeys(bs, key, p);
    var ks := Keys(bs);
    if key !in ks {
      assert k in ks + [key] <==> k in ks || k == key;
    }
  }

  /** Some row carries `k`. */
  predicate RowHasKey(ps: seq<Planification>, g: Grouping, k: string) {
    exists i :: 0 <= i < |ps| && KeyFor(g, ps[i]) == k
  }

  /** A key has an entry exactly when some row carries it. */
  lemma {:induction false} GroupKeyMember(ps: seq<Planification>, g: Grouping, k: string)
    decreases |ps|
    ensures k in Keys(Group(ps, g)) <==> RowHasKey(ps, g, k)
  {
    if ps != [] {
      var q := ps[..|ps| - 1];
      var p := ps[|ps| - 1];
      GroupKeyMember(q, g, k);
      BumpKeyMember(Group(q, g), KeyFor(g, p), p, k);
      assert Group(ps, g) == Bump(Group(q, g), KeyFor(g, p), p);
      if RowHasKey(q, g, k) {
        var i :| 0 <= i < |q| && KeyFor(g, q[i]) == k;
        assert ps[i] == q[i];
      }
      if RowHasKey(ps, g, k) && KeyFor(g, p) != k {
        var i :| 0 <= i < |ps| && KeyFor(g, ps[i]) == k;
        assert i < |q| && q[i] == ps[i];
      }
      if KeyFor(g, p) == k {
        assert KeyFor(g, ps[|ps| - 1]) == k;
      }
    }
  }

  /** The keys are the keys of the rows, each once, in order of first appearance. */
  lemma GroupKeys(ps: seq<Planification>, g: Grouping)
    ensures NoDup(Keys(Group(ps, g)))
    ensures forall k :: k in Keys(Group(ps, g)) <==> exists i :: 0 <= i < |ps| && KeyFor(g, ps[i]) == k
  {
    GroupKeysNoDup(ps, g);
    forall k ensures k in Keys(Group(ps, g)) <==> exists i :: 0 <= i < |ps| && KeyFor(g, ps[i]) == k {
      GroupKeyMember(ps, g, k);
      assert RowHasKey(ps, g, k) <==> exists i :: 0 <= i < |ps| && KeyFor(g, ps[i]) == k;
    }
  }

  /** Grouping neither loses nor invents anything: the entries add up to the overall totals. */
  lemma {:induction false} GroupConserves(ps: seq<Planification>, g: Grouping)
    decreases |ps|
    ensures SumBuckets(Group(ps, g)) == SumRows(ps)
  {
    if ps != [] {
      var q := ps[..|ps| - 1];
      GroupConserves(q, g);
      BumpSum(Group(q, g), KeyFor(g, ps[|ps| - 1]), ps[|ps| - 1]);
    }
  }

  /** The answer of `getPlanificationStats`. */
  datatype PlanificationStats = PlanificationStats(
    semaine: string,
    totals: Totals,
    parJour: seq<Bucket>,
    parLigne: seq<Bucket>
  )

  /** The statistics of a list of rows. */
  function StatsOf(semaine: string, ps: seq<Planification>): PlanificationStats {
    PlanificationStats(semaine, SumRows(ps), Group(ps, ByJour), Group(ps, ByLigne))
  }

  /**
   * The single `forEach` of the source: one pass that updates the totals and
   * both groupings row by row.
   */
  method ComputeStats(semaine: string, ps: seq<Planification>) returns (r: PlanificationStats)
    ensures r == StatsOf(semaine, ps)
  {
    var totals := ZeroTotals;
    var parJour: seq<Bucket> := [];
    var parLigne: seq<Bucket> := [];
    var i := 0;
    while i < |ps|
      invariant 0 <= i <= |ps|
      invariant totals == SumRows(ps[..i])
      invariant parJour == Group(ps[..i], ByJour)
      invariant parLigne == Group(ps[..i], ByLigne)
    {
      var p := ps[i];
      assert ps[..i + 1][..i] == ps[..i];
      totals := Plus(totals, RowTotals(p));
      parJour := Bump(parJour, p.jour, p);
      parLigne := Bump(parLigne, p.ligne, p);
      i := i + 1;
    }
    assert ps[..|ps|] == ps;
    r := PlanificationStats(semaine, totals, parJour, parLigne);
  }

  /**
   * `getPlanificationStats(semaineNom)`: the rows whose week column is the
   * name, in id order; an unknown name is not an error and gives empty
   * statistics.
   */
  method GetPlanificationStats(db: Db, semaineNom: string) returns (r: PlanificationStats)
    ensures r == StatsOf(semaineNom, PlanificationsOf(db, semaineNom, 0))
    ensures r.semaine == semaineNom
    ensures r.totals.count == |PlanificationsOf(db, semaineNom, 0)|
    ensures r.totals == SumBuckets(r.parJour) && r.totals == SumBuckets(r.parLigne)
    ensures forall k :: Lookup(r.parJour, k) == SumRows(Filter(PlanificationsOf(db, semaineNom, 0), ByJour, k))
    ensures forall k :: Lookup(r.parLigne, k) == SumRows(Filter(PlanificationsOf(db, semaineNom, 0), ByLigne, k))
    ensures NoDup(Keys(r.parJour)) && NoDup(Keys(r.parLigne))
  {
    var ps := PlanificationsOf(db, semaineNom, 0);
    r := ComputeStats(semaineNom, ps);
    SumRowsCount(ps);
    GroupConserves(ps, ByJour);
    GroupConserves(ps, ByLigne);
    GroupKeys(ps, ByJour);
    GroupKeys(ps, ByLigne);
    forall k ensures Lookup(r.parJour, k) == SumRows(Filter(ps, ByJour, k)) {
      GroupLookup(ps, ByJour, k);
    }
    forall k ensures Lookup(r.parLigne, k) == SumRows(Filter(ps, ByLigne, k)) {
      GroupLookup(ps, ByLigne, k);
    }
  }

  /** In a valid store every `parJour` key is a working day. */
  lemma DayKeysAreWorkingDays(db: Db, semaineNom: string)
    requires Valid(db)
    ensures forall k :: k in Keys(Group(PlanificationsOf(db, semaineNom, 0), ByJour)) ==> k in JoursValides
  {
    var ps := PlanificationsOf(db, semaineNom, 0);
    GroupKeys(ps, ByJour);
    forall k | k in Keys(Group(ps, ByJour))
      ensures k in JoursValides
    {
      var i :| 0 <= i < |ps| && KeyFor(ByJour, ps[i]) == k;
      var id :| id in db.planifications && db.planifications[id] == ps[i];
    }
  }

  /** In a valid store, a name no week carries has no flat rows. */
  lemma {:induction false} NoRowsOfUnknownWeek(db: Db, semaineNom: string, from: nat)
    requires Valid(db)
    requires forall k :: k in db.semaines ==> db.semaines[k].nom != semaineNom
    decreases db.nextPlanification - from
    ensures PlanificationsOf(db, semaineNom, from) == []
  {
    if from < db.nextPlanification {
      if from in db.planifications {
        assert db.semaines[db.planifications[from].semaineEntity].nom == db.planifications[from].semaine;
      }
      NoRowsOfUnknownWeek(db, semaineNom, from + 1);
    }
  }

  /** A name no week carries gives all-zero statistics with no entries. */
  lemma UnknownWeekIsEmpty(db: Db, semaineNom: string)
    requires Valid(db)
    requires forall k :: k in db.semaines ==> db.semaines[k].nom != semaineNom
    ensures StatsOf(semaineNom, PlanificationsOf(db, semaineNom, 0)) == PlanificationStats(semaineNom, ZeroTotals, [], [])
  {
    NoRowsOfUnknownWeek(db, semaineNom, 0);
  }
}
