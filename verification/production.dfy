/**
 * The per-day production record stored in each day slot of a reference, and
 * its derivation rule: the inputs are defaulted and the three derived fields
 * (`deltaProd`, `pcsProd`, `deltaProdMag`) are recomputed on every write.
 */
module Production {
  import opened Wrappers
  import opened JsMath

  /** A complete record, as the derivation returns it and as a slot stores it. */
  datatype ProductionData = ProductionData(
    of: string,               // work order
    qtePlanifiee: int,        // planned quantity
    emballage: string,        // packaging
    nbOperateurs: int,        // operator count
    nbHeuresRealisees: real,  // realised hours
    decProduction: int,       // quantity declared by production
    deltaProd: int,           // derived
    pcsProd: real,            // derived, a percentage
    decMagasin: int,          // quantity declared by the warehouse
    deltaProdMag: int         // derived
  )

  /**
   * A JSON object carrying any subset of the record's properties: a stored
   * slot, an update body, or the merge of the two. `None` is an absent property.
   */
  datatype ProductionInput = ProductionInput(
    of: Option<string>,
    qtePlanifiee: Option<int>,
    emballage: Option<string>,
    nbOperateurs: Option<int>,
    nbHeuresRealisees: Option<real>,
    decProduction: Option<int>,
    deltaProd: Option<int>,
    pcsProd: Option<real>,
    decMagasin: Option<int>,
    deltaProdMag: Option<int>
  )

  /** The empty object `{}`. */
  const NoInput := ProductionInput(None, None, None, None, None, None, None, None, None, None)

  /** The record a new week puts in every slot, and what `null` derives to. */
  const ZeroRecord := ProductionData("", 0, "", 0, 0.0, 0, 0, 0.0, 0, 0)

  /** JavaScript `v || d` on a number: absent and 0 are falsy. */
  function NumOr(v: Option<int>, d: int): int {
    if v.Some? && v.value != 0 then v.value else d
  }

  function RealOr(v: Option<real>, d: real): real {
    if v.Some? && v.value != 0.0 then v.value else d
  }

  /** JavaScript `v || d` on a string: absent and the empty string are falsy. */
  function StrOr(v: Option<string>, d: string): string {
    if v.Some? && v.value != "" then v.value else d
  }

  /** `decProduction / qtePlanifiee * 100`, rounded to two decimals, or 0 when nothing is planned. */
  function PcsProd(qtePlanifiee: int, decProduction: int): real {
    if qtePlanifiee > 0 then Round2(decProduction as real / qtePlanifiee as real * 100.0) else 0.0
  }

  /** With something planned, the percentage is the exact ratio up to rounding; otherwise it is 0. */
  lemma PcsProdBounds(qtePlanifiee: int, decProduction: int)
    ensures qtePlanifiee <= 0 ==> PcsProd(qtePlanifiee, decProduction) == 0.0
    ensures qtePlanifiee > 0 ==>
      -0.005 <= PcsProd(qtePlanifiee, decProduction) - decProduction as real / qtePlanifiee as real * 100.0 <= 0.005
  {
    if qtePlanifiee > 0 {
      Round2Error(decProduction as real / qtePlanifiee as real * 100.0);
    }
  }

  /** The derived fields agree with the inputs they are computed from. */
  predicate Derived(r: ProductionData) {
    && r.deltaProd == r.qtePlanifiee - r.decProduction
    && r.pcsProd == PcsProd(r.qtePlanifiee, r.decProduction)
    && r.deltaProdMag == r.decMagasin - r.decProduction
  }

  /** `calculateAutoFields(data)`; `None` is `null`. */
  function CalculateAutoFields(data: Option<ProductionInput>): (r: ProductionData)
    ensures r.deltaProd == r.qtePlanifiee - r.decProduction
    ensures r.deltaProdMag == r.decMagasin - r.decProduction
    ensures r.pcsProd == PcsProd(r.qtePlanifiee, r.decProduction)
    ensures r.qtePlanifiee <= 0 ==> r.pcsProd == 0.0
    ensures r.qtePlanifiee > 0 ==>
      -0.005 <= r.pcsProd - r.decProduction as real / r.qtePlanifiee as real * 100.0 <= 0.005
    ensures data.None? ==> r == ZeroRecord
    ensures data.Some? ==>
      && r.of == data.value.of.GetOr("")
      && r.qtePlanifiee == data.value.qtePlanifiee.GetOr(0)
      && r.emballage == data.value.emballage.GetOr("")
      && r.nbOperateurs == data.value.nbOperateurs.GetOr(0)
      && r.nbHeuresRealisees == data.value.nbHeuresRealisees.GetOr(0.0)
      && r.decProduction == data.value.decProduction.GetOr(0)
      && r.decMagasin == data.value.decMagasin.GetOr(0)
  {
    match data
    case None => Round2Zero(); ZeroRecord
    case Some(d) =>
      var qtePlanifiee := NumOr(d.qtePlanifiee, 0);
      var decProduction := NumOr(d.decProduction, 0);
      var decMagasin := NumOr(d.decMagasin, 0);
      PcsProdBounds(qtePlanifiee, decProduction);
      ProductionData(
        StrOr(d.of, ""),
        qtePlanifiee,
        StrOr(d.emballage, ""),
        NumOr(d.nbOperateurs, 0),
        RealOr(d.nbHeuresRealisees, 0.0),
        decProduction,
        qtePlanifiee - decProduction,
        PcsProd(qtePlanifiee, decProduction),
        decMagasin,
        decMagasin - decProduction)
  }

  /** A stored record seen as a JSON object: every property present. */
  function AsInput(d: ProductionData): ProductionInput {
    ProductionInput(Some(d.of), Some(d.qtePlanifiee), Some(d.emballage), Some(d.nbOperateurs),
                    Some(d.nbHeuresRealisees), Some(d.decProduction), Some(d.deltaProd),
                    Some(d.pcsProd), Some(d.decMagasin), Some(d.deltaProdMag))
  }

  /** `ligneReference[jour] || {}`: the current slot as the left operand of the merge. */
  function SlotInput(slot: Option<ProductionData>): ProductionInput {
    match slot
    case None => NoInput
    case Some(d) => AsInput(d)
  }

  /** One property of `{ ...current, ...update }`. */
  function Over<T>(current: Option<T>, update: Option<T>): (r: Option<T>)
    ensures update.Some? ==> r == update
    ensures update.None? ==> r == current
  {
    if update.Some? then update else current
  }

  /** `{ ...current, ...update }`: every property present in `update` wins. */
  function Merge(current: ProductionInput, update: ProductionInput): ProductionInput {
    ProductionInput(
      Over(current.of, update.of),
      Over(current.qtePlanifiee, update.qtePlanifiee),
      Over(current.emballage, update.emballage),
      Over(current.nbOperateurs, update.nbOperateurs),
      Over(current.nbHeuresRealisees, update.nbHeuresRealisees),
      Over(current.decProduction, update.decProduction),
      Over(current.deltaProd, update.deltaProd),
      Over(current.pcsProd, update.pcsProd),
      Over(current.decMagasin, update.decMagasin),
      Over(current.deltaProdMag, update.deltaProdMag))
  }

  /**
   * The record an update writes into a slot: the input fields the update
   * carries win, the others keep the slot's value (or the default when the
   * slot is empty), and the derived fields are consistent.
   */
  lemma MergedSlot(slot: Option<ProductionData>, update: ProductionInput)
    ensures var r := CalculateAutoFields(Some(Merge(SlotInput(slot), update)));
      && Derived(r)
      && r.of == (if update.of.Some? then update.of.value else if slot.Some? then slot.value.of else "")
      && r.qtePlanifiee == (if update.qtePlanifiee.Some? then update.qtePlanifiee.value
                            else if slot.Some? then slot.value.qtePlanifiee else 0)
      && r.emballage == (if update.emballage.Some? then update.emballage.value
                         else if slot.Some? then slot.value.emballage else "")
      && r.nbOperateurs == (if update.nbOperateurs.Some? then update.nbOperateurs.value
                            else if slot.Some? then slot.value.nbOperateurs else 0)
      && r.nbHeuresRealisees == (if update.nbHeuresRealisees.Some? then update.nbHeuresRealisees.value
                                 else if slot.Some? then slot.value.nbHeuresRealisees else 0.0)
      && r.decProduction == (if update.decProduction.Some? then update.decProduction.value
                             else if slot.Some? then slot.value.decProduction else 0)
      && r.decMagasin == (if update.decMagasin.Some? then update.decMagasin.value
                          else if slot.Some? then slot.value.decMagasin else 0)
  {
  }

  /** `null` and `{}` both derive to the all-zero record, which is itself consistent. */
  lemma NullIsZero()
    ensures CalculateAutoFields(None) == ZeroRecord
    ensures CalculateAutoFields(Some(NoInput)) == ZeroRecord
    ensures Derived(ZeroRecord)
  {
    Round2Zero();
    var r := CalculateAutoFields(Some(NoInput));
    assert r.qtePlanifiee == 0 && r.decProduction == 0 && r.decMagasin == 0;
    assert r.pcsProd == 0.0;
  }

  /** A complete record is left unchanged by the derivation exactly when its derived fields are consistent. */
  lemma FixedPointIffDerived(r: ProductionData)
    ensures CalculateAutoFields(Some(AsInput(r))) == r <==> Derived(r)
  {
  }

  /** Deriving the derivation's own output changes nothing. */
  lemma CalculateAutoFieldsIdempotent(data: Option<ProductionInput>)
    ensures var r := CalculateAutoFields(data);
      CalculateAutoFields(Some(AsInput(r))) == r
  {
    FixedPointIffDerived(CalculateAutoFields(data));
  }

  /** Derived fields are never taken as input: inputs that differ only there derive the same record. */
  lemma DerivedFieldsIgnored(a: ProductionInput, b: ProductionInput)
    requires a.(deltaProd := None, pcsProd := None, deltaProdMag := None)
          == b.(deltaProd := None, pcsProd := None, deltaProdMag := None)
    ensures CalculateAutoFields(Some(a)) == CalculateAutoFields(Some(b))
  {
  }

  /** Re-applying an update to the record it produced reproduces that record. */
  lemma ReapplyUpdate(slot: Option<ProductionData>, update: ProductionInput)
    ensures var r := CalculateAutoFields(Some(Merge(SlotInput(slot), update)));
      CalculateAutoFields(Some(Merge(SlotInput(Some(r)), update))) == r
  {
    MergedSlot(slot, update);
    var r := CalculateAutoFields(Some(Merge(SlotInput(slot), update)));
    MergedSlot(Some(r), update);
  }

  /** Merging the same update twice is merging it once. */
  lemma MergeIdempotent(current: ProductionInput, update: ProductionInput)
    ensures Merge(Merge(current, update), update) == Merge(current, update)
  {
  }

  /**
   * Planned 200 and declared production 150 on an empty slot: delta 50,
   * 75 percent, and a warehouse delta of -150 because the warehouse defaults to 0.
   */
  lemma ExamplePlanned200Produced150()
    ensures var r := CalculateAutoFields(Some(Merge(SlotInput(None),
                       NoInput.(qtePlanifiee := Some(200), decProduction := Some(150)))));
      r.deltaProd == 50 && r.pcsProd == 75.0 && r.deltaProdMag == -150
  {
    assert JsRound(7500.0) == 7500;
  }
}
