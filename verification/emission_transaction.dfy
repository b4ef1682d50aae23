/** An immutable record of one logged activity. The timestamp is the text the
    clock produced when the record was made; here it is supplied by the caller. */
module EmissionTransactions {
  import opened Results
  import opened Categories

  const EmptyCategoryMessage := "Category cannot be empty"
  const NegativeQuantityMessage := "Quantity cannot be negative: "
  const NegativeEmissionMessage := "Emission cannot be negative: "

  datatype EmissionTransaction = EmissionTransaction(
    category: Category,
    quantity: real,
    emission: real,
    time: string)

  /** What construction guarantees of every record. */
  predicate WellFormed(t: EmissionTransaction) {
    t.quantity >= 0.0 && t.emission >= 0.0
  }

  /** Builds a record, rejecting a missing category, then a negative quantity,
      then a negative emission; a record that is built stores its inputs as given. */
  function NewTransaction(category: Option<Category>, quantity: real, emission: real, time: string)
    : (r: Result<EmissionTransaction>)
    ensures r.Ok? <==> category.Some? && quantity >= 0.0 && emission >= 0.0
    ensures category.None? ==> r == Err(InvalidArgument(EmptyCategoryMessage))
    ensures category.Some? && quantity < 0.0 ==> r == Err(InvalidArgument(NegativeQuantityMessage))
    ensures category.Some? && quantity >= 0.0 && emission < 0.0 ==> r == Err(InvalidArgument(NegativeEmissionMessage))
    ensures r.Ok? ==> r.value == EmissionTransaction(category.value, quantity, emission, time) && WellFormed(r.value)
  {
    if category.None? then Err(InvalidArgument(EmptyCategoryMessage))
    else if quantity < 0.0 then Err(InvalidArgument(NegativeQuantityMessage))
    else if emission < 0.0 then Err(InvalidArgument(NegativeEmissionMessage))
    else Ok(EmissionTransaction(category.value, quantity, emission, time))
  }

  /** The unit of the record's quantity: its category's unit. */
  function TransactionUnit(t: EmissionTransaction): string {
    Unit(t.category)
  }

  /** Records that are equal are measured in the same unit. */
  lemma EqualRecordsShareUnit(t: EmissionTransaction, u: EmissionTransaction)
    requires Equals(t, Some(u))
    ensures TransactionUnit(t) == TransactionUnit(u)
  {
  }

  /** The share, in percent, that this record's emission has of `total`; zero
      when the total is zero. */
  function Percentage(t: EmissionTransaction, total: real): (p: real)
    ensures total == 0.0 ==> p == 0.0
    ensures total != 0.0 ==> p * total == t.emission * 100.0
  {
    if total == 0.0 then 0.0 else (t.emission / total) * 100.0
  }

  /** A record's share of a total that includes it lies between 0 and 100 percent. */
  lemma PercentageBounded(t: EmissionTransaction, total: real)
    requires WellFormed(t) && t.emission <= total
    ensures 0.0 <= Percentage(t, total) <= 100.0
  {
    if total != 0.0 {
      var p := Percentage(t, total);
      assert p * total == t.emission * 100.0;
      assert p * total <= total * 100.0;
    }
  }

  /** Whether the record's emission is above `threshold`; a well-formed record
      exceeds every negative threshold. */
  function ExceedsThreshold(t: EmissionTransaction, threshold: real): (exceeds: bool)
    ensures WellFormed(t) && threshold < 0.0 ==> exceeds
  {
    t.emission > threshold
  }

  /** A record that exceeds a threshold exceeds every lower one. */
  lemma ExceedsLowerThreshold(t: EmissionTransaction, lower: real, threshold: real)
    requires lower <= threshold && ExceedsThreshold(t, threshold)
    ensures ExceedsThreshold(t, lower)
  {
  }

  /** For a positive total, a record exceeds `x` percent of the total exactly
      when its percentage of that total is above `x`. */
  lemma ExceedsThresholdIffPercentageAbove(t: EmissionTransaction, total: real, x: real)
    requires total > 0.0
    ensures ExceedsThreshold(t, total * x / 100.0) <==> Percentage(t, total) > x
  {
  }

  /** Java's `equals`: the other object must be a record (not null) with the
      same category, quantity and emission; the timestamp is not compared, so
      two records are equal exactly when they differ at most in their timestamp. */
  function Equals(t: EmissionTransaction, o: Option<EmissionTransaction>): (equal: bool)
    ensures equal ==> o.Some?
    ensures o.Some? ==> (equal <==> t.(time := o.value.time) == o.value)
  {
    o.Some? && o.value.quantity == t.quantity && o.value.emission == t.emission
    && t.category == o.value.category
  }

  /** Equality of records is an equivalence. */
  lemma EqualsIsEquivalence(t: EmissionTransaction, u: EmissionTransaction, v: EmissionTransaction)
    ensures Equals(t, Some(t))
    ensures Equals(t, Some(u)) ==> Equals(u, Some(t))
    ensures Equals(t, Some(u)) && Equals(u, Some(v)) ==> Equals(t, Some(v))
  {
  }

  /** The emissions of a sequence of records, in order. */
  function Emissions(ts: seq<EmissionTransaction>): (es: seq<real>)
    ensures |es| == |ts|
    ensures forall i :: 0 <= i < |ts| ==> es[i] == ts[i].emission
  {
    if ts == [] then [] else Emissions(ts[..|ts| - 1]) + [ts[|ts| - 1].emission]
  }

  lemma EmissionsAppend(ts: seq<EmissionTransaction>, t: EmissionTransaction)
    ensures Emissions(ts + [t]) == Emissions(ts) + [t.emission]
  {
  }
}
