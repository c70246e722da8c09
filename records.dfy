/** The `emissions_data` row as the Dashboard and Reports pages read it, and
    the aggregates both pages compute over a list of rows. */
module Records {
  import opened Wrappers
  import opened Sequences

  /** `null` columns are `None`. The Dashboard page declares the same row
      without `industry_type`; it never reads that column. */
  datatype EmissionRecord = EmissionRecord(
    companyName: string,
    industryType: Option<string>,
    energyConsumption: real,
    fuelUsage: real,
    predictedCo2: Option<real>,
    actualCo2: Option<real>,
    recordDate: string,
    dataSource: string)

  /** `x || 0` for a nullable number: `null` and `0` both give `0`. */
  function OrZero(x: Option<real>): real
  {
    x.GetOr(0.0)
  }

  /** `rs.reduce((sum, e) => sum + amount(e), 0)`, folding from the left. */
  function Total(rs: seq<EmissionRecord>, amount: EmissionRecord -> real): real
  {
    if rs == [] then 0.0 else Total(rs[..|rs| - 1], amount) + amount(rs[|rs| - 1])
  }

  function Co2Amount(e: EmissionRecord): real { OrZero(e.predictedCo2) }
  function EnergyAmount(e: EmissionRecord): real { e.energyConsumption }
  function FuelAmount(e: EmissionRecord): real { e.fuelUsage }

  /** The total predicted CO2, a record without a prediction counting 0. */
  function TotalCo2(rs: seq<EmissionRecord>): (r: real)
    ensures rs == [] ==> r == 0.0
    ensures NonNegativePredictions(rs) ==> r >= 0.0
  {
    Co2AmountsNonNegative(rs);
    Total(rs, Co2Amount)
  }

  /** The total energy consumption. */
  function TotalEnergy(rs: seq<EmissionRecord>): (r: real)
    ensures rs == [] ==> r == 0.0
    ensures (forall e :: e in rs ==> e.energyConsumption >= 0.0) ==> r >= 0.0
  {
    TotalNonNegativeWhen(rs, EnergyAmount);
    Total(rs, EnergyAmount)
  }

  /** The total fuel usage. */
  function TotalFuel(rs: seq<EmissionRecord>): (r: real)
    ensures rs == [] ==> r == 0.0
    ensures (forall e :: e in rs ==> e.fuelUsage >= 0.0) ==> r >= 0.0
  {
    TotalNonNegativeWhen(rs, FuelAmount);
    Total(rs, FuelAmount)
  }

  /** A total splits over a concatenation: the order of summation does not matter. */
  lemma {:induction false} TotalAppend(a: seq<EmissionRecord>, b: seq<EmissionRecord>, amount: EmissionRecord -> real)
    ensures Total(a + b, amount) == Total(a, amount) + Total(b, amount)
    decreases |b|
  {
    if b != [] {
      assert (a + b)[..|a + b| - 1] == a + b[..|b| - 1];
      TotalAppend(a, b[..|b| - 1], amount);
    } else {
      assert a + b == a;
    }
  }

  lemma TotalCons(e: EmissionRecord, rs: seq<EmissionRecord>, amount: EmissionRecord -> real)
    ensures Total([e] + rs, amount) == amount(e) + Total(rs, amount)
  {
    TotalAppend([e], rs, amount);
    assert [e][..0] == [];
  }

  lemma {:induction false} TotalNonNegative(rs: seq<EmissionRecord>, amount: EmissionRecord -> real)
    requires forall e :: e in rs ==> amount(e) >= 0.0
    ensures Total(rs, amount) >= 0.0
  {
    if rs != [] {
      assert rs[|rs| - 1] in rs;
      TotalNonNegative(rs[..|rs| - 1], amount);
    }
  }

  lemma TotalNonNegativeWhen(rs: seq<EmissionRecord>, amount: EmissionRecord -> real)
    ensures (forall e :: e in rs ==> amount(e) >= 0.0) ==> Total(rs, amount) >= 0.0
  {
    if forall e :: e in rs ==> amount(e) >= 0.0 {
      TotalNonNegative(rs, amount);
    }
  }

  /** Leaving records out of a list of non-negative amounts never raises its total. */
  lemma {:induction false} TotalOfSubsequence(sub: seq<EmissionRecord>, rs: seq<EmissionRecord>, amount: EmissionRecord -> real)
    requires IsSubsequence(sub, rs)
    requires forall e :: e in rs ==> amount(e) >= 0.0
    ensures Total(sub, amount) <= Total(rs, amount)
    decreases |rs|
  {
    if rs == [] {
      assert sub == [];
    } else {
      assert rs == [rs[0]] + rs[1..];
      TotalCons(rs[0], rs[1..], amount);
      assert rs[0] in rs;
      if IsSubsequence(sub, rs[1..]) {
        TotalOfSubsequence(sub, rs[1..], amount);
      } else {
        assert sub == [sub[0]] + sub[1..];
        TotalCons(sub[0], sub[1..], amount);
        TotalOfSubsequence(sub[1..], rs[1..], amount);
      }
    }
  }

  /** Every prediction present is non-negative. */
  predicate NonNegativePredictions(rs: seq<EmissionRecord>)
  {
    forall e :: e in rs ==> e.predictedCo2.Some? ==> e.predictedCo2.value >= 0.0
  }

  lemma Co2AmountsNonNegative(rs: seq<EmissionRecord>)
    ensures NonNegativePredictions(rs) ==> Total(rs, Co2Amount) >= 0.0
  {
    TotalNonNegativeWhen(rs, Co2Amount);
  }

  /** The records that carry a prediction. */
  function WithPrediction(rs: seq<EmissionRecord>): (r: seq<EmissionRecord>)
    ensures forall e :: e in r <==> e in rs && e.predictedCo2.Some?
  {
    if rs == [] then []
    else WithPrediction(rs[..|rs| - 1]) + (if rs[|rs| - 1].predictedCo2.Some? then [rs[|rs| - 1]] else [])
  }

  /** Counting `null` as 0 is the same as leaving unpredicted records out. */
  lemma {:induction false} TotalCo2IgnoresUnpredicted(rs: seq<EmissionRecord>)
    ensures TotalCo2(rs) == TotalCo2(WithPrediction(rs))
  {
    if rs != [] {
      var init, last := rs[..|rs| - 1], rs[|rs| - 1];
      TotalCo2IgnoresUnpredicted(init);
      TotalAppend(WithPrediction(init), if last.predictedCo2.Some? then [last] else [], Co2Amount);
      assert Total([last], Co2Amount) == Co2Amount(last) by { assert [last][..0] == []; }
    }
  }

  /** `new Set(rs.map(e => e.company_name))`. */
  function CompanyNames(rs: seq<EmissionRecord>): (names: set<string>)
    ensures forall name :: name in names <==> exists k :: 0 <= k < |rs| && rs[k].companyName == name
  {
    if rs == [] then {}
    else
      var init := rs[..|rs| - 1];
      var names := CompanyNames(init) + {rs[|rs| - 1].companyName};
      assert forall k :: 0 <= k < |init| ==> init[k] == rs[k];
      names
  }

  lemma {:induction false} CompanyNamesBound(rs: seq<EmissionRecord>)
    ensures |CompanyNames(rs)| <= |rs|
    ensures rs != [] ==> |CompanyNames(rs)| >= 1
  {
    if rs != [] {
      CompanyNamesBound(rs[..|rs| - 1]);
    }
  }

  /** `new Set(rs.map(e => e.company_name)).size`: never more than the records,
      and at least one when there is a record. */
  function DistinctCompanies(rs: seq<EmissionRecord>): (n: nat)
    ensures n <= |rs|
    ensures rs != [] ==> n >= 1
  {
    CompanyNamesBound(rs);
    |CompanyNames(rs)|
  }
}
