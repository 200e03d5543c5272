/** The per-record pipeline: the validity gate, the detail rows of the BMI report,
    the population counters and the summary row written at the end of the input. */
module BmiPipeline {
  import opened Wrappers
  import opened BmiClassifier

  /** One element of the input array. Numeric fields hold the value after the
      language's numeric coercion; `None` stands for a field that is absent or
      does not coerce to a number. */
  datatype Record = Record(id: Option<int>, gender: Option<string>, heightCm: Option<real>, weightKg: Option<real>)

  /** Truthiness of a numeric field: present and not zero. */
  predicate Truthy(f: Option<real>)
  {
    f.Some? && f.value != 0.0
  }

  /** The gate in front of the classifier, with its truthiness tests as written;
      they add nothing to the two comparisons with zero. */
  function Accepted(value: Record): (ok: bool)
    ensures ok <==>
      && value.heightCm.Some? && value.heightCm.value > 0.0
      && value.weightKg.Some? && value.weightKg.value > 0.0
  {
    Truthy(value.heightCm) && value.heightCm.value > 0.0 && Truthy(value.weightKg) && value.weightKg.value > 0.0
  }

  /** One row of the BMI report sheet. */
  datatype DetailRow = DetailRow(
    id: int,
    gender: Option<string>,
    heightCm: real,
    weightKg: real,
    bmi: int,
    bmiCategory: Category,
    healthRisk: HealthRisk)

  /** The detail row for the accepted record at array index `key`: the record's
      fields, then the computed BMI fields over them, then the 1-based position
      as `id` over any `id` the record carries. */
  function DetailRowOf(key: nat, value: Record): (row: DetailRow)
    requires Accepted(value)
    ensures row.id == key + 1
    ensures row.gender == value.gender && row.heightCm == value.heightCm.value && row.weightKg == value.weightKg.value
    ensures Classify(OneDecimal(row.bmi)) == Classification(row.bmiCategory, row.healthRisk)
    ensures row.bmi == ToFixedTenths(ExactBmi(row.heightCm, row.weightKg))
    ensures row.bmi as real - 0.5 <= 10.0 * ExactBmi(row.heightCm, row.weightKg) <= row.bmi as real + 0.5
  {
    MergedRow(key, value, GetBmiData(value.heightCm.value, value.weightKg.value))
  }

  /** `{ ...value, ...bmiData, id: key + 1 }` over the sheet's seven columns. */
  function MergedRow(key: nat, value: Record, bmiData: BmiData): DetailRow
    requires Accepted(value)
  {
    DetailRow(key + 1, value.gender, value.heightCm.value, value.weightKg.value,
              bmiData.bmi, bmiData.bmiCategory, bmiData.healthRisk)
  }

  /** The record's own `id` has no effect on its detail row. */
  lemma DetailRowIgnoresRecordId(key: nat, value: Record, otherId: Option<int>)
    requires Accepted(value)
    ensures DetailRowOf(key, value.(id := otherId)) == DetailRowOf(key, value)
  {
  }

  /** The rows a record adds to the BMI report: one if accepted, none otherwise. */
  function RowsFor(key: nat, value: Record): seq<DetailRow>
  {
    if Accepted(value) then [DetailRowOf(key, value)] else []
  }

  /** The BMI report after the given records, in input order. */
  function Details(records: seq<Record>): seq<DetailRow>
  {
    if records == [] then []
    else
      var n := |records| - 1;
      Details(records[..n]) + RowsFor(n, records[n])
  }

  /** The four counter buckets a record can fall into. */
  datatype Outcome = UnderWeightOutcome | NormalWeightOutcome | OverWeightOutcome | IncorrectEntry

  /** Overweight and the three obesity categories share one bucket. */
  const OverCategories: set<Category> := {Overweight, ModeratelyObese, SeverelyObese, VerySeverelyObese}

  /** The bucket of a category. */
  function BucketOf(c: Category): (o: Outcome)
    ensures o == UnderWeightOutcome <==> c == Underweight
    ensures o == NormalWeightOutcome <==> c == NormalWeight
    ensures o == OverWeightOutcome <==> c in OverCategories
    ensures o != IncorrectEntry
  {
    match c
    case Underweight => UnderWeightOutcome
    case NormalWeight => NormalWeightOutcome
    case _ => OverWeightOutcome
  }

  /** The bucket a record is counted in. */
  function OutcomeOf(value: Record): (o: Outcome)
    ensures o == IncorrectEntry <==> !Accepted(value)
  {
    if Accepted(value) then BucketOf(GetBmiData(value.heightCm.value, value.weightKg.value).bmiCategory)
    else IncorrectEntry
  }

  /** The counters of one run, and the row of the summary sheet. */
  datatype Summary = Summary(
    totalPatient: nat,
    totalOverWeight: nat,
    totalUnderWeight: nat,
    totalNormalWeight: nat,
    totalIncorrectEntries: nat)

  const Initial: Summary := Summary(0, 0, 0, 0, 0)

  /** Every patient is in exactly one bucket. */
  predicate Balanced(s: Summary)
  {
    s.totalPatient == s.totalOverWeight + s.totalUnderWeight + s.totalNormalWeight + s.totalIncorrectEntries
  }

  /** The counter update for one record: its bucket and `totalPatient` go up by one. */
  function Tally(s: Summary, o: Outcome): (r: Summary)
    ensures Balanced(s) ==> Balanced(r)
    ensures r.totalPatient == s.totalPatient + 1
    ensures o == UnderWeightOutcome ==> r.totalUnderWeight == s.totalUnderWeight + 1
    ensures o == NormalWeightOutcome ==> r.totalNormalWeight == s.totalNormalWeight + 1
    ensures o == OverWeightOutcome ==> r.totalOverWeight == s.totalOverWeight + 1
    ensures o == IncorrectEntry ==> r.totalIncorrectEntries == s.totalIncorrectEntries + 1
    ensures r.totalOverWeight >= s.totalOverWeight && r.totalUnderWeight >= s.totalUnderWeight
    ensures r.totalNormalWeight >= s.totalNormalWeight && r.totalIncorrectEntries >= s.totalIncorrectEntries
    ensures r.totalOverWeight + r.totalUnderWeight + r.totalNormalWeight + r.totalIncorrectEntries
         == s.totalOverWeight + s.totalUnderWeight + s.totalNormalWeight + s.totalIncorrectEntries + 1
  {
    var s := s.(totalPatient := s.totalPatient + 1);
    match o
    case UnderWeightOutcome => s.(totalUnderWeight := s.totalUnderWeight + 1)
    case NormalWeightOutcome => s.(totalNormalWeight := s.totalNormalWeight + 1)
    case OverWeightOutcome => s.(totalOverWeight := s.totalOverWeight + 1)
    case IncorrectEntry => s.(totalIncorrectEntries := s.totalIncorrectEntries + 1)
  }

  /** The counters after the given records. */
  function TallyAll(records: seq<Record>): Summary
  {
    if records == [] then Initial
    else
      var n := |records| - 1;
      Tally(TallyAll(records[..n]), OutcomeOf(records[n]))
  }

  /** Number of rows whose category is in `cats`. */
  function CountIn(rows: seq<DetailRow>, cats: set<Category>): nat
  {
    if rows == [] then 0
    else
      var n := |rows| - 1;
      CountIn(rows[..n], cats) + (if rows[n].bmiCategory in cats then 1 else 0)
  }

  lemma {:induction false} CountInAppend(rows: seq<DetailRow>, more: seq<DetailRow>, cats: set<Category>)
    requires |more| <= 1
    ensures CountIn(rows + more, cats) == CountIn(rows, cats) + CountIn(more, cats)
  {
    if more != [] {
      assert (rows + more)[..|rows|] == rows;
      assert more[..0] == [];
    } else {
      assert rows + more == rows;
    }
  }

  /** The summary after any run: every record counted once, the buckets add up,
      the incorrect entries are the records without a detail row, and each of
      the three weight buckets counts the detail rows of its categories. */
  lemma {:induction false} SummaryMatchesDetails(records: seq<Record>)
    ensures TallyAll(records).totalPatient == |records|
    ensures Balanced(TallyAll(records))
    ensures TallyAll(records).totalIncorrectEntries == |records| - |Details(records)|
    ensures TallyAll(records).totalUnderWeight == CountIn(Details(records), {Underweight})
    ensures TallyAll(records).totalNormalWeight == CountIn(Details(records), {NormalWeight})
    ensures TallyAll(records).totalOverWeight == CountIn(Details(records), OverCategories)
  {
    if records != [] {
      var n := |records| - 1;
      SummaryMatchesDetails(records[..n]);
      var more := RowsFor(n, records[n]);
      CountInAppend(Details(records[..n]), more, {Underweight});
      CountInAppend(Details(records[..n]), more, {NormalWeight});
      CountInAppend(Details(records[..n]), more, OverCategories);
      if Accepted(records[n]) {
        assert more[..0] == [];
      }
    }
  }

  /** Every detail row comes from the accepted record at position `id`. */
  lemma {:induction false} DetailRowsFromRecords(records: seq<Record>)
    ensures forall j :: 0 <= j < |Details(records)| ==>
      var row := Details(records)[j];
      1 <= row.id <= |records| && Accepted(records[row.id - 1]) && row == DetailRowOf(row.id - 1, records[row.id - 1])
  {
    if records != [] {
      var n := |records| - 1;
      var prefix := records[..n];
      DetailRowsFromRecords(prefix);
      var before := Details(prefix);
      var rows := Details(records);
      forall j | 0 <= j < |rows|
        ensures 1 <= rows[j].id <= |records| && Accepted(records[rows[j].id - 1])
        ensures rows[j] == DetailRowOf(rows[j].id - 1, records[rows[j].id - 1])
      {
        if j < |before| {
          assert rows[j] == before[j];
          assert records[rows[j].id - 1] == prefix[rows[j].id - 1];
        }
      }
    }
  }

  /** The ids increase down the BMI report: rows are in input order. */
  lemma {:induction false} DetailIdsIncrease(records: seq<Record>)
    ensures forall j :: 0 <= j < |Details(records)| ==> Details(records)[j].id <= |records|
    ensures forall i, j :: 0 <= i < j < |Details(records)| ==> Details(records)[i].id < Details(records)[j].id
  {
    if records != [] {
      var n := |records| - 1;
      var prefix := records[..n];
      DetailIdsIncrease(prefix);
      var before := Details(prefix);
      var rows := Details(records);
      assert forall j :: 0 <= j < |before| ==> rows[j] == before[j];
    }
  }

  /** Every accepted record has its row in the BMI report. */
  lemma {:induction false} AcceptedRecordHasRow(records: seq<Record>, k: nat)
    requires k < |records| && Accepted(records[k])
    ensures exists j :: 0 <= j < |Details(records)| && Details(records)[j].id == k + 1
  {
    var n := |records| - 1;
    var prefix := records[..n];
    var before := Details(prefix);
    var rows := Details(records);
    if k < n {
      assert prefix[k] == records[k];
      AcceptedRecordHasRow(prefix, k);
      var j :| 0 <= j < |before| && before[j].id == k + 1;
      assert rows[j] == before[j];
    } else {
      assert rows == before + [DetailRowOf(n, records[n])];
      assert rows[|before|].id == k + 1;
    }
  }

  /** One more record extends the report and the counters by that record alone. */
  lemma RunExtends(records: seq<Record>, i: nat)
    requires i < |records|
    ensures Details(records[..i + 1]) == Details(records[..i]) + RowsFor(i, records[i])
    ensures TallyAll(records[..i + 1]) == Tally(TallyAll(records[..i]), OutcomeOf(records[i]))
  {
    assert records[..i + 1][..i] == records[..i];
  }

  lemma PrefixIsWhole(records: seq<Record>)
    ensures records[..|records|] == records
  {
  }

  /** The two sheets of one run: its counters and both row lists. */
  class BmiReport {
    var totalPatient: nat
    var totalOverWeight: nat
    var totalUnderWeight: nat
    var totalNormalWeight: nat
    var totalIncorrectEntries: nat
    var bmiRows: seq<DetailRow>
    var obesityRows: seq<Summary>

    function Counters(): Summary
      reads this
    {
      Summary(totalPatient, totalOverWeight, totalUnderWeight, totalNormalWeight, totalIncorrectEntries)
    }

    /** Every patient seen so far is in exactly one bucket. */
    ghost predicate Valid()
      reads this
    {
      totalPatient == totalOverWeight + totalUnderWeight + totalNormalWeight + totalIncorrectEntries
    }

    /** All counters at zero, both sheets empty. */
    constructor ()
      ensures Valid()
      ensures Counters() == Initial && bmiRows == [] && obesityRows == []
    {
      totalPatient, totalOverWeight, totalUnderWeight, totalNormalWeight, totalIncorrectEntries := 0, 0, 0, 0, 0;
      bmiRows, obesityRows := [], [];
    }

    /** The handling of the array element `value` at index `key`. */
    method Step(key: nat, value: Record)
      requires Valid()
      modifies this
      ensures Valid()
      ensures Counters() == Tally(old(Counters()), OutcomeOf(value))
      ensures bmiRows == old(bmiRows) + RowsFor(key, value)
      ensures obesityRows == old(obesityRows)
    {
      if Truthy(value.heightCm) && value.heightCm.value > 0.0 && Truthy(value.weightKg) && value.weightKg.value > 0.0 {
        var bmiData := GetBmiData(value.heightCm.value, value.weightKg.value);
        bmiRows := bmiRows + [MergedRow(key, value, bmiData)];
        CategoryNamesDistinct(bmiData.bmiCategory, Underweight);
        CategoryNamesDistinct(bmiData.bmiCategory, NormalWeight);
        if CategoryName(bmiData.bmiCategory) == CategoryName(Underweight) {
          totalUnderWeight := totalUnderWeight + 1;
        } else if CategoryName(bmiData.bmiCategory) == CategoryName(NormalWeight) {
          totalNormalWeight := totalNormalWeight + 1;
        } else {
          totalOverWeight := totalOverWeight + 1;
        }
      } else {
        totalIncorrectEntries := totalIncorrectEntries + 1;
      }
      totalPatient := totalPatient + 1;
    }

    /** The handling of the end of the input: one summary row with the counters. */
    method Finish()
      requires Valid()
      modifies this
      ensures Valid()
      ensures Counters() == old(Counters()) && bmiRows == old(bmiRows)
      ensures obesityRows == old(obesityRows) + [old(Counters())]
    {
      obesityRows := obesityRows + [Counters()];
    }
  }

  /** A whole run over an already parsed input array, fed to the handlers in
      array order: the BMI report rows and the summary sheet, which holds exactly
      one row. */
  method CalculateBmi(records: seq<Record>) returns (bmiRows: seq<DetailRow>, obesityRows: seq<Summary>)
    ensures bmiRows == Details(records)
    ensures obesityRows == [TallyAll(records)]
    ensures obesityRows[0].totalPatient == |records| && Balanced(obesityRows[0])
    ensures obesityRows[0].totalIncorrectEntries == |records| - |bmiRows|
  {
    var report := new BmiReport();
    var i := 0;
    while i < |records|
      invariant 0 <= i <= |records|
      invariant report.Valid()
      invariant report.Counters() == TallyAll(records[..i])
      invariant report.bmiRows == Details(records[..i])
      invariant report.obesityRows == []
    {
      RunExtends(records, i);
      report.Step(i, records[i]);
      i := i + 1;
    }
    PrefixIsWhole(records);
    report.Finish();
    bmiRows, obesityRows := report.bmiRows, report.obesityRows;
    SummaryMatchesDetails(records);
  }

  /** One record of 180 cm and 75 kg: one normal-weight row with id 1. */
  lemma ScenarioOneNormalPatient(value: Record)
    requires value.heightCm == Some(180.0) && value.weightKg == Some(75.0)
    ensures Details([value]) == [DetailRow(1, value.gender, 180.0, 75.0, 231, NormalWeight, LowRisk)]
    ensures TallyAll([value]) == Summary(1, 0, 0, 1, 0)
  {
    Scenario180Cm75Kg();
    assert [value][..0] == [];
    assert DetailRowOf(0, value) == DetailRow(1, value.gender, 180.0, 75.0, 231, NormalWeight, LowRisk);
  }

  /** One record with a negative height: no row, one incorrect entry. */
  lemma ScenarioNegativeHeight(value: Record)
    requires value.heightCm == Some(-5.0) && value.weightKg == Some(70.0)
    ensures Details([value]) == []
    ensures TallyAll([value]) == Summary(1, 0, 0, 0, 1)
  {
  }
}
