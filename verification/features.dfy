/**
 * The feature assembler of the fraud-detection form.
 *
 * The form collects eight transaction fields. The classifier was trained on
 * seventeen named columns in a fixed order, so before prediction the one-row
 * frame is completed: every canonical column the user did not supply is
 * added with a neutral default (0 for the numeric columns, "Unknown" for
 * the categorical ones), and the frame is then re-indexed to exactly the
 * canonical column order.
 *
 * The single-row frame is modelled as the sequence of its columns, in frame
 * order, each with its name and its one cell.
 */
module FeatureAssembler {
  import opened Wrappers

  /** One cell of the single-row frame: an integer or a string. */
  datatype Val = Num(n: int) | Str(s: string)

  /**
   * The column labels that occur in this program: the seventeen features of
   * the classifier's schema. Every label the assembler handles is one of them.
   */
  datatype Feature =
    | Gender | State | City | BankBranch | AccountType | TransactionType
    | MerchantCategory | TransactionDevice | TransactionLocation | DeviceType
    | TransactionCurrency | TransactionDayOfWeek | TransactionMonth | Age
    | TransactionAmount | AccountBalance | TransactionHour

  /** The label under which a feature appears in the frame. */
  function Label(f: Feature): string
  {
    match f
    case Gender => "gender"
    case State => "state"
    case City => "city"
    case BankBranch => "bank_branch"
    case AccountType => "account_type"
    case TransactionType => "transaction_type"
    case MerchantCategory => "merchant_category"
    case TransactionDevice => "transaction_device"
    case TransactionLocation => "transaction_location"
    case DeviceType => "device_type"
    case TransactionCurrency => "transaction_currency"
    case TransactionDayOfWeek => "transaction_dayofweek"
    case TransactionMonth => "transaction_month"
    case Age => "age"
    case TransactionAmount => "transaction_amount"
    case AccountBalance => "account_balance"
    case TransactionHour => "transaction_hour"
  }

  /** The feature a frame label names, if it names one. */
  function FeatureOf(s: string): Option<Feature>
  {
    if s == "gender" then Some(Gender)
    else if s == "state" then Some(State)
    else if s == "city" then Some(City)
    else if s == "bank_branch" then Some(BankBranch)
    else if s == "account_type" then Some(AccountType)
    else if s == "transaction_type" then Some(TransactionType)
    else if s == "merchant_category" then Some(MerchantCategory)
    else if s == "transaction_device" then Some(TransactionDevice)
    else if s == "transaction_location" then Some(TransactionLocation)
    else if s == "device_type" then Some(DeviceType)
    else if s == "transaction_currency" then Some(TransactionCurrency)
    else if s == "transaction_dayofweek" then Some(TransactionDayOfWeek)
    else if s == "transaction_month" then Some(TransactionMonth)
    else if s == "age" then Some(Age)
    else if s == "transaction_amount" then Some(TransactionAmount)
    else if s == "account_balance" then Some(AccountBalance)
    else if s == "transaction_hour" then Some(TransactionHour)
    else None
  }

  /** Reading a feature's label back gives the feature: distinct features have distinct labels. */
  lemma LabelRoundTrip(f: Feature)
    ensures FeatureOf(Label(f)) == Some(f)
  {
  }

  /** A named column of the single-row frame. */
  datatype Column = Column(name: Feature, value: Val)

  /** The single-row frame: its columns in frame order. */
  type Row = seq<Column>

  /** The fields the user enters on the form. */
  datatype TransactionInput = TransactionInput(
    amount: int,
    balance: int,
    hour: int,
    accountType: string,
    transactionType: string,
    deviceType: string,
    location: string,
    dayOfWeek: string)

  /** The feature at position `i` of the classifier's schema. */
  function FeatureAt(i: int): Feature
    requires 0 <= i < 17
  {
    if i == 0 then Gender
    else if i == 1 then State
    else if i == 2 then City
    else if i == 3 then BankBranch
    else if i == 4 then AccountType
    else if i == 5 then TransactionType
    else if i == 6 then MerchantCategory
    else if i == 7 then TransactionDevice
    else if i == 8 then TransactionLocation
    else if i == 9 then DeviceType
    else if i == 10 then TransactionCurrency
    else if i == 11 then TransactionDayOfWeek
    else if i == 12 then TransactionMonth
    else if i == 13 then Age
    else if i == 14 then TransactionAmount
    else if i == 15 then AccountBalance
    else TransactionHour
  }

  /** The columns the classifier was trained on, in training order. */
  function AllColumns(): (columns: seq<Feature>)
    ensures |columns| == 17
  {
    seq(17, FeatureAt)
  }

  /** The columns of the frame built from the form, in the order it builds them. */
  const InputColumns: seq<Feature> := [
    TransactionAmount, AccountBalance, TransactionHour, AccountType,
    TransactionType, DeviceType, TransactionLocation, TransactionDayOfWeek
  ]

  /** The sentinel for a categorical column the user did not supply. */
  const Unknown: string := "Unknown"

  /** No label occurs twice. */
  predicate Distinct(names: seq<Feature>)
  {
    forall i, j :: 0 <= i < j < |names| ==> names[i] != names[j]
  }

  /** The column labels of a frame, in frame order. */
  function Names(row: Row): (names: seq<Feature>)
    ensures |names| == |row|
    ensures forall i :: 0 <= i < |row| ==> names[i] == row[i].name
  {
    if row == [] then [] else [row[0].name] + Names(row[1..])
  }

  /** The cell of the first column labelled `name`, if there is one. */
  function Lookup(row: Row, name: Feature): (v: Option<Val>)
    ensures v.Some? <==> name in Names(row)
  {
    if row == [] then None
    else if row[0].name == name then Some(row[0].value)
    else
      var v := Lookup(row[1..], name);
      assert Names(row) == [row[0].name] + Names(row[1..]);
      v
  }

  /** The frame built from the form's eight fields, in their order. */
  function InputRow(input: TransactionInput): (row: Row)
    ensures Names(row) == InputColumns
  {
    [ Column(TransactionAmount, Num(input.amount)),
      Column(AccountBalance, Num(input.balance)),
      Column(TransactionHour, Num(input.hour)),
      Column(AccountType, Str(input.accountType)),
      Column(TransactionType, Str(input.transactionType)),
      Column(DeviceType, Str(input.deviceType)),
      Column(TransactionLocation, Str(input.location)),
      Column(TransactionDayOfWeek, Str(input.dayOfWeek)) ]
  }

  /** The value a missing column is filled with: 0 or "Unknown". */
  function DefaultFor(name: Feature): (v: Val)
    ensures v == Num(0) || v == Str(Unknown)
  {
    match name
    case Age | TransactionAmount | AccountBalance | TransactionHour => Num(0)
    case _ => Str(Unknown)
  }

  /**
   * The frame after the fill loop has visited `columns` in order: each
   * visited label that is not yet a column is appended with its default.
   * The loop only appends, so the frame it started from is a prefix of the
   * result.
   */
  function FillMissing(row: Row, columns: seq<Feature>): (filled: Row)
    ensures |row| <= |filled| && filled[..|row|] == row
    decreases |columns|
  {
    if columns == [] then row
    else
      var next := if columns[0] in Names(row) then row
                  else row + [Column(columns[0], DefaultFor(columns[0]))];
      FillMissing(next, columns[1..])
  }

  /** The fill loop, updating the frame column by column. */
  method FillMissingColumns(row: Row, columns: seq<Feature>) returns (filled: Row)
    ensures filled == FillMissing(row, columns)
  {
    filled := row;
    var i := 0;
    while i < |columns|
      invariant 0 <= i <= |columns|
      invariant FillMissing(filled, columns[i..]) == FillMissing(row, columns)
    {
      var col := columns[i];
      assert columns[i..][1..] == columns[i + 1..];
      if col !in Names(filled) {
        filled := filled + [Column(col, DefaultFor(col))];
      }
      i := i + 1;
    }
    assert columns[i..] == [];
  }

  /** Appending a column leaves the labels before it and their cells alone. */
  lemma {:induction false} LookupAppend(row: Row, c: Column, name: Feature)
    ensures Names(row + [c]) == Names(row) + [c.name]
    ensures Lookup(row + [c], name) ==
              if name in Names(row) then Lookup(row, name)
              else if name == c.name then Some(c.value)
              else None
  {
    if row != [] {
      assert (row + [c])[1..] == row[1..] + [c];
      LookupAppend(row[1..], c, name);
    }
  }

  /** After the fill loop a label is a column exactly when it was one before or was visited. */
  lemma {:induction false} FillMissingNames(row: Row, columns: seq<Feature>, name: Feature)
    ensures name in Names(FillMissing(row, columns)) <==> name in Names(row) || name in columns
    decreases |columns|
  {
    if columns != [] {
      var next := if columns[0] in Names(row) then row
                  else row + [Column(columns[0], DefaultFor(columns[0]))];
      LookupAppend(row, Column(columns[0], DefaultFor(columns[0])), name);
      FillMissingNames(next, columns[1..], name);
      assert columns == [columns[0]] + columns[1..];
    }
  }

  /** The fill loop never changes a column that was already there. */
  lemma {:induction false} FillMissingKeeps(row: Row, columns: seq<Feature>, name: Feature)
    requires name in Names(row)
    ensures Lookup(FillMissing(row, columns), name) == Lookup(row, name)
    decreases |columns|
  {
    if columns != [] {
      var next := if columns[0] in Names(row) then row
                  else row + [Column(columns[0], DefaultFor(columns[0]))];
      LookupAppend(row, Column(columns[0], DefaultFor(columns[0])), name);
      FillMissingKeeps(next, columns[1..], name);
    }
  }

  /** A visited label that was not a column gets its default. */
  lemma {:induction false} FillMissingDefaults(row: Row, columns: seq<Feature>, name: Feature)
    requires name in columns && name !in Names(row)
    ensures Lookup(FillMissing(row, columns), name) == Some(DefaultFor(name))
    decreases |columns|
  {
    var c := Column(columns[0], DefaultFor(columns[0]));
    LookupAppend(row, c, name);
    if columns[0] == name {
      FillMissingKeeps(row + [c], columns[1..], name);
    } else {
      var next := if columns[0] in Names(row) then row else row + [c];
      assert name in columns[1..] && name !in Names(next);
      FillMissingDefaults(next, columns[1..], name);
    }
  }

  /** On a frame that already has every visited label, the fill loop changes nothing. */
  lemma {:induction false} FillMissingComplete(row: Row, columns: seq<Feature>)
    requires forall n :: n in columns ==> n in Names(row)
    ensures FillMissing(row, columns) == row
    decreases |columns|
  {
    if columns != [] {
      assert columns[0] in columns;
      FillMissingComplete(row, columns[1..]);
    }
  }

  /** Running the fill loop a second time changes nothing. */
  lemma {:induction false} FillMissingIdempotent(row: Row, columns: seq<Feature>)
    ensures FillMissing(FillMissing(row, columns), columns) == FillMissing(row, columns)
  {
    forall n | n in columns
      ensures n in Names(FillMissing(row, columns))
    {
      FillMissingNames(row, columns, n);
    }
    FillMissingComplete(FillMissing(row, columns), columns);
  }

  /** Appending a label not yet present keeps the labels distinct. */
  lemma DistinctAppend(names: seq<Feature>, n: Feature)
    requires Distinct(names) && n !in names
    ensures Distinct(names + [n])
  {
  }

  /** The fill loop never introduces a duplicate label. */
  lemma {:induction false} FillMissingDistinct(row: Row, columns: seq<Feature>)
    requires Distinct(Names(row))
    ensures Distinct(Names(FillMissing(row, columns)))
    decreases |columns|
  {
    if columns != [] {
      var c := Column(columns[0], DefaultFor(columns[0]));
      var next := if columns[0] in Names(row) then row else row + [c];
      if columns[0] !in Names(row) {
        LookupAppend(row, c, columns[0]);
        DistinctAppend(Names(row), columns[0]);
      }
      FillMissingDistinct(next, columns[1..]);
    }
  }

  /**
   * Re-indexing the frame to `columns`, in that order. A label that is not a
   * column of the frame makes the re-indexing fail (pandas raises KeyError).
   */
  function Project(row: Row, columns: seq<Feature>): (r: Option<Row>)
    ensures r.Some? <==> forall n :: n in columns ==> n in Names(row)
    ensures r.Some? ==> Names(r.value) == columns
    ensures r.Some? ==> forall i :: 0 <= i < |columns| ==> Lookup(row, columns[i]) == Some(r.value[i].value)
    decreases |columns|
  {
    if columns == [] then Some([])
    else
      match Lookup(row, columns[0])
      case None =>
        assert columns[0] in columns;
        None
      case Some(v) =>
        match Project(row, columns[1..])
        case None =>
          assert exists n :: n in columns[1..] && n !in Names(row);
          None
        case Some(rest) =>
          var r := [Column(columns[0], v)] + rest;
          assert Names(r) == [columns[0]] + Names(rest);
          Some(r)
  }

  /** A column whose label no earlier column has is found by its label. */
  lemma {:induction false} LookupFirst(row: Row, i: nat)
    requires i < |row| && forall j :: 0 <= j < i ==> row[j].name != row[i].name
    ensures Lookup(row, row[i].name) == Some(row[i].value)
  {
    if i > 0 {
      assert row[0].name != row[i].name;
      LookupFirst(row[1..], i - 1);
    }
  }

  /** In a frame without duplicate labels, each column is found by its own label. */
  lemma LookupDistinct(row: Row, i: nat)
    requires Distinct(Names(row)) && i < |row|
    ensures Lookup(row, row[i].name) == Some(row[i].value)
  {
    LookupFirst(row, i);
  }

  /**
   * The position of a feature in the classifier's schema: the inverse of
   * `FeatureAt`. The table is written out a second time, as a match, because
   * a match is cheaper for the verifier than inverting `FeatureAt`;
   * `SchemaPositions` proves the two tables agree.
   */
  function Position(f: Feature): nat
  {
    match f
    case Gender => 0
    case State => 1
    case City => 2
    case BankBranch => 3
    case AccountType => 4
    case TransactionType => 5
    case MerchantCategory => 6
    case TransactionDevice => 7
    case TransactionLocation => 8
    case DeviceType => 9
    case TransactionCurrency => 10
    case TransactionDayOfWeek => 11
    case TransactionMonth => 12
    case Age => 13
    case TransactionAmount => 14
    case AccountBalance => 15
    case TransactionHour => 16
  }

  /** Column `i` of the schema is the feature at position `i`. */
  lemma SchemaPositions()
    ensures forall i :: 0 <= i < |AllColumns()| ==> Position(AllColumns()[i]) == i
  {
  }

  /** The canonical schema names each column once. */
  lemma AllColumnsDistinct()
    ensures Distinct(AllColumns())
  {
    SchemaPositions();
  }

  /** Every feature is one of the classifier's columns. */
  lemma AllColumnsComplete(f: Feature)
    ensures Position(f) < |AllColumns()| && AllColumns()[Position(f)] == f
  {
  }

  /** The features the form supplies. */
  predicate FromForm(f: Feature)
  {
    match f
    case TransactionAmount | AccountBalance | TransactionHour | AccountType
       | TransactionType | DeviceType | TransactionLocation | TransactionDayOfWeek => true
    case _ => false
  }

  /** The form supplies a feature exactly when its frame has a column for it. */
  lemma FromFormIsInputColumn(f: Feature)
    ensures FromForm(f) <==> f in InputColumns
  {
  }

  /** The column labels of the training schema, spelled as the program spells them. */
  function TrainingLabels(): seq<string>
  {
    [ "gender", "state", "city", "bank_branch", "account_type", "transaction_type",
      "merchant_category", "transaction_device", "transaction_location", "device_type",
      "transaction_currency", "transaction_dayofweek", "transaction_month", "age",
      "transaction_amount", "account_balance", "transaction_hour" ]
  }

  /** The schema's features carry the training labels, in training order. */
  lemma SchemaLabels()
    ensures |TrainingLabels()| == |AllColumns()|
    ensures forall i :: 0 <= i < |AllColumns()| ==> Label(AllColumns()[i]) == TrainingLabels()[i]
  {
  }

  /** The labels whose missing column is filled with 0. */
  function NumericLabels(): seq<string>
  {
    ["age", "transaction_amount", "account_balance", "transaction_hour"]
  }

  /** A missing column is filled with 0 when its label is a numeric one, and with "Unknown" otherwise. */
  lemma DefaultByLabel(f: Feature)
    ensures DefaultFor(f) == if Label(f) in NumericLabels() then Num(0) else Str(Unknown)
  {
  }

  /** The record handed to the classifier: the form's frame, filled, then re-indexed. */
  function AssembledRecord(input: TransactionInput): (record: Row)
    ensures Names(record) == AllColumns()
  {
    FilledHasEveryColumn(input);
    Project(FillMissing(InputRow(input), AllColumns()), AllColumns()).value
  }

  /** After the fill loop the frame has a column for every feature. */
  lemma FilledHasEveryColumn(input: TransactionInput)
    ensures forall n :: n in Names(FillMissing(InputRow(input), AllColumns()))
  {
    forall n
      ensures n in Names(FillMissing(InputRow(input), AllColumns()))
    {
      AllColumnsComplete(n);
      FillMissingNames(InputRow(input), AllColumns(), n);
    }
  }

  /** A label of the record carries the cell the filled frame had under it. */
  lemma AssembledLookup(input: TransactionInput, name: Feature)
    ensures Lookup(AssembledRecord(input), name) ==
              Lookup(FillMissing(InputRow(input), AllColumns()), name)
  {
    var record := AssembledRecord(input);
    FilledHasEveryColumn(input);
    assert Project(FillMissing(InputRow(input), AllColumns()), AllColumns()) == Some(record);
    AllColumnsComplete(name);
    AllColumnsDistinct();
    LookupDistinct(record, Position(name));
  }

  /** Every field the user supplied reaches the classifier unchanged. */
  lemma AssembledKeepsInput(input: TransactionInput, name: Feature)
    requires FromForm(name)
    ensures Lookup(AssembledRecord(input), name) == Lookup(InputRow(input), name)
  {
    FromFormIsInputColumn(name);
    AssembledLookup(input, name);
    FillMissingKeeps(InputRow(input), AllColumns(), name);
  }

  /** Every column the user did not supply carries its default. */
  lemma AssembledDefaults(input: TransactionInput, name: Feature)
    requires !FromForm(name)
    ensures Lookup(AssembledRecord(input), name) == Some(DefaultFor(name))
  {
    FromFormIsInputColumn(name);
    AllColumnsComplete(name);
    AssembledLookup(input, name);
    FillMissingDefaults(InputRow(input), AllColumns(), name);
  }

  /**
   * The cell the classifier expects under each feature, written out feature
   * by feature: of the nine columns the form does not supply only `age` is
   * numeric and gets 0, the other eight get "Unknown".
   */
  function ReferenceValue(input: TransactionInput, f: Feature): Val
  {
    match f
    case Gender => Str(Unknown)
    case State => Str(Unknown)
    case City => Str(Unknown)
    case BankBranch => Str(Unknown)
    case AccountType => Str(input.accountType)
    case TransactionType => Str(input.transactionType)
    case MerchantCategory => Str(Unknown)
    case TransactionDevice => Str(Unknown)
    case TransactionLocation => Str(input.location)
    case DeviceType => Str(input.deviceType)
    case TransactionCurrency => Str(Unknown)
    case TransactionDayOfWeek => Str(input.dayOfWeek)
    case TransactionMonth => Str(Unknown)
    case Age => Num(0)
    case TransactionAmount => Num(input.amount)
    case AccountBalance => Num(input.balance)
    case TransactionHour => Num(input.hour)
  }

  /** The reference record: every schema column, in order, with its reference cell. */
  function ReferenceRecord(input: TransactionInput): Row
  {
    seq(|AllColumns()|, k requires 0 <= k < |AllColumns()| => Column(AllColumns()[k], ReferenceValue(input, AllColumns()[k])))
  }

  /** Each field of the form's frame is found under its own label. */
  lemma InputRowField(input: TransactionInput, j: nat)
    requires j < |InputRow(input)|
    ensures Lookup(InputRow(input), InputRow(input)[j].name) == Some(InputRow(input)[j].value)
  {
    LookupFirst(InputRow(input), j);
  }

  /** The form's frame carries the reference cell under each of its labels. */
  lemma InputRowIsReference(input: TransactionInput, f: Feature)
    requires FromForm(f)
    ensures Lookup(InputRow(input), f) == Some(ReferenceValue(input, f))
  {
    match f
    case TransactionAmount => InputRowField(input, 0);
    case AccountBalance => InputRowField(input, 1);
    case TransactionHour => InputRowField(input, 2);
    case AccountType => InputRowField(input, 3);
    case TransactionType => InputRowField(input, 4);
    case DeviceType => InputRowField(input, 5);
    case TransactionLocation => InputRowField(input, 6);
    case TransactionDayOfWeek => InputRowField(input, 7);
  }

  /** The defaults are the reference cells of the columns the form does not supply. */
  lemma DefaultsAreReference(input: TransactionInput, f: Feature)
    requires !FromForm(f)
    ensures DefaultFor(f) == ReferenceValue(input, f)
  {
  }

  /**
   * Any record in canonical order that keeps the form's fields and gives
   * every other column its default is the reference record.
   */
  lemma CanonicalRecordIsReference(input: TransactionInput, r: Row)
    requires Names(r) == AllColumns()
    requires forall n :: FromForm(n) ==> Lookup(r, n) == Lookup(InputRow(input), n)
    requires forall n :: !FromForm(n) ==> Lookup(r, n) == Some(DefaultFor(n))
    ensures r == ReferenceRecord(input)
  {
    AllColumnsDistinct();
    forall k | 0 <= k < |r|
      ensures r[k] == ReferenceRecord(input)[k]
    {
      LookupDistinct(r, k);
      if FromForm(r[k].name) {
        InputRowIsReference(input, r[k].name);
      } else {
        DefaultsAreReference(input, r[k].name);
      }
    }
  }

  /** The assembled record is the reference record, for every form. */
  lemma AssembledIsReference(input: TransactionInput)
    ensures AssembledRecord(input) == ReferenceRecord(input)
  {
    forall n
      ensures FromForm(n) ==> Lookup(AssembledRecord(input), n) == Lookup(InputRow(input), n)
      ensures !FromForm(n) ==> Lookup(AssembledRecord(input), n) == Some(DefaultFor(n))
    {
      if FromForm(n) {
        AssembledKeepsInput(input, n);
      } else {
        AssembledDefaults(input, n);
      }
    }
    CanonicalRecordIsReference(input, AssembledRecord(input));
  }

  /**
   * The assembly as the form runs it: build the frame, fill it, re-index it.
   * The record it hands on is the reference record.
   */
  method AssembleFeatures(input: TransactionInput) returns (record: Row)
    ensures record == ReferenceRecord(input)
  {
    var row := InputRow(input);
    var filled := FillMissingColumns(row, AllColumns());
    FilledHasEveryColumn(input);
    var projected := Project(filled, AllColumns());
    record := projected.value;
    AssembledIsReference(input);
  }
}
