/**
 * The Transactions view (components/Transactions.tsx): the CSV importer,
 * the filtered and sorted list, and the save rule of the form.
 *
 * `parseFloat` is a parameter (`None` for NaN); so is the normalisation
 * `new Date(d).toISOString().split('T')[0]` (`None` where it throws on an
 * invalid date) and the timestamp `new Date(d).getTime()` used to sort.
 */
module TransactionsView {
  import opened Wrappers
  import opened Strings
  import opened Types
  import opened Forms
  import Seqs
  import Sorting

  /** Why an import is abandoned. */
  datatype ImportError =
    | MissingColumns(columns: seq<string>)   // the message lists these, joined by ", "
    | TypeCellMissing(line: string)          // `row.type.toLowerCase()` on undefined throws
    | InvalidDate(date: string)              // `toISOString()` on an invalid date throws

  const RequiredHeaders: seq<string> := ["date", "name", "category", "amount", "type"]

  /** The text of the error the importer throws for missing columns. */
  function MissingColumnsMessage(columns: seq<string>): string {
    "Missing required CSV columns: " + JoinWith(columns, ", ")
  }

  function JoinWith(parts: seq<string>, sep: string): string {
    if parts == [] then ""
    else if |parts| == 1 then parts[0]
    else parts[0] + sep + JoinWith(parts[1..], sep)
  }

  /** The lines of the text after trimming it. */
  function Lines(csvText: string): (lines: seq<string>)
    ensures |lines| >= 1
  {
    Split(Trim(csvText), '\n')
  }

  /** The header row: the first line split on commas, each cell trimmed and lower-cased. */
  function Header(csvText: string): (header: seq<string>)
    ensures var cells := Split(Lines(csvText)[0], ',');
      |header| == |cells| && forall i :: 0 <= i < |cells| ==> header[i] == ToLower(Trim(cells[i]))
  {
    var cells := Split(Lines(csvText)[0], ',');
    seq(|cells|, i requires 0 <= i < |cells| => ToLower(Trim(cells[i])))
  }

  /** The required columns absent from the header, in the required order. */
  function MissingHeaders(header: seq<string>): (missing: seq<string>)
    ensures forall h :: h in missing <==> h in RequiredHeaders && h !in header
  {
    Seqs.Filter(RequiredHeaders, h => h !in header)
  }

  /** The last position of `col` in the header, or -1. */
  function LastIndexOf(header: seq<string>, col: string): (r: int)
    ensures -1 <= r < |header|
    ensures r >= 0 ==> header[r] == col && forall j :: r < j < |header| ==> header[j] != col
    ensures r == -1 ==> col !in header
  {
    if header == [] then -1
    else if header[|header| - 1] == col then |header| - 1
    else LastIndexOf(header[..|header| - 1], col)
  }

  /**
   * `row[col]` after `header.reduce(...)`: each header position writes
   * `values[index]?.trim()`, so the last position carrying `col` wins, and a
   * row too short for it leaves `undefined`.
   */
  function Cell(header: seq<string>, values: seq<string>, col: string): Option<string> {
    var i := LastIndexOf(header, col);
    if 0 <= i < |values| then Some(Trim(values[i])) else None
  }

  /** A truthy cell: present and not empty. */
  predicate Present(c: Option<string>) {
    c.Some? && c.value != ""
  }

  /**
   * One data line: it throws when there is no type cell, is skipped
   * (`Ok(None)`) when date, name or category is missing or empty, the amount
   * is not a number or the type is neither income nor expense, throws on an
   * invalid date, and otherwise becomes a draft transaction.
   */
  function ParseRow(header: seq<string>, line: string,
                    parseFloat: string -> Option<real>, isoDate: string -> Option<string>)
    : Result<Option<TransactionDraft>, ImportError>
  {
    var values := Split(line, ',');
    var typeCell := Cell(header, values, "type");
    if typeCell.None? then Err(TypeCellMissing(line))
    else
      var date := Cell(header, values, "date");
      var name := Cell(header, values, "name");
      var category := Cell(header, values, "category");
      var amountCell := Cell(header, values, "amount");
      var amount := if amountCell.Some? then parseFloat(amountCell.value) else None;
      var kind := ParseTransactionType(ToLower(typeCell.value));
      if !Present(date) || !Present(name) || !Present(category) || amount.None? || kind.None? then Ok(None)
      else match isoDate(date.value)
        case None => Err(InvalidDate(date.value))
        case Some(d) => Ok(Some(TransactionDraft(name.value, category.value, amount.value, d, kind.value)))
  }

  /**
   * The data lines in order, each through `parse`: the first line that
   * throws abandons them all, skipped lines are dropped, and the failure is
   * that line's own.
   */
  function ParseLines(lines: seq<string>, parse: string -> Result<Option<TransactionDraft>, ImportError>)
    : (r: Result<seq<TransactionDraft>, ImportError>)
    ensures r.Ok? ==> |r.value| <= |lines|
    ensures r.Err? ==> exists i :: 0 <= i < |lines| && parse(lines[i]) == Err(r.error)
  {
    if lines == [] then Ok([])
    else match parse(lines[0])
      case Err(e) => Err(e)
      case Ok(row) =>
        match ParseLines(lines[1..], parse)
        case Err(e) =>
          assert exists i :: 0 <= i < |lines[1..]| && parse(lines[1..][i]) == Err(e);
          var i :| 0 <= i < |lines[1..]| && parse(lines[1..][i]) == Err(e);
          assert parse(lines[i + 1]) == Err(e);
          Err(e)
        case Ok(rest) => Ok(RowOutput(row) + rest)
  }

  /** A kept row, or nothing for a skipped one. */
  function RowOutput(row: Option<TransactionDraft>): seq<TransactionDraft> {
    if row.Some? then [row.value] else []
  }

  /** A data line fails only for a missing type cell or an invalid date. */
  lemma ParseRowErrors(header: seq<string>, line: string, parseFloat: string -> Option<real>, isoDate: string -> Option<string>)
    ensures var r := ParseRow(header, line, parseFloat, isoDate);
      r.Err? ==> r.error == TypeCellMissing(line) || r.error.InvalidDate?
  {
  }

  /** A row parser bound to a header. */
  function RowParser(header: seq<string>, parseFloat: string -> Option<real>, isoDate: string -> Option<string>)
    : string -> Result<Option<TransactionDraft>, ImportError>
  {
    line => ParseRow(header, line, parseFloat, isoDate)
  }

  /** `parseCSV`: the header check, then the data lines; past the header, only a row can fail. */
  function ParseCSV(csvText: string, parseFloat: string -> Option<real>, isoDate: string -> Option<string>)
    : (r: Result<seq<TransactionDraft>, ImportError>)
    ensures r.Err? && r.error.MissingColumns? <==> MissingHeaders(Header(csvText)) != []
    ensures r.Err? && r.error.MissingColumns? ==> r.error.columns == MissingHeaders(Header(csvText))
    ensures r.Err? && !r.error.MissingColumns? ==>
      exists i :: 1 <= i < |Lines(csvText)| && ParseRow(Header(csvText), Lines(csvText)[i], parseFloat, isoDate) == Err(r.error)
    ensures r.Ok? ==> |r.value| <= |Lines(csvText)| - 1
  {
    var header := Header(csvText);
    var missing := MissingHeaders(header);
    if missing != [] then Err(MissingColumns(missing))
    else
      var lines := Lines(csvText);
      var r := ParseLines(lines[1..], RowParser(header, parseFloat, isoDate));
      if r.Err? then
        var i :| 0 <= i < |lines[1..]| && RowParser(header, parseFloat, isoDate)(lines[1..][i]) == Err(r.error);
        assert lines[1..][i] == lines[i + 1];
        ParseRowErrors(header, lines[i + 1], parseFloat, isoDate);
        r
      else r
  }

  /** Parsing lines with a known first line that parses. */
  lemma ParseLinesCons(h: string, t: seq<string>, parse: string -> Result<Option<TransactionDraft>, ImportError>)
    requires parse(h).Ok? && ParseLines(t, parse).Ok?
    ensures ParseLines([h] + t, parse) == Ok(RowOutput(parse(h).value) + ParseLines(t, parse).value)
  {
    assert ([h] + t)[0] == h;
    assert ([h] + t)[1..] == t;
  }

  /** Rows are kept in file order: importing two runs of lines imports each run, one after the other. */
  lemma {:induction false} ParseLinesConcat(a: seq<string>, b: seq<string>, parse: string -> Result<Option<TransactionDraft>, ImportError>)
    requires ParseLines(a, parse).Ok? && ParseLines(b, parse).Ok?
    ensures ParseLines(a + b, parse) == Ok(ParseLines(a, parse).value + ParseLines(b, parse).value)
  {
    if a == [] {
      assert a + b == b;
      assert ParseLines(a, parse).value + ParseLines(b, parse).value == ParseLines(b, parse).value;
    } else {
      var h, t := a[0], a[1..];
      assert a == [h] + t;
      assert parse(h).Ok? && ParseLines(t, parse).Ok?;
      var row := RowOutput(parse(h).value);
      ParseLinesConcat(t, b, parse);
      assert a + b == [h] + (t + b);
      ParseLinesCons(h, t, parse);
      ParseLinesCons(h, t + b, parse);
      Seqs.AppendAssoc(row, ParseLines(t, parse).value, ParseLines(b, parse).value);
    }
  }

  /**
   * A line is kept exactly when it has a type cell, non-empty date, name and
   * category, a numeric amount, a type that lower-cases to income or
   * expense, and a valid date; the draft carries those values.
   */
  lemma ParseRowKeeps(header: seq<string>, line: string,
                      parseFloat: string -> Option<real>, isoDate: string -> Option<string>)
    ensures var values := Split(line, ',');
      var typeCell := Cell(header, values, "type");
      var date := Cell(header, values, "date");
      var amountCell := Cell(header, values, "amount");
      var r := ParseRow(header, line, parseFloat, isoDate);
      (r.Ok? && r.value.Some?) <==>
        (typeCell.Some? && Present(date) && Present(Cell(header, values, "name")) &&
         Present(Cell(header, values, "category")) &&
         amountCell.Some? && parseFloat(amountCell.value).Some? &&
         (ToLower(typeCell.value) == "income" || ToLower(typeCell.value) == "expense") &&
         isoDate(date.value).Some?)
    ensures var r := ParseRow(header, line, parseFloat, isoDate);
      r.Ok? && r.value.Some? ==>
        var values := Split(line, ',');
        r.value.value.name == Cell(header, values, "name").value &&
        r.value.value.category == Cell(header, values, "category").value &&
        Some(r.value.value.amount) == parseFloat(Cell(header, values, "amount").value) &&
        Some(r.value.value.date) == isoDate(Cell(header, values, "date").value) &&
        TransactionTypeName(r.value.value.kind) == ToLower(Cell(header, values, "type").value)
  {
    var values := Split(line, ',');
    var typeCell := Cell(header, values, "type");
    var date := Cell(header, values, "date");
    var name := Cell(header, values, "name");
    var category := Cell(header, values, "category");
    var amountCell := Cell(header, values, "amount");
    var amount := if amountCell.Some? then parseFloat(amountCell.value) else None;
    var r := ParseRow(header, line, parseFloat, isoDate);
    if typeCell.None? {
      assert r.Err?;
    } else {
      var kind := ParseTransactionType(ToLower(typeCell.value));
      if !Present(date) || !Present(name) || !Present(category) || amount.None? || kind.None? {
        assert r == Ok(None);
      } else {
        TransactionTypeRoundTrip(kind.value, ToLower(typeCell.value));
        if isoDate(date.value).None? {
          assert r.Err?;
        } else {
          assert r == Ok(Some(TransactionDraft(name.value, category.value, amount.value, isoDate(date.value).value, kind.value)));
        }
      }
    }
  }

  /** The type buttons: all, or one type. */
  datatype TypeFilter = All | Only(kind: TransactionType)

  /** The filter test of `filteredTransactions`. */
  predicate Matches(t: Transaction, filter: TypeFilter, query: string) {
    var matchesFilter := filter.All? || t.kind == filter.kind;
    if query == "" then matchesFilter
    else
      var q := ToLower(query);
      matchesFilter && (Contains(ToLower(t.name), q) || Contains(ToLower(t.category), q))
  }

  /** The newest-first order: ascending in minus the timestamp. */
  function NewestFirst(timeOf: string -> int): Transaction -> int {
    (t: Transaction) => -timeOf(t.date)
  }

  /** `filteredTransactions`: the matching transactions, newest first. */
  function FilteredTransactions(ts: seq<Transaction>, filter: TypeFilter, query: string, timeOf: string -> int): seq<Transaction> {
    Sorting.SortBy(Seqs.Filter(ts, t => Matches(t, filter, query)), NewestFirst(timeOf))
  }

  /**
   * The list holds every matching transaction as often as the input does and
   * nothing else, and its dates never get newer down the list.
   */
  lemma FilteredTransactionsCorrect(ts: seq<Transaction>, filter: TypeFilter, query: string, timeOf: string -> int)
    ensures var r := FilteredTransactions(ts, filter, query, timeOf);
      multiset(r) == multiset(Seqs.Filter(ts, t => Matches(t, filter, query))) &&
      (forall t :: t in r <==> t in ts && Matches(t, filter, query)) &&
      (forall i, j :: 0 <= i < j < |r| ==> timeOf(r[i].date) >= timeOf(r[j].date))
  {
    var kept := Seqs.Filter(ts, t => Matches(t, filter, query));
    var r := FilteredTransactions(ts, filter, query, timeOf);
    Sorting.SortByCorrect(kept, NewestFirst(timeOf));
    forall t ensures t in r <==> t in kept {
      assert t in r <==> t in multiset(r);
      assert t in kept <==> t in multiset(kept);
    }
    forall i, j | 0 <= i < j < |r| ensures timeOf(r[i].date) >= timeOf(r[j].date) {
      assert NewestFirst(timeOf)(r[i]) <= NewestFirst(timeOf)(r[j]);
    }
  }

  /**
   * Transactions stamped with the same time keep their list order, since
   * `Array.prototype.sort` is stable: those with time `when` appear in the
   * list in the order they match in `ts`.
   */
  lemma SameTimeKeepsListOrder(ts: seq<Transaction>, filter: TypeFilter, query: string, timeOf: string -> int, when: int)
    ensures var sameTime := Sorting.KeyIs(NewestFirst(timeOf), -when);
      Seqs.Filter(FilteredTransactions(ts, filter, query, timeOf), sameTime) ==
      Seqs.Filter(Seqs.Filter(ts, t => Matches(t, filter, query)), sameTime)
  {
    Sorting.SortByStable(Seqs.Filter(ts, t => Matches(t, filter, query)), NewestFirst(timeOf), -when);
  }

  /** With no query and the "all" button, the list is every transaction, re-ordered. */
  lemma UnfilteredListIsPermutation(ts: seq<Transaction>, timeOf: string -> int)
    ensures multiset(FilteredTransactions(ts, All, "", timeOf)) == multiset(ts)
  {
    Seqs.FilterAll(ts, t => Matches(t, All, ""));
    Sorting.SortByCorrect(ts, NewestFirst(timeOf));
  }

  /** The form's fields; the amount is the text of a number input. */
  datatype TransactionForm = TransactionForm(name: string, category: string, amount: string, date: string, kind: TransactionType)

  /**
   * `handleSaveTransaction`: with name, category, amount and date filled, a
   * new transaction, or the edited one under its own id; otherwise nothing.
   */
  function SaveTransaction(form: TransactionForm, editing: Option<Transaction>, numberOf: string -> real)
    : (r: SaveOutcome<TransactionDraft, Transaction>)
    ensures r.Rejected? <==> !(Filled(form.name) && Filled(form.category) && Filled(form.amount) && Filled(form.date))
    ensures r.Create? ==> editing.None? && r.draft == TransactionDraft(form.name, form.category, numberOf(form.amount), form.date, form.kind)
    ensures r.Replace? ==> editing.Some? && r.entity.id == editing.value.id
    ensures r.Replace? ==> r.entity == TransactionDraft(form.name, form.category, numberOf(form.amount), form.date, form.kind).WithId(r.entity.id)
  {
    if Filled(form.name) && Filled(form.category) && Filled(form.amount) && Filled(form.date) then
      var data := TransactionDraft(form.name, form.category, numberOf(form.amount), form.date, form.kind);
      if editing.Some? then Replace(data.WithId(editing.value.id)) else Create(data)
    else Rejected
  }
}
