/**
 * The watchlist page (`src/pages/Watchlist.tsx`): adding a symbol from the demo
 * table after three guards, confirmed removal, the search filter and column
 * sort of the displayed rows, the "available symbol" chips, and the CSV export.
 *
 * The search query is the debounced one; the debounce delay, the simulated
 * price ticks and the browser storage are outside the model.
 */
module Watchlist {
  import opened Wrappers
  import opened Strings
  import opened Lists
  import opened Sorting
  import opened Types

  /** A row of `mockSymbolData`: everything of a watchlist item but its symbol and date. */
  datatype SymbolData = SymbolData(name: string, price: real, change: real, changePercent: real, volume: int)

  /** `Object.keys(mockSymbolData)`, in declaration order. */
  const MockSymbols: seq<string> := ["AAPL", "GOOGL", "MSFT", "TSLA", "AMZN", "NVDA", "META", "NFLX"]

  const MockSymbolData: map<string, SymbolData> := map[
    "AAPL" := SymbolData("Apple Inc.", 178.45, 2.34, 1.33, 45234567),
    "GOOGL" := SymbolData("Alphabet Inc.", 2720.30, -15.67, -0.57, 1234567),
    "MSFT" := SymbolData("Microsoft Corporation", 325.80, 4.23, 1.32, 23456789),
    "TSLA" := SymbolData("Tesla, Inc.", 251.20, 8.90, 3.67, 34567890),
    "AMZN" := SymbolData("Amazon.com, Inc.", 3542.67, -23.45, -0.66, 2345678),
    "NVDA" := SymbolData("NVIDIA Corporation", 589.34, 12.56, 2.18, 12345678),
    "META" := SymbolData("Meta Platforms, Inc.", 312.45, -5.67, -1.78, 8765432),
    "NFLX" := SymbolData("Netflix, Inc.", 456.78, 6.78, 1.51, 3456789)]

  lemma MockTableKeys()
    ensures forall s :: s in MockSymbolData <==> s in MockSymbols
  {
  }

  function HasSymbol(list: seq<WatchlistItem>, symbol: string): (r: bool)
    ensures list == [] ==> !r
    ensures list != [] ==> (r <==> list[0].symbol == symbol || HasSymbol(list[1..], symbol))
  {
    assert list != [] ==> forall i :: 0 < i < |list| ==> list[1..][i - 1] == list[i];
    exists i | 0 <= i < |list| :: list[i].symbol == symbol
  }

  predicate UniqueSymbols(list: seq<WatchlistItem>)
  {
    forall i, j :: 0 <= i < j < |list| ==> list[i].symbol != list[j].symbol
  }

  /** A notification the page raises through `notifySuccess` or `notifyError`. */
  datatype Notice = Notice(kind: NotificationKind, title: string, message: string)

  datatype AddOutcome = Added(item: WatchlistItem) | Rejected(notice: Notice)

  /** The symbol `addToWatchlist` works with: the input trimmed, then upper-cased. */
  function NormalizeSymbol(input: string): (r: string)
    ensures |r| <= |input|
    ensures forall i :: 0 <= i < |r| ==> !IsLower(r[i])
    ensures exists a, b :: 0 <= a <= b <= |input| && SpaceOutside(input, a, b) && r == ToUpper(input[a..b])
  {
    TrimStartThenEnd(input);
    ToUpper(Trim(input))
  }

  /** A symbol typed in any case with white space around it becomes the upper-cased symbol. */
  lemma NormalizePadded(p: string, w: string, q: string)
    requires forall i :: 0 <= i < |p| ==> IsSpace(p[i])
    requires forall i :: 0 <= i < |q| ==> IsSpace(q[i])
    requires w == [] || (!IsSpace(w[0]) && !IsSpace(w[|w| - 1]))
    ensures NormalizeSymbol(p + w + q) == ToUpper(w)
  {
    TrimPadded(p, w, q);
  }

  /**
   * Typing " aapl " into an empty watchlist adds AAPL with its quote, and the
   * AAPL chip disappears.
   */
  lemma AddPaddedSymbol(input: string, now: string)
    requires input == " aapl "
    ensures var r := TryAdd(MockSymbolData, [], input, now);
      r.Added? && r.item.symbol == "AAPL" && r.item.name == "Apple Inc." &&
      "AAPL" !in AvailableSymbols([r.item])
  {
    NormalizesToAapl(input);
    AddsAapl(input, now);
    AddRemovesChip([], input, now);
    var item := TryAdd(MockSymbolData, [], input, now).item;
    assert [] + [item] == [item];
  }

  /** Any input that normalises to AAPL is added to an empty list with the Apple quote. */
  lemma AddsAapl(input: string, now: string)
    requires NormalizeSymbol(input) == "AAPL"
    ensures var r := TryAdd(MockSymbolData, [], input, now);
      r.Added? && r.item.symbol == "AAPL" && r.item.name == "Apple Inc."
  {
    assert "AAPL" in MockSymbolData && MockSymbolData["AAPL"].name == "Apple Inc.";
  }

  lemma NormalizesToAapl(input: string)
    requires input == " aapl "
    ensures NormalizeSymbol(input) == "AAPL"
  {
    TrimsToAapl(input);
    UpperAapl();
  }

  lemma TrimsToAapl(input: string)
    requires input == " aapl "
    ensures Trim(input) == "aapl"
  {
    assert input == " " + "aapl" + " ";
    TrimPadded(" ", "aapl", " ");
  }

  lemma UpperAapl()
    ensures ToUpper("aapl") == "AAPL"
  {
    var u := ToUpper("aapl");
    assert u[0] == 'A' && u[1] == 'A' && u[2] == 'P' && u[3] == 'L';
  }

  /**
   * The guards of `addToWatchlist`, in their order, and the item it appends
   * when they pass; `table` is the page's symbol table.
   */
  function TryAdd(table: map<string, SymbolData>, list: seq<WatchlistItem>, input: string, now: string): (r: AddOutcome)
    ensures var sym := NormalizeSymbol(input);
      (sym == [] ==> r == Rejected(Notice(Error, "Invalid Symbol", "Please enter a valid stock symbol."))) &&
      (sym != [] && HasSymbol(list, sym) ==>
        r == Rejected(Notice(Error, "Already Added", sym + " is already in your watchlist."))) &&
      (sym != [] && !HasSymbol(list, sym) && sym !in table ==>
        r == Rejected(Notice(Error, "Symbol Not Found", sym + " was not found. Please check the symbol and try again."))) &&
      (r.Added? <==> sym != [] && !HasSymbol(list, sym) && sym in table) &&
      (r.Added? ==> var d := table[sym];
        r.item == WatchlistItem(sym, d.name, d.price, d.change, d.changePercent, d.volume, now))
  {
    var sym := NormalizeSymbol(input);
    if sym == [] then Rejected(Notice(Error, "Invalid Symbol", "Please enter a valid stock symbol."))
    else if HasSymbol(list, sym) then Rejected(Notice(Error, "Already Added", sym + " is already in your watchlist."))
    else if sym !in table then
      Rejected(Notice(Error, "Symbol Not Found", sym + " was not found. Please check the symbol and try again."))
    else
      var d := table[sym];
      Added(WatchlistItem(sym, d.name, d.price, d.change, d.changePercent, d.volume, now))
  }

  /** An accepted symbol is new, so appending it keeps the symbols unique. */
  lemma AddKeepsUnique(table: map<string, SymbolData>, list: seq<WatchlistItem>, input: string, now: string)
    requires UniqueSymbols(list)
    requires TryAdd(table, list, input, now).Added?
    ensures UniqueSymbols(list + [TryAdd(table, list, input, now).item])
  {
    AppendFreshKeepsUnique(list, TryAdd(table, list, input, now).item);
  }

  /** Appending an item whose symbol is not listed keeps the symbols unique. */
  lemma AppendFreshKeepsUnique(list: seq<WatchlistItem>, item: WatchlistItem)
    requires UniqueSymbols(list) && !HasSymbol(list, item.symbol)
    ensures UniqueSymbols(list + [item])
  {
    var l := list + [item];
    forall i, j | 0 <= i < j < |l| ensures l[i].symbol != l[j].symbol {
      if j == |list| {
        assert l[i] == list[i];
      } else {
        assert l[i] == list[i] && l[j] == list[j];
      }
    }
  }

  /** `watchlist.filter(item => item.symbol !== symbol)`. */
  function RemoveSymbol(list: seq<WatchlistItem>, symbol: string): (r: seq<WatchlistItem>)
    ensures forall x :: x in r <==> x in list && x.symbol != symbol
    ensures Subsequence(r, list)
    ensures !HasSymbol(r, symbol)
    ensures !HasSymbol(list, symbol) ==> r == list
  {
    var r := Filter(list, (x: WatchlistItem) => x.symbol != symbol);
    assert forall i :: 0 <= i < |r| ==> r[i] in r;
    r
  }

  /** The chips: table symbols, in table order, not yet on the list. */
  function AvailableSymbols(list: seq<WatchlistItem>): (r: seq<string>)
    ensures forall s :: s in r <==> s in MockSymbols && !HasSymbol(list, s)
    ensures Subsequence(r, MockSymbols)
  {
    Filter(MockSymbols, (s: string) => !HasSymbol(list, s))
  }

  /** The columns the table header sorts by. */
  datatype Field = SymbolField | NameField | PriceField | ChangeField | ChangePercentField | VolumeField

  function FieldValue(f: Field, item: WatchlistItem): Value
  {
    match f
    case SymbolField => Text(item.symbol)
    case NameField => Text(item.name)
    case PriceField => Num(item.price)
    case ChangeField => Num(item.change)
    case ChangePercentField => Num(item.changePercent)
    case VolumeField => Num(item.volume as real)
  }

  /** The search test: the lower-cased query occurs in the lower-cased symbol or name. */
  predicate Matches(query: string, item: WatchlistItem)
    ensures query == [] ==> Matches(query, item)
    ensures ToLower(query) == ToLower(item.symbol) || ToLower(query) == ToLower(item.name) ==> Matches(query, item)
  {
    assert IsPrefix(ToLower(query), ToLower(item.symbol)) ==> Contains(ToLower(item.symbol), ToLower(query));
    assert IsPrefix(ToLower(query), ToLower(item.name)) ==> Contains(ToLower(item.name), ToLower(query));
    Contains(ToLower(item.symbol), ToLower(query)) || Contains(ToLower(item.name), ToLower(query))
  }

  /** `filteredAndSortedWatchlist`. */
  function FilteredAndSorted(list: seq<WatchlistItem>, query: string, field: Field, dir: Direction): (r: seq<WatchlistItem>)
    ensures forall x :: x in r <==> x in list && Matches(query, x)
    ensures multiset(r) == multiset(Filter(list, (x: WatchlistItem) => Matches(query, x)))
    ensures Sorted(r, (x: WatchlistItem) => FieldValue(field, x), dir)
    ensures Stable(r, Filter(list, (x: WatchlistItem) => Matches(query, x)), (x: WatchlistItem) => FieldValue(field, x))
  {
    var kept := Filter(list, (x: WatchlistItem) => Matches(query, x));
    var r := SortBy(kept, (x: WatchlistItem) => FieldValue(field, x), dir);
    assert forall x :: x in r <==> x in multiset(r);
    assert forall x :: x in kept <==> x in multiset(kept);
    r
  }

  /** An empty search shows every item, sorted. */
  lemma EmptyQueryShowsAll(list: seq<WatchlistItem>, field: Field, dir: Direction)
    ensures multiset(FilteredAndSorted(list, "", field, dir)) == multiset(list)
  {
    forall i | 0 <= i < |list| ensures Matches("", list[i]) {
      ContainsEmpty(ToLower(list[i].symbol));
    }
  }

  // ----- the CSV export --------------------------------------------------

  const Headers: seq<string> := ["Symbol", "Name", "Price", "Change", "Change %", "Volume", "Added Date"]

  /** The number and date formatters the export calls (`toFixed(2)`, `toLocaleString`, `toLocaleDateString`). */
  datatype Formats = Formats(fixed2: real -> string, grouped: int -> string, date: string -> string)

  function Cells(item: WatchlistItem, fmt: Formats): (r: seq<string>)
    ensures |r| == |Headers|
  {
    [item.symbol, item.name, fmt.fixed2(item.price), fmt.fixed2(item.change), fmt.fixed2(item.changePercent),
     fmt.grouped(item.volume), fmt.date(item.addedAt)]
  }

  /** A cell containing a comma is wrapped in double quotes; inner quotes are left as they are. */
  function QuoteCell(v: string): (r: string)
    ensures ',' in v ==> r == ['"'] + v + ['"']
    ensures ',' !in v ==> r == v
  {
    if ',' in v then ['"'] + v + ['"'] else v
  }

  function QuoteAll(cells: seq<string>): (r: seq<string>)
    ensures |r| == |cells|
    ensures forall i :: 0 <= i < |cells| ==> r[i] == QuoteCell(cells[i])
  {
    seq(|cells|, i requires 0 <= i < |cells| => QuoteCell(cells[i]))
  }

  function Line(cells: seq<string>): string
  {
    Join(QuoteAll(cells), ",")
  }

  function Lines(items: seq<WatchlistItem>, fmt: Formats): (r: seq<string>)
    ensures |r| == |items|
    ensures forall i :: 0 <= i < |items| ==> r[i] == Line(Cells(items[i], fmt))
  {
    if items == [] then [] else [Line(Cells(items[0], fmt))] + Lines(items[1..], fmt)
  }

  /**
   * `exportWatchlist`'s text: the header line (the keys of the first row, so none
   * for an empty list), then one line per item, joined by line feeds.
   */
  function ExportCsv(items: seq<WatchlistItem>, fmt: Formats): (r: string)
    ensures items == [] ==> r == []
    ensures items != [] ==> var h := Join(Headers, ",");
      |h| < |r| && r[..|h|] == h && r[|h|] == '\n'
  {
    var headers := if items == [] then [] else Headers;
    var parts := [Join(headers, ",")] + Lines(items, fmt);
    assert items != [] ==> |parts| > 1 && parts[0] == Join(Headers, ",") && parts[1..] == Lines(items, fmt);
    Join(parts, "\n")
  }

  // A reader for the records the export writes: a field that opens with a quote
  // runs to the next quote, any other field to the next comma.

  function ReadField(s: string): (r: (string, string))
    ensures |r.1| <= |s|
    ensures s != [] && s[0] == '"' ==> '"' !in r.0
    ensures (s == [] || s[0] != '"') ==> ',' !in r.0 && r.0 + r.1 == s && (r.1 == [] || r.1[0] == ',')
  {
    if s != [] && s[0] == '"' then
      var body := Before(s[1..], '"');
      var after := s[1..][|body|..];
      (body, if after == [] then [] else after[1..])
    else
      var f := Before(s, ',');
      (f, s[|f|..])
  }

  function ReadRecord(s: string): seq<string>
    decreases |s|
  {
    var (f, rest) := ReadField(s);
    if rest != [] && rest[0] == ',' then [f] + ReadRecord(rest[1..]) else [f]
  }

  function SplitLines(s: string): seq<string>
    decreases |s|
  {
    var l := Before(s, '\n');
    if |l| == |s| then [s] else [l] + SplitLines(s[|l| + 1..])
  }

  function ReadRecords(lines: seq<string>): seq<seq<string>>
  {
    if lines == [] then [] else [ReadRecord(lines[0])] + ReadRecords(lines[1..])
  }

  function ReadCsv(s: string): seq<seq<string>>
  {
    ReadRecords(SplitLines(s))
  }

  lemma {:induction false} BeforeConcat(a: string, b: string, c: char)
    requires c !in a && (b == [] || b[0] == c)
    ensures Before(a + b, c) == a
  {
    if a == [] {
      assert a + b == b;
    } else {
      assert (a + b)[1..] == a[1..] + b;
      BeforeConcat(a[1..], b, c);
    }
  }

  lemma ReadQuoted(v: string, t: string)
    requires '"' !in v && (t == [] || t[0] == ',')
    ensures ReadField(['"'] + v + ['"'] + t) == (v, t)
  {
    var s := ['"'] + v + ['"'] + t;
    var tail := ['"'] + t;
    assert s[1..] == v + tail;
    BeforeConcat(v, tail, '"');
    assert (v + tail)[|v|..] == tail;
    assert tail[1..] == t;
  }

  lemma ReadBare(v: string, t: string)
    requires '"' !in v && ',' !in v && (t == [] || t[0] == ',')
    ensures ReadField(v + t) == (v, t)
  {
    var s := v + t;
    if v != [] { assert s[0] == v[0]; }
    BeforeConcat(v, t, ',');
    assert s[|v|..] == t;
  }

  lemma ReadQuotedCell(v: string, t: string)
    requires '"' !in v && (t == [] || t[0] == ',')
    ensures ReadField(QuoteCell(v) + t) == (v, t)
  {
    if ',' in v { ReadQuoted(v, t); } else { ReadBare(v, t); }
  }

  predicate Plain(v: string)
  {
    '"' !in v && '\n' !in v
  }

  /** A line of two or more cells is its first quoted cell, a comma and the line of the rest. */
  lemma LineCons(cells: seq<string>)
    requires |cells| >= 2
    ensures Line(cells) == QuoteCell(cells[0]) + ("," + Line(cells[1..]))
  {
    var q := QuoteAll(cells);
    assert q[1..] == QuoteAll(cells[1..]);
    assert q[0] + "," + Join(q[1..], ",") == q[0] + ("," + Join(q[1..], ","));
  }

  /** Reading a written record gives back its cells when no cell holds a quote. */
  lemma {:induction false} RecordRoundTrip(cells: seq<string>)
    requires cells != []
    requires forall i :: 0 <= i < |cells| ==> '"' !in cells[i]
    ensures ReadRecord(Line(cells)) == cells
  {
    if |cells| == 1 {
      assert Line(cells) == QuoteCell(cells[0]) + [];
      ReadQuotedCell(cells[0], []);
    } else {
      var rest := cells[1..];
      assert forall i :: 0 <= i < |rest| ==> '"' !in rest[i] by {
        forall i | 0 <= i < |rest| ensures '"' !in rest[i] {
          assert rest[i] == cells[i + 1];
        }
      }
      var tail := Line(rest);
      LineCons(cells);
      ReadQuotedCell(cells[0], "," + tail);
      ReadRecordCons(Line(cells), cells[0], tail);
      RecordRoundTrip(rest);
      assert cells == [cells[0]] + rest;
    }
  }

  /** A field followed by a comma starts a record that goes on after the comma. */
  lemma ReadRecordCons(s: string, f: string, t: string)
    requires ReadField(s) == (f, "," + t)
    ensures ReadRecord(s) == [f] + ReadRecord(t)
  {
    assert ("," + t)[1..] == t;
  }

  lemma {:induction false} SplitJoined(lines: seq<string>)
    requires lines != []
    requires forall i :: 0 <= i < |lines| ==> '\n' !in lines[i]
    ensures SplitLines(Join(lines, "\n")) == lines
  {
    if |lines| == 1 {
      BeforeConcat(lines[0], [], '\n');
      assert lines[0] + [] == lines[0];
    } else {
      JoinStep(lines, "\n");
      SplitStep(lines[0], Join(lines[1..], "\n"));
      SplitJoined(lines[1..]);
    }
  }

  /** Joining two or more parts is the first part, the separator and the join of the rest. */
  lemma JoinStep(parts: seq<string>, sep: string)
    requires |parts| >= 2
    ensures Join(parts, sep) == parts[0] + (sep + Join(parts[1..], sep))
  {
    assert parts[0] + sep + Join(parts[1..], sep) == parts[0] + (sep + Join(parts[1..], sep));
  }

  /** A line without a break followed by a break splits off first. */
  lemma SplitStep(l: string, t: string)
    requires '\n' !in l
    ensures SplitLines(l + ("\n" + t)) == [l] + SplitLines(t)
  {
    var s := l + ("\n" + t);
    BeforeConcat(l, "\n" + t, '\n');
    assert s[|l| + 1..] == t;
  }

  /** A line of quoted cells holds a line feed only where a cell does. */
  lemma {:induction false} LineHasNoBreak(cells: seq<string>)
    requires forall i :: 0 <= i < |cells| ==> '\n' !in cells[i]
    ensures '\n' !in Line(cells)
  {
    if |cells| > 1 {
      assert QuoteAll(cells)[1..] == QuoteAll(cells[1..]);
      LineHasNoBreak(cells[1..]);
    }
  }

  /** The lines of rows of cells, one line per row. */
  function LinesOf(rows: seq<seq<string>>): (r: seq<string>)
    ensures |r| == |rows|
    ensures forall i :: 0 <= i < |rows| ==> r[i] == Line(rows[i])
  {
    if rows == [] then [] else [Line(rows[0])] + LinesOf(rows[1..])
  }

  /** Rows of plain, non-empty records read back from their lines. */
  lemma {:induction false} ReadLinesOf(rows: seq<seq<string>>)
    requires forall i :: 0 <= i < |rows| ==> rows[i] != []
    requires forall i, j :: 0 <= i < |rows| && 0 <= j < |rows[i]| ==> '"' !in rows[i][j]
    ensures ReadRecords(LinesOf(rows)) == rows
  {
    if rows != [] {
      RecordRoundTrip(rows[0]);
      ReadLinesOf(rows[1..]);
      assert LinesOf(rows)[1..] == LinesOf(rows[1..]);
      assert rows == [rows[0]] + rows[1..];
    }
  }

  lemma ReadRecordsOfLines(items: seq<WatchlistItem>, fmt: Formats)
    requires forall i, j :: 0 <= i < |items| && 0 <= j < |Headers| ==> '"' !in Cells(items[i], fmt)[j]
    ensures |ReadRecords(Lines(items, fmt))| == |items|
    ensures forall i :: 0 <= i < |items| ==> ReadRecords(Lines(items, fmt))[i] == Cells(items[i], fmt)
  {
    var rows := seq(|items|, i requires 0 <= i < |items| => Cells(items[i], fmt));
    assert Lines(items, fmt) == LinesOf(rows);
    ReadLinesOf(rows);
  }

  lemma {:induction false} ReadRecordsAppend(a: seq<string>, b: seq<string>)
    ensures ReadRecords(a + b) == ReadRecords(a) + ReadRecords(b)
  {
    if a == [] {
      assert a + b == b;
    } else {
      assert (a + b)[1..] == a[1..] + b;
      ReadRecordsAppend(a[1..], b);
    }
  }

  lemma HeaderLine()
    ensures Line(Headers) == Join(Headers, ",")
    ensures '\n' !in Join(Headers, ",")
    ensures ReadRecord(Join(Headers, ",")) == Headers
  {
    assert forall i :: 0 <= i < |Headers| ==> ',' !in Headers[i] && '\n' !in Headers[i] && '"' !in Headers[i];
    assert QuoteAll(Headers) == Headers;
    LineHasNoBreak(Headers);
    RecordRoundTrip(Headers);
  }

  lemma LinesHaveNoBreak(items: seq<WatchlistItem>, fmt: Formats)
    requires forall i, j :: 0 <= i < |items| && 0 <= j < |Headers| ==> Plain(Cells(items[i], fmt)[j])
    ensures forall i :: 0 <= i < |items| ==> '\n' !in Lines(items, fmt)[i]
  {
    forall i | 0 <= i < |items| ensures '\n' !in Lines(items, fmt)[i] {
      LineHasNoBreak(Cells(items[i], fmt));
    }
  }

  lemma ReadJoined(h: string, ls: seq<string>)
    requires '\n' !in h
    requires forall i :: 0 <= i < |ls| ==> '\n' !in ls[i]
    ensures ReadCsv(Join([h] + ls, "\n")) == [ReadRecord(h)] + ReadRecords(ls)
  {
    var all := [h] + ls;
    assert forall i :: 0 < i < |all| ==> all[i] == ls[i - 1];
    SplitJoined(all);
    ReadRecordsAppend([h], ls);
  }

  lemma ReadExport(items: seq<WatchlistItem>, fmt: Formats)
    requires items != []
    requires forall i, j :: 0 <= i < |items| && 0 <= j < |Headers| ==> Plain(Cells(items[i], fmt)[j])
    ensures ReadCsv(ExportCsv(items, fmt)) == [Headers] + ReadRecords(Lines(items, fmt))
  {
    HeaderLine();
    LinesHaveNoBreak(items, fmt);
    ReadJoined(Join(Headers, ","), Lines(items, fmt));
  }

  /**
   * The export reads back as the header row and one row of cells per item, in
   * list order, whenever no cell holds a double quote or a line feed. (Inner
   * quotes are not doubled, so a cell with a quote does not survive.)
   */
  lemma CsvRoundTrip(items: seq<WatchlistItem>, fmt: Formats)
    requires items != []
    requires forall i, j :: 0 <= i < |items| && 0 <= j < |Headers| ==> Plain(Cells(items[i], fmt)[j])
    ensures var rows := ReadCsv(ExportCsv(items, fmt));
      |rows| == |items| + 1 && rows[0] == Headers &&
      forall i :: 0 <= i < |items| ==> rows[i + 1] == Cells(items[i], fmt)
  {
    ReadExport(items, fmt);
    ReadRecordsOfLines(items, fmt);
  }

  /** An empty list exports as the empty text. */
  lemma EmptyExport(fmt: Formats)
    ensures ExportCsv([], fmt) == []
  {
  }

  /** A cell with a quote and a comma does not survive the export: the quote is not escaped. */
  lemma QuotedCellLost()
    ensures ReadRecord(Line(["say \"hi\", bye"])) != ["say \"hi\", bye"]
  {
    var v := "say \"hi\", bye";
    assert ',' in v by { assert v[8] == ','; }
    var s := Line([v]);
    assert s == ['"'] + v + ['"'];
    assert s[1..] == v + ['"'];
    assert Before(s[1..], '"') == "say " by {
      BeforeConcat("say ", s[1..][4..], '"');
      assert s[1..] == "say " + s[1..][4..];
    }
  }

  // ----- the page --------------------------------------------------------

  /** The toast announcing an accepted symbol. */
  function AddedNotice(symbol: string): (r: Notice)
    ensures r.kind == Success
    ensures |symbol| < |r.message| && r.message[..|symbol|] == symbol
  {
    Notice(Success, "Added to Watchlist", symbol + " has been added to your watchlist.")
  }

  class WatchlistPage {
    /** The symbols the page can add, with their quotes. */
    const table: map<string, SymbolData>
    var watchlist: seq<WatchlistItem>
    /** The debounced search text. */
    var searchQuery: string
    var isAddingSymbol: bool
    var newSymbol: string
    var sortField: Field
    var sortDirection: Direction

    ghost predicate Valid()
      reads this
    {
      UniqueSymbols(watchlist)
    }

    constructor ()
      ensures table == MockSymbolData
      ensures Valid() && watchlist == [] && searchQuery == [] && !isAddingSymbol && newSymbol == []
      ensures sortField == SymbolField && sortDirection == Asc
    {
      table := MockSymbolData;
      watchlist := [];
      searchQuery := [];
      isAddingSymbol := false;
      newSymbol := [];
      sortField := SymbolField;
      sortDirection := Asc;
    }

    /** `addToWatchlist`: a rejected symbol changes nothing; an accepted one is appended and the form closes. */
    method AddToWatchlist(now: string) returns (notice: Notice)
      requires Valid()
      modifies this`watchlist, this`newSymbol, this`isAddingSymbol
      ensures Valid()
      ensures match TryAdd(table, old(watchlist), old(newSymbol), now)
        case Rejected(n) =>
          notice == n && watchlist == old(watchlist) && newSymbol == old(newSymbol) && isAddingSymbol == old(isAddingSymbol)
        case Added(item) =>
          watchlist == old(watchlist) + [item] && newSymbol == [] && !isAddingSymbol &&
          notice == AddedNotice(item.symbol)
    {
      var outcome := TryAdd(table, watchlist, newSymbol, now);
      if outcome.Added? {
        AppendFreshKeepsUnique(watchlist, outcome.item);
        watchlist := watchlist + [outcome.item];
        newSymbol := [];
        isAddingSymbol := false;
        notice := AddedNotice(outcome.item.symbol);
      } else {
        notice := outcome.notice;
      }
    }

    /** `removeFromWatchlist`; `confirmed` is the answer to the confirmation dialog. */
    method RemoveFromWatchlist(symbol: string, confirmed: bool) returns (notice: Option<Notice>)
      requires Valid()
      modifies this`watchlist
      ensures Valid()
      ensures !confirmed ==> watchlist == old(watchlist) && notice == None
      ensures confirmed ==> (watchlist == RemoveSymbol(old(watchlist), symbol) &&
        notice == Some(Notice(Success, "Removed from Watchlist", symbol + " has been removed from your watchlist.")))
    {
      notice := None;
      if confirmed {
        var r := RemoveSymbol(watchlist, symbol);
        SubsequenceUnique(r, watchlist);
        watchlist := r;
        notice := Some(Notice(Success, "Removed from Watchlist", symbol + " has been removed from your watchlist."));
      }
    }

    method HandleSort(field: Field)
      modifies this`sortField, this`sortDirection
      ensures old(sortField) == field ==> sortField == field && sortDirection == Flip(old(sortDirection))
      ensures old(sortField) != field ==> sortField == field && sortDirection == Asc
    {
      if sortField == field {
        sortDirection := Flip(sortDirection);
      } else {
        sortField := field;
        sortDirection := Asc;
      }
    }

    /** Clicking a chip puts its symbol into the input. */
    method ChooseChip(symbol: string)
      modifies this`newSymbol
      ensures newSymbol == symbol
    {
      newSymbol := symbol;
    }

    /** The input's `onChange` upper-cases what is typed. */
    method TypeSymbol(text: string)
      modifies this`newSymbol
      ensures newSymbol == ToUpper(text)
    {
      newSymbol := ToUpper(text);
    }

    method CancelAdd()
      modifies this`newSymbol, this`isAddingSymbol
      ensures newSymbol == [] && !isAddingSymbol
    {
      isAddingSymbol := false;
      newSymbol := [];
    }

    function Displayed(): (r: seq<WatchlistItem>)
      reads this
      ensures forall x :: x in r <==> x in watchlist && Matches(searchQuery, x)
      ensures var f := sortField; Sorted(r, (x: WatchlistItem) => FieldValue(f, x), sortDirection)
    {
      FilteredAndSorted(watchlist, searchQuery, sortField, sortDirection)
    }

    function Chips(): (r: seq<string>)
      reads this
      ensures forall s :: s in r <==> s in MockSymbols && !HasSymbol(watchlist, s)
    {
      AvailableSymbols(watchlist)
    }

    function Export(fmt: Formats): (r: string)
      reads this
      ensures watchlist == [] ==> r == []
      ensures watchlist != [] ==> var h := Join(Headers, ",");
        |h| < |r| && r[..|h|] == h && r[|h|] == '\n'
    {
      ExportCsv(watchlist, fmt)
    }
  }

  lemma {:induction false} SubsequenceUnique(r: seq<WatchlistItem>, s: seq<WatchlistItem>)
    requires Subsequence(r, s) && UniqueSymbols(s)
    ensures UniqueSymbols(r)
  {
    if r != [] && s != [] {
      assert UniqueSymbols(s[1..]) by {
        forall i, j | 0 <= i < j < |s[1..]| ensures s[1..][i].symbol != s[1..][j].symbol {
          assert s[1..][i] == s[i + 1] && s[1..][j] == s[j + 1];
        }
      }
      if r[0] == s[0] {
        SubsequenceUnique(r[1..], s[1..]);
        SubsequenceMembers(r[1..], s[1..]);
        forall j | 0 < j < |r| ensures r[0].symbol != r[j].symbol {
          assert r[j] == r[1..][j - 1];
          assert r[j] in s[1..];
          var k :| 0 <= k < |s[1..]| && s[1..][k] == r[j];
          assert s[k + 1] == r[j];
        }
        forall i, j | 0 < i < j < |r| ensures r[i].symbol != r[j].symbol {
          assert r[i] == r[1..][i - 1] && r[j] == r[1..][j - 1];
        }
      } else {
        SubsequenceUnique(r, s[1..]);
      }
    }
  }

  lemma {:induction false} SubsequenceMembers<T>(r: seq<T>, s: seq<T>)
    requires Subsequence(r, s)
    ensures forall x :: x in r ==> x in s
  {
    if r != [] && s != [] {
      if r[0] == s[0] {
        SubsequenceMembers(r[1..], s[1..]);
        assert forall x :: x in r ==> x == r[0] || x in r[1..];
      } else {
        SubsequenceMembers(r, s[1..]);
      }
    }
  }

  /** After a successful add, the symbol leaves the chips and the rest of the chips stay. */
  lemma AddRemovesChip(list: seq<WatchlistItem>, input: string, now: string)
    requires TryAdd(MockSymbolData, list, input, now).Added?
    ensures var item := TryAdd(MockSymbolData, list, input, now).item;
      item.symbol !in AvailableSymbols(list + [item]) &&
      item.symbol in AvailableSymbols(list) &&
      forall s :: s != item.symbol ==> (s in AvailableSymbols(list + [item]) <==> s in AvailableSymbols(list))
  {
    var item := TryAdd(MockSymbolData, list, input, now).item;
    var l := list + [item];
    assert l[|list|] == item;
    MockTableKeys();
    forall s | s != item.symbol ensures HasSymbol(l, s) <==> HasSymbol(list, s) {
      if HasSymbol(l, s) {
        var i :| 0 <= i < |l| && l[i].symbol == s;
        assert i < |list| && list[i] == l[i];
      }
      if HasSymbol(list, s) {
        var i :| 0 <= i < |list| && list[i].symbol == s;
        assert l[i] == list[i];
      }
    }
  }
}
