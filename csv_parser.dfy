/** The CSV reader of src/utils/csvParser.ts: lines split on newlines,
    cells on commas (no quoting), the first line naming the columns, and
    every cell trimmed and read as a number, a boolean or a string. */
module Csv {
  import opened Js

  /** `Number(s)` on a non-empty trimmed cell: the number it denotes, or
      `None` when the result is `NaN`. */
  type NumberOf = string -> Option<real>

  function LowerChar(c: char): char {
    if 'A' <= c <= 'Z' then (c as int + 32) as char else c
  }

  /** `value.toLowerCase() === word` for a lower-case ASCII word: no
      character outside A-Z lower-cases to an ASCII letter that could
      complete such a word. */
  predicate SpellsIgnoringCase(value: string, word: string) {
    |value| == |word| && forall i :: 0 <= i < |value| ==> LowerChar(value[i]) == word[i]
  }

  /** The reading of one trimmed cell (ClassifyMeaning says what it is). */
  function Classify(value: string, number: NumberOf): JsValue {
    if number(value).Some? && value != "" then Num(number(value).value)
    else if SpellsIgnoringCase(value, "true") then Bool(true)
    else if SpellsIgnoringCase(value, "false") then Bool(false)
    else Str(value)
  }

  /** A cell reads as a number when it is non-empty and numeric, as a
      boolean when it spells true or false in any case, and otherwise as its
      own text; an empty cell stays the empty string and never becomes 0. */
  lemma ClassifyMeaning(value: string, number: NumberOf)
    ensures var v := Classify(value, number);
            && (v.Num? || v.Bool? || v.Str?)
            && (v.Num? <==> value != "" && number(value).Some?)
            && (v.Num? ==> v.n == number(value).value)
            && (v.Bool? ==> number(value).None? && SpellsIgnoringCase(value, if v.b then "true" else "false"))
            && (v.Str? ==> v.s == value && !SpellsIgnoringCase(value, "true") && !SpellsIgnoringCase(value, "false"))
            && (value == "" ==> v == Str(""))
  {
  }

  /** `currentLine[j]?.trim() || ''`: a missing column reads as empty. */
  function Cell(cells: seq<string>, j: nat): string {
    if j < |cells| then Trim(cells[j]) else ""
  }

  /** The header line's names, each trimmed (the `map` over the split
      header line). */
  function TrimAll(parts: seq<string>): (r: seq<string>)
    ensures |r| == |parts|
    ensures forall i :: 0 <= i < |r| ==> r[i] == Trim(parts[i])
  {
    if |parts| == 0 then [] else [Trim(parts[0])] + TrimAll(parts[1..])
  }

  /** The readings of a line's first `m` cells, missing cells read as
      empty. */
  function Readings(cells: seq<string>, number: NumberOf, m: nat): (r: seq<JsValue>)
    ensures |r| == m
    ensures forall j :: 0 <= j < m ==> r[j] == Classify(Cell(cells, j), number)
  {
    if m == 0 then [] else Readings(cells, number, m - 1) + [Classify(Cell(cells, m - 1), number)]
  }

  /** The object built by assigning `values[j]` to property `headers[j]`
      for each of the first `n` columns in turn, starting from `{}`. */
  function Assign(headers: seq<string>, values: seq<JsValue>, n: nat): Record
    requires n <= |headers| && n <= |values|
  {
    if n == 0 then []
    else SetProp(Assign(headers, values, n - 1), headers[n - 1], values[n - 1])
  }

  /** The record of one data line. */
  function Row(headers: seq<string>, line: string, number: NumberOf): Record {
    Assign(headers, Readings(Split(line, ','), number, |headers|), |headers|)
  }

  predicate Blank(line: string) {
    Trim(line) == ""
  }

  /** The records of the data lines among `lines[1..n]`. */
  function RecordsUpTo(lines: seq<string>, headers: seq<string>, number: NumberOf, n: nat): seq<Record>
    requires n <= |lines|
  {
    if n <= 1 then []
    else RecordsUpTo(lines, headers, number, n - 1)
         + (if Blank(lines[n - 1]) then [] else [Row(headers, lines[n - 1], number)])
  }

  function Headers(text: string): seq<string> {
    TrimAll(Split(Split(text, '\n')[0], ','))
  }

  /** `parseCSV` as a value. */
  function Parse(text: string, number: NumberOf): seq<Record> {
    var lines := Split(text, '\n');
    RecordsUpTo(lines, Headers(text), number, |lines|)
  }

  /** `parseCSV`: the loop over lines, skipping blank ones. */
  method ParseCsv(text: string, number: NumberOf) returns (result: seq<Record>)
    ensures result == Parse(text, number)
  {
    var lines := Split(text, '\n');
    var headers := TrimAll(Split(lines[0], ','));
    result := ParseRows(lines, headers, number);
  }

  /** The loop of `parseCSV` over the lines after the header line. */
  method ParseRows(lines: seq<string>, headers: seq<string>, number: NumberOf) returns (result: seq<Record>)
    requires |lines| >= 1
    ensures result == RecordsUpTo(lines, headers, number, |lines|)
  {
    result := [];
    var i := 1;
    while i < |lines|
      invariant 1 <= i <= |lines|
      invariant result == RecordsUpTo(lines, headers, number, i)
    {
      result := ParseStep(lines, headers, number, i, result);
      i := i + 1;
    }
  }

  /** One turn of the loop over lines: a blank line is skipped and any
      other one adds its record. */
  method ParseStep(lines: seq<string>, headers: seq<string>, number: NumberOf, i: nat, records: seq<Record>)
    returns (next: seq<Record>)
    requires 1 <= i < |lines|
    requires records == RecordsUpTo(lines, headers, number, i)
    ensures next == RecordsUpTo(lines, headers, number, i + 1)
  {
    if Trim(lines[i]) == "" {
      return records;
    }
    var obj := ParseLine(headers, lines[i], number);
    next := records + [obj];
  }

  /** The inner loop of `parseCSV` over the columns of one line. */
  method ParseLine(headers: seq<string>, line: string, number: NumberOf) returns (obj: Record)
    ensures obj == Row(headers, line, number)
  {
    obj := [];
    var currentLine := Split(line, ',');
    ghost var values := Readings(currentLine, number, |headers|);
    var j := 0;
    while j < |headers|
      invariant 0 <= j <= |headers|
      invariant obj == Assign(headers, values, j)
    {
      var value := if j < |currentLine| then Trim(currentLine[j]) else "";
      var cell := ReadCell(value, number);
      assert Assign(headers, values, j + 1) == SetProp(Assign(headers, values, j), headers[j], values[j]);
      obj := SetProp(obj, headers[j], cell);
      j := j + 1;
    }
  }

  /** The `if` chain that turns a trimmed cell into a number or a boolean. */
  method ReadCell(value: string, number: NumberOf) returns (cell: JsValue)
    ensures cell == Classify(value, number)
  {
    cell := Str(value);
    if number(value).Some? && value != "" {
      cell := Num(number(value).value);
    } else if SpellsIgnoringCase(value, "true") {
      cell := Bool(true);
    } else if SpellsIgnoringCase(value, "false") {
      cell := Bool(false);
    }
  }

  /** The object has a property for each of the first `n` headers and no
      other, except that a `__proto__` header gives no property. */
  lemma {:induction false} AssignKeys(headers: seq<string>, values: seq<JsValue>, n: nat)
    requires n <= |headers| && n <= |values|
    ensures forall h :: h in Keys(Assign(headers, values, n)) <==> h in headers[..n] && h != ProtoKey
  {
    if n > 0 {
      AssignKeys(headers, values, n - 1);
      SetPropSpec(Assign(headers, values, n - 1), headers[n - 1], values[n - 1]);
      assert headers[..n] == headers[..n - 1] + [headers[n - 1]];
    }
  }

  /** A column's property holds its value unless a later column has the
      same name: with duplicate names the last column wins. A `__proto__`
      column leaves no property to read. */
  lemma {:induction false} AssignValue(headers: seq<string>, values: seq<JsValue>, n: nat, j: nat)
    requires j < n <= |headers| && n <= |values|
    requires forall k :: j < k < n ==> headers[k] != headers[j]
    ensures PropOf(Assign(headers, values, n), headers[j]) == (if headers[j] == ProtoKey then Undefined else values[j])
  {
    if headers[j] == ProtoKey {
      AssignKeys(headers, values, n);
      MissingPropUndefined(Assign(headers, values, n), ProtoKey);
    } else {
      SetPropSpec(Assign(headers, values, n - 1), headers[n - 1], values[n - 1]);
      if j < n - 1 {
        AssignValue(headers, values, n - 1, j);
      }
    }
  }

  /** In a record, the property of the last column with a given name holds
      that column's reading, a missing cell reading as the empty string; a
      `__proto__` column gives no property. */
  lemma RowValue(headers: seq<string>, line: string, number: NumberOf, j: nat)
    requires j < |headers|
    requires forall k :: j < k < |headers| ==> headers[k] != headers[j]
    ensures PropOf(Row(headers, line, number), headers[j])
            == (if headers[j] == ProtoKey then Undefined else Classify(Cell(Split(line, ','), j), number))
  {
    AssignValue(headers, Readings(Split(line, ','), number, |headers|), |headers|, j);
  }

  /** The lines among `lines[1..n]` that are not blank, in order. */
  function DataLines(lines: seq<string>, n: nat): (r: seq<string>)
    requires n <= |lines|
    ensures forall k :: 0 <= k < |r| ==> !Blank(r[k])
  {
    if n <= 1 then []
    else DataLines(lines, n - 1) + (if Blank(lines[n - 1]) then [] else [lines[n - 1]])
  }

  /** One record per data line after the header line, in line order. */
  lemma {:induction false} RecordPerDataLine(lines: seq<string>, headers: seq<string>, number: NumberOf, n: nat)
    requires n <= |lines|
    ensures var records := RecordsUpTo(lines, headers, number, n);
            var data := DataLines(lines, n);
            |records| == |data|
            && forall k :: 0 <= k < |records| ==> records[k] == Row(headers, data[k], number)
  {
    if n > 1 {
      RecordPerDataLine(lines, headers, number, n - 1);
    }
  }

  /** `parseCSV` returns one record per non-blank line after the first,
      each keyed by exactly the header names other than `__proto__`. */
  lemma ParseShape(text: string, number: NumberOf)
    ensures var lines := Split(text, '\n');
            var records := Parse(text, number);
            var data := DataLines(lines, |lines|);
            && |records| == |data|
            && forall k :: 0 <= k < |records| ==>
                 && records[k] == Row(Headers(text), data[k], number)
                 && forall h :: h in Keys(records[k]) <==> h in Headers(text) && h != ProtoKey
  {
    var lines := Split(text, '\n');
    var headers := Headers(text);
    RecordPerDataLine(lines, headers, number, |lines|);
    var data := DataLines(lines, |lines|);
    forall k | 0 <= k < |data|
      ensures forall h :: h in Keys(Row(headers, data[k], number)) <==> h in headers && h != ProtoKey
    {
      AssignKeys(headers, Readings(Split(data[k], ','), number, |headers|), |headers|);
      assert headers[..|headers|] == headers;
    }
  }
}
