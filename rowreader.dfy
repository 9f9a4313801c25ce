/**
 * The row reader of gomodules/database/rowreader.go: a cursor over query
 * results that scans each row into one slot per column, typed accessors over
 * a slot, and a reflective copy of a row into a struct.
 *
 * A slot holds whatever dynamic type the driver stored (`Cell`). A Go panic
 * raised by an accessor is the `Failure` of its result. The struct a row is
 * copied into is a `Record`: its exported fields by name, each with its kind
 * and current value.
 */
module RowReaders {
  import opened Wrappers
  import opened Errors
  import opened Decimal
  import opened Rfc3339

  newtype byte = x: int | 0 <= x < 256

  type int64 = x: int | InInt64(x)

  /** The dynamic type of a scanned slot (`interface{}`). */
  datatype Cell =
    | Str(s: string)
    | Bytes(b: seq<byte>)
    | Int64(i: int64)
    | TimeValue(t: Time)
    | Null
    | Other

  /** A string whose every element is one byte, as Go strings are. */
  predicate IsByteString(s: string)
  {
    forall k :: 0 <= k < |s| ==> s[k] as int < 256
  }

  /** Go's `string(b)`. */
  function BytesToString(b: seq<byte>): (s: string)
    ensures |s| == |b| && IsByteString(s)
  {
    seq(|b|, k requires 0 <= k < |b| => (b[k] as int) as char)
  }

  /** Go's `[]byte(s)`. */
  function StringToBytes(s: string): (b: seq<byte>)
    requires IsByteString(s)
    ensures |b| == |s|
  {
    seq(|s|, k requires 0 <= k < |s| => s[k] as int as byte)
  }

  lemma BytesStringRoundTrip(b: seq<byte>)
    ensures StringToBytes(BytesToString(b)) == b
  {
    var t := StringToBytes(BytesToString(b));
    assert forall k | 0 <= k < |b| :: t[k] == b[k];
  }

  lemma StringBytesRoundTrip(s: string)
    requires IsByteString(s)
    ensures BytesToString(StringToBytes(s)) == s
  {
    var t := BytesToString(StringToBytes(s));
    assert forall k | 0 <= k < |s| :: t[k] == s[k];
  }

  /** `ReadByIdxString` on one slot: a string as is, bytes as their string. */
  function ReadString(c: Cell): (r: Result<string, Error>)
    ensures r.Success? <==> c.Str? || c.Bytes?
    ensures c.Str? ==> r.value == c.s
    ensures c.Bytes? ==> IsByteString(r.value) && StringToBytes(r.value) == c.b
    ensures c.Null? ==> r == Failure(SentinelError(NullValue))
    ensures r.Failure? && !c.Null? ==> r.error == SentinelError(WrongType)
  {
    match c
    case Str(s) => Success(s)
    case Bytes(b) =>
      BytesStringRoundTrip(b);
      Success(BytesToString(b))
    case Null => Failure(SentinelError(NullValue))
    case _ => Failure(SentinelError(WrongType))
  }

  /** `ReadByIdxInt64` on one slot: an int64 as is, bytes through `strconv.ParseInt(s, 10, 64)`. */
  function ReadInt64(c: Cell): (r: Result<int64, Error>)
    ensures c.Int64? ==> r == Success(c.i)
    ensures c.Bytes? ==>
      (r.Success? <==> IsDecimal(BytesToString(c.b)) && InInt64(DecimalValue(BytesToString(c.b))))
    ensures c.Bytes? && r.Success? ==> r.value == DecimalValue(BytesToString(c.b))
    ensures c.Null? ==> r == Failure(SentinelError(NullValue))
    ensures r.Failure? && !c.Null? ==> r.error == SentinelError(WrongType)
  {
    match c
    case Int64(i) => Success(i)
    case Bytes(b) =>
      (match ParseInt64(BytesToString(b))
       case Some(i) => Success(i)
       case None => Failure(SentinelError(WrongType)))
    case Null => Failure(SentinelError(NullValue))
    case _ => Failure(SentinelError(WrongType))
  }

  /** `ReadByIdxTime` on one slot: a time as is, bytes through `time.Parse(time.RFC3339Nano, s)`. */
  function ReadTime(c: Cell): (r: Result<Time, Error>)
    ensures c.TimeValue? ==> r == Success(c.t)
    ensures c.Bytes? ==> (r.Success? <==> Parse(BytesToString(c.b)).Some?)
    ensures c.Bytes? && r.Success? ==> Some(r.value) == Parse(BytesToString(c.b)) && ValidTime(r.value)
    ensures c.Null? ==> r == Failure(SentinelError(NullValue))
    ensures r.Failure? && !c.Null? ==> r.error == SentinelError(WrongType)
  {
    match c
    case TimeValue(t) => Success(t)
    case Bytes(b) =>
      (match Parse(BytesToString(b))
       case Some(t) => Success(t)
       case None => Failure(SentinelError(WrongType)))
    case Null => Failure(SentinelError(NullValue))
    case _ => Failure(SentinelError(WrongType))
  }

  lemma DigitsAreBytes(d: string)
    requires AllDigits(d)
    ensures IsByteString(d)
  {
    assert forall k | 0 <= k < |d| :: IsDigit(d[k]);
  }

  /** An integer a driver sends as decimal text reads back as itself. */
  lemma ReadInt64OfText(v: int64)
    ensures IsByteString(FormatInt64(v))
    ensures ReadInt64(Bytes(StringToBytes(FormatInt64(v)))) == Success(v)
  {
    var s := FormatInt64(v);
    if v < 0 {
      DigitsAreBytes(FormatNat(-(v as int)));
    } else {
      DigitsAreBytes(FormatNat(v));
    }
    StringBytesRoundTrip(s);
    Decimal.FormatParseRoundTrip(v);
  }

  /** Text that is not a decimal numeral is the wrong type, whatever its length. */
  lemma ReadInt64RejectsNonNumeral(b: seq<byte>)
    requires !IsDecimal(BytesToString(b))
    ensures ReadInt64(Bytes(b)) == Failure(SentinelError(WrongType))
  {
  }

  lemma FormatIsBytes(t: Time)
    requires ValidTime(t)
    ensures IsByteString(Format(t))
  {
    Pow10Nine();
    var pieces := [Fixed(t.year, 4), Fixed(t.month, 2), Fixed(t.day, 2), Fixed(t.hour, 2),
                   Fixed(t.minute, 2), Fixed(t.second, 2), Fixed(t.nanos, 9)];
    forall k | 0 <= k < |pieces|
      ensures IsByteString(pieces[k])
    {
      DigitsAreBytes(pieces[k]);
    }
    if t.offsetMinutes != 0 {
      var a := if t.offsetMinutes < 0 then -t.offsetMinutes else t.offsetMinutes;
      DigitsAreBytes(Fixed(a / 60, 2));
      DigitsAreBytes(Fixed(a % 60, 2));
    }
  }

  /** A timestamp a driver sends as RFC 3339 text reads back as itself. */
  lemma ReadTimeOfText(t: Time)
    requires ValidTime(t)
    ensures IsByteString(Format(t))
    ensures ReadTime(Bytes(StringToBytes(Format(t)))) == Success(t)
  {
    FormatIsBytes(t);
    StringBytesRoundTrip(Format(t));
    Rfc3339.FormatParseRoundTrip(t);
  }

  // ----- Copying a row into a struct -----

  datatype IntWidth = W8 | W16 | W32 | W64

  /** The kind of a struct field; Go's `int` is `KindInt(W64)` on the 64-bit platforms the server runs on. */
  datatype Kind = KindString | KindInt(width: IntWidth) | KindOther(name: string)

  datatype FieldValue = StringValue(s: string) | IntValue(i: int) | OtherValue

  datatype Field = Field(kind: Kind, value: FieldValue)

  /** Half the modulus of a width: its values are `[-Half(w), Half(w))`. */
  function Half(w: IntWidth): int
  {
    match w
    case W8 => 0x80
    case W16 => 0x8000
    case W32 => 0x8000_0000
    case W64 => 0x8000_0000_0000_0000
  }

  /** The two's-complement truncation `reflect.Value.SetInt` performs on a narrower field. */
  function Truncate(x: int, w: IntWidth): (r: int)
    ensures -Half(w) <= r < Half(w)
    ensures -Half(w) <= x < Half(w) ==> r == x
  {
    var y := x % (2 * Half(w));
    if y >= Half(w) then y - 2 * Half(w) else y
  }

  /** Truncation keeps the value modulo the width's modulus. */
  lemma TruncateCongruent(x: int, w: IntWidth)
    ensures (x - Truncate(x, w)) % (2 * Half(w)) == 0
  {
    match w
    case W8 => CongruentW8(x);
    case W16 => CongruentW16(x);
    case W32 => CongruentW32(x);
    case W64 => CongruentW64(x);
  }

  lemma CongruentW8(x: int)
    ensures (x - Truncate(x, W8)) % 0x100 == 0
  {
    assert Truncate(x, W8) == if x % 0x100 >= 0x80 then x % 0x100 - 0x100 else x % 0x100;
  }

  lemma CongruentW16(x: int)
    ensures (x - Truncate(x, W16)) % 0x1_0000 == 0
  {
    assert Truncate(x, W16) == if x % 0x1_0000 >= 0x8000 then x % 0x1_0000 - 0x1_0000 else x % 0x1_0000;
  }

  lemma CongruentW32(x: int)
    ensures (x - Truncate(x, W32)) % 0x1_0000_0000 == 0
  {
    assert Truncate(x, W32) == if x % 0x1_0000_0000 >= 0x8000_0000 then x % 0x1_0000_0000 - 0x1_0000_0000 else x % 0x1_0000_0000;
  }

  lemma CongruentW64(x: int)
    ensures (x - Truncate(x, W64)) % 0x1_0000_0000_0000_0000 == 0
  {
    assert Truncate(x, W64) == if x % 0x1_0000_0000_0000_0000 >= 0x8000_0000_0000_0000 then x % 0x1_0000_0000_0000_0000 - 0x1_0000_0000_0000_0000 else x % 0x1_0000_0000_0000_0000;
  }

  /** The value one non-null slot gives a field of the struct, or the panic it raises. */
  function Assign(f: Field, c: Cell): (r: Result<Field, Error>)
    ensures r.Success? ==> r.value.kind == f.kind
    ensures f.kind.KindString? ==>
      (r.Success? <==> ReadString(c).Success?) && (r.Success? ==> r.value.value == StringValue(ReadString(c).value))
    ensures f.kind.KindInt? ==>
      (r.Success? <==> ReadInt64(c).Success?) &&
      (r.Success? ==> r.value.value == IntValue(Truncate(ReadInt64(c).value, f.kind.width)))
    ensures f.kind.KindOther? ==> r == Failure(SentinelError(Unsupported))
    ensures r.Failure? && !c.Null? ==> r.error != SentinelError(NullValue)
  {
    match f.kind
    case KindString =>
      (match ReadString(c)
       case Success(s) => Success(Field(f.kind, StringValue(s)))
       case Failure(e) => Failure(e))
    case KindInt(w) =>
      (match ReadInt64(c)
       case Success(i) => Success(Field(f.kind, IntValue(Truncate(i, w))))
       case Failure(e) => Failure(e))
    case KindOther(_) => Failure(SentinelError(Unsupported))
  }

  /**
   * The columns from `i` on copied into the fields: null slots and names with
   * no field are skipped, and the first panic ends the copy with the fields
   * set so far.
   */
  function Fill(fields: map<string, Field>, columns: seq<string>, cells: seq<Cell>, i: nat)
    : (r: (map<string, Field>, Option<Error>))
    requires |columns| == |cells| && i <= |columns|
    ensures r.0.Keys == fields.Keys
    ensures forall name :: name in fields ==> r.0[name].kind == fields[name].kind
    ensures r.1.Some? ==> r.1.value != SentinelError(NullValue)
    decreases |columns| - i
  {
    if i == |columns| then (fields, None)
    else if cells[i].Null? || columns[i] !in fields then Fill(fields, columns, cells, i + 1)
    else
      match Assign(fields[columns[i]], cells[i])
      case Failure(e) => (fields, Some(e))
      case Success(f) => Fill(fields[columns[i] := f], columns, cells, i + 1)
  }

  /** A field that no non-null column from `i` on names keeps its value. */
  lemma {:induction false} FillLeavesUnmatched(fields: map<string, Field>, columns: seq<string>, cells: seq<Cell>,
                                               i: nat, name: string)
    requires |columns| == |cells| && i <= |columns| && name in fields
    requires forall k :: i <= k < |columns| && columns[k] == name ==> cells[k].Null?
    ensures Fill(fields, columns, cells, i).0[name] == fields[name]
    decreases |columns| - i
  {
    if i < |columns| {
      if cells[i].Null? || columns[i] !in fields {
        FillLeavesUnmatched(fields, columns, cells, i + 1, name);
      } else if Assign(fields[columns[i]], cells[i]).Success? {
        var f := Assign(fields[columns[i]], cells[i]).value;
        FillLeavesUnmatched(fields[columns[i] := f], columns, cells, i + 1, name);
      }
    }
  }

  /** A field of a kind other than string or signed integer that some non-null column names: the copy panics. */
  lemma {:induction false} FillUnsupported(fields: map<string, Field>, columns: seq<string>, cells: seq<Cell>,
                                           i: nat, k: nat)
    requires |columns| == |cells| && i <= k < |columns|
    requires !cells[k].Null? && columns[k] in fields && fields[columns[k]].kind.KindOther?
    ensures Fill(fields, columns, cells, i).1.Some?
    decreases k - i
  {
    if i < k {
      if cells[i].Null? || columns[i] !in fields {
        FillUnsupported(fields, columns, cells, i + 1, k);
      } else if Assign(fields[columns[i]], cells[i]).Success? {
        var f := Assign(fields[columns[i]], cells[i]).value;
        FillUnsupported(fields[columns[i] := f], columns, cells, i + 1, k);
      }
    }
  }

  /**
   * Without a panic, each field named by a non-null column holds the value of
   * the last such column: a repeated name (two `Id` columns of a join) is set
   * by every non-null occurrence, and the last one wins.
   */
  lemma {:induction false} FillSets(fields: map<string, Field>, columns: seq<string>, cells: seq<Cell>,
                                    i: nat, k: nat)
    requires |columns| == |cells| && i <= k < |columns|
    requires forall j :: k < j < |columns| && columns[j] == columns[k] ==> cells[j].Null?
    requires Fill(fields, columns, cells, i).1.None?
    requires !cells[k].Null? && columns[k] in fields
    ensures Assign(fields[columns[k]], cells[k]).Success?
    ensures Fill(fields, columns, cells, i).0[columns[k]] == Assign(fields[columns[k]], cells[k]).value
    decreases k - i
  {
    if i == k {
      var f := Assign(fields[columns[k]], cells[k]).value;
      FillLeavesUnmatched(fields[columns[k] := f], columns, cells, i + 1, columns[k]);
    } else if !cells[i].Null? && columns[i] in fields {
      var f := Assign(fields[columns[i]], cells[i]).value;
      var fields' := fields[columns[i] := f];
      assert fields'[columns[k]].kind == fields[columns[k]].kind;
      AssignByKind(fields'[columns[k]], fields[columns[k]], cells[k]);
      FillSets(fields', columns, cells, i + 1, k);
    } else {
      FillSets(fields, columns, cells, i + 1, k);
    }
  }

  /** What a cell stores into a field depends only on the field's kind, not on its old value. */
  lemma AssignByKind(f: Field, g: Field, c: Cell)
    requires f.kind == g.kind
    ensures Assign(f, c) == Assign(g, c)
  {
  }

  /** Two non-null columns with one name: the later one's value is what the field keeps. */
  lemma RepeatedColumnLastWins(fields: map<string, Field>, name: string, first: Cell, second: Cell)
    requires name in fields && !first.Null? && !second.Null?
    requires Fill(fields, [name, name], [first, second], 0).1.None?
    ensures Assign(fields[name], second).Success?
    ensures Fill(fields, [name, name], [first, second], 0).0[name] == Assign(fields[name], second).value
  {
    FillSets(fields, [name, name], [first, second], 0, 1);
  }

  /** The fields of `BookEntity` (data/book.go) at their zero values; `time.Time` is a struct kind. */
  function BookEntityFields(): map<string, Field>
  {
    map["BookId" := Field(KindString, StringValue("")),
        "BookName" := Field(KindString, StringValue("")),
        "AuthorName" := Field(KindString, StringValue("")),
        "Publisher" := Field(KindString, StringValue("")),
        "Description" := Field(KindString, StringValue("")),
        "Status" := Field(KindInt(W64), IntValue(0)),
        "CreatedAt" := Field(KindOther("struct"), OtherValue),
        "UpdatedAt" := Field(KindOther("struct"), OtherValue),
        "BorrowerId" := Field(KindString, StringValue(""))]
  }

  /** A row with a non-null `CreatedAt` cannot be copied into a `BookEntity`. */
  lemma BookEntityCreatedAtUnsupported(id: string, created: Cell)
    requires created != Null
    ensures Fill(BookEntityFields(), ["BookId", "CreatedAt"], [Str(id), created], 0)
            == (BookEntityFields()["BookId" := Field(KindString, StringValue(id))], Some(SentinelError(Unsupported)))
  {
  }

  /** A null `CreatedAt` is skipped, and the other columns are copied. */
  lemma BookEntityNullCreatedAt(id: string, status: int64)
    ensures Fill(BookEntityFields(), ["BookId", "Status", "CreatedAt"], [Str(id), Int64(status), Null], 0)
            == (BookEntityFields()["BookId" := Field(KindString, StringValue(id))]
                                  ["Status" := Field(KindInt(W64), IntValue(status))], None)
  {
  }

  /** A struct in memory: its exported fields by name; `isStruct` is false for a pointer to any other type. */
  class Record {
    var isStruct: bool
    var fields: map<string, Field>

    constructor (isStruct: bool, fields: map<string, Field>)
      ensures this.isStruct == isStruct && this.fields == fields
    {
      this.isStruct := isStruct;
      this.fields := fields;
    }
  }

  /** The argument of `ReadAllToStruct`: a pointer to a record, or a value that is not a pointer. */
  datatype Target = NotPointer | Pointer(rec: Record)

  /** What `rows.Next` then `rows.Scan` meet: a row of slots, or a scan error. */
  datatype Fetch = Row(cells: seq<Cell>) | ScanFailed(err: Error)

  class RowReader {
    const columns: seq<string>
    const values: array<Cell>
    /** `valuePtrs[i]` is the slot of `values` that the i-th scan destination points to. */
    const valuePtrs: array<nat>
    var lastError: Option<Error>
    /** The rows the driver's cursor has yet to deliver. */
    var cursor: seq<Fetch>

    ghost predicate Valid()
      reads this, valuePtrs
    {
      && values.Length == |columns| && valuePtrs.Length == |columns|
      && (forall i :: 0 <= i < valuePtrs.Length ==> valuePtrs[i] == i)
      && (forall k :: 0 <= k < |cursor| && cursor[k].Row? ==> |cursor[k].cells| == |columns|)
    }

    /** The reader `getRowReader` builds once the column names are known: one nil slot per column and a pointer to each. */
    constructor (columns: seq<string>, cursor: seq<Fetch>)
      requires forall k :: 0 <= k < |cursor| && cursor[k].Row? ==> |cursor[k].cells| == |columns|
      ensures Valid() && fresh(values) && fresh(valuePtrs)
      ensures this.columns == columns && this.cursor == cursor && lastError == None
      ensures forall i :: 0 <= i < values.Length ==> values[i] == Null
    {
      var n := |columns|;
      var ptrs := new nat[n];
      for i := 0 to n
        invariant forall j :: 0 <= j < i ==> ptrs[j] == j
      {
        ptrs[i] := i;
      }
      this.columns := columns;
      this.values := new Cell[n](_ => Null);
      this.valuePtrs := ptrs;
      this.lastError := None;
      this.cursor := cursor;
    }

    /** `getRowReader`: a failed `Columns()` is returned as is; otherwise a reader over the columns. */
    static method GetRowReader(columns: Result<seq<string>, Error>, cursor: seq<Fetch>)
      returns (r: Result<RowReader, Error>)
      requires columns.Success? ==>
        forall k :: 0 <= k < |cursor| && cursor[k].Row? ==> |cursor[k].cells| == |columns.value|
      ensures r.Failure? <==> columns.Failure?
      ensures r.Failure? ==> r.error == columns.error
      ensures r.Success? ==> fresh(r.value) && r.value.Valid() && r.value.columns == columns.value
                             && r.value.cursor == cursor && r.value.lastError == None
                             && forall i :: 0 <= i < r.value.values.Length ==> r.value.values[i] == Null
    {
      if columns.Failure? {
        return Failure(columns.error);
      }
      var rr := new RowReader(columns.value, cursor);
      r := Success(rr);
    }

    /** `Error`: the error of the last scan. */
    function Error(): Option<Error>
      reads this
    {
      lastError
    }

    /** `ScanNext`: step the cursor and scan the row through the slot pointers. */
    method ScanNext() returns (hasMore: bool)
      requires Valid()
      modifies this, values
      ensures Valid()
      ensures old(cursor) == [] ==>
        !hasMore && cursor == [] && lastError == old(lastError) && values[..] == old(values[..])
      ensures old(cursor) != [] ==> cursor == old(cursor)[1..]
      ensures old(cursor) != [] && old(cursor)[0].ScanFailed? ==>
        !hasMore && lastError == Some(old(cursor)[0].err) && values[..] == old(values[..])
      ensures old(cursor) != [] && old(cursor)[0].Row? ==>
        hasMore && lastError == None && values[..] == old(cursor)[0].cells
    {
      if cursor == [] {
        return false;
      }
      var fetch := cursor[0];
      cursor := cursor[1..];
      assert forall k :: 0 <= k < |cursor| ==> cursor[k] == old(cursor)[k + 1];
      hasMore := true;
      match fetch
      case ScanFailed(err) =>
        lastError := Some(err);
        hasMore := false;
      case Row(cells) =>
        assert |cells| == values.Length;
        for i := 0 to valuePtrs.Length
          invariant cursor == old(cursor)[1..]
          invariant forall j :: 0 <= j < i ==> values[j] == cells[j]
        {
          values[valuePtrs[i]] := cells[i];
        }
        lastError := None;
    }

    /** `ReadByIdxString`: an index outside the row panics. */
    function ReadByIdxString(columnIdx: int): (r: Result<string, Error>)
      reads values
      ensures !(0 <= columnIdx < values.Length) ==> r == Failure(SentinelError(IndexOutOfRange))
      ensures 0 <= columnIdx < values.Length ==> r == ReadString(values[columnIdx])
    {
      if 0 <= columnIdx < values.Length then ReadString(values[columnIdx])
      else Failure(SentinelError(IndexOutOfRange))
    }

    /** `ReadByIdxInt64`: an index outside the row panics. */
    function ReadByIdxInt64(columnIdx: int): (r: Result<int64, Error>)
      reads values
      ensures !(0 <= columnIdx < values.Length) ==> r == Failure(SentinelError(IndexOutOfRange))
      ensures 0 <= columnIdx < values.Length ==> r == ReadInt64(values[columnIdx])
    {
      if 0 <= columnIdx < values.Length then ReadInt64(values[columnIdx])
      else Failure(SentinelError(IndexOutOfRange))
    }

    /** `ReadByIdxTime`: an index outside the row panics. */
    function ReadByIdxTime(columnIdx: int): (r: Result<Time, Error>)
      reads values
      ensures !(0 <= columnIdx < values.Length) ==> r == Failure(SentinelError(IndexOutOfRange))
      ensures 0 <= columnIdx < values.Length ==> r == ReadTime(values[columnIdx])
    {
      if 0 <= columnIdx < values.Length then ReadTime(values[columnIdx])
      else Failure(SentinelError(IndexOutOfRange))
    }

    /** `ReadAllToStruct`: copy the current row into the fields of the struct `p` points to. */
    method ReadAllToStruct(p: Target) returns (panicked: Option<Error>)
      requires Valid()
      modifies if p.Pointer? then {p.rec} else {}
      ensures p.Pointer? ==> p.rec.isStruct == old(p.rec.isStruct)
      ensures !(p.Pointer? && old(p.rec.isStruct)) ==> panicked == None
      ensures p.Pointer? && !old(p.rec.isStruct) ==> p.rec.fields == old(p.rec.fields)
      ensures p.Pointer? && old(p.rec.isStruct) ==>
        (p.rec.fields, panicked) == Fill(old(p.rec.fields), columns, values[..], 0)
    {
      panicked := None;
      if !p.Pointer? {
        return;
      }
      var rec := p.rec;
      if !rec.isStruct {
        return;
      }
      var i := 0;
      while i < |columns|
        invariant 0 <= i <= |columns|
        invariant rec.isStruct
        invariant Fill(rec.fields, columns, values[..], i) == Fill(old(rec.fields), columns, values[..], 0)
      {
        var name := columns[i];
        if values[i] != Null && name in rec.fields {
          var r := Assign(rec.fields[name], values[i]);
          if r.Failure? {
            panicked := Some(r.error);
            return;
          }
          rec.fields := rec.fields[name := r.value];
        }
        i := i + 1;
      }
    }
  }
}
