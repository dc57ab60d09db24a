/** The two generic renderers every catalog entry delegates to:
    `_format_dict` (one record, nested records expanded one level) and
    `_format_list_of_dicts` (a numbered line per record, projecting a
    declared field list). Each is a method that builds its lines step by
    step, proved equal to a specification function on lines. */
module Primitives {
  import opened Text
  import opened Records

  /** The line `_format_list_of_dicts` prints for an empty list. */
  const NoDataLine := "Tidak ada data ditemukan."

  // ---------------------------------------------------------------------
  // _format_dict

  /** `f"{Key}: {value}"` */
  function FieldLine(key: string, v: Value): string
  {
    Humanize(key) + ": " + Str(v)
  }

  /** The indented lines of a nested record, one per entry. */
  function SubLines(sub: Record): seq<string>
  {
    seq(|sub|, j requires 0 <= j < |sub| => "  " + FieldLine(sub[j].0, sub[j].1))
  }

  /** The lines one top-level entry contributes: a `Key:` heading and the
      nested entries for a nested record, a `Key: value` line otherwise. */
  function EntryLines(e: (string, Value)): seq<string>
  {
    match e.1
    case Nested(sub) => [Humanize(e.0) + ":"] + SubLines(sub)
    case Scalar(_) => [FieldLine(e.0, e.1)]
  }

  /** The entries' lines, in the record's own order. */
  function BodyLines(data: Record): seq<string>
  {
    if |data| == 0 then []
    else BodyLines(data[..|data| - 1]) + EntryLines(data[|data| - 1])
  }

  /** The lines `_format_dict(data, title)` joins. */
  function DictLines(data: Record, title: string): seq<string>
  {
    [Header(title)] + BodyLines(data) + [Rule(|title| + 8)]
  }

  /** The inner loop of `_format_dict`: the indented lines of a nested
      record, appended one entry at a time. */
  method FormatNested(sub: Record) returns (lines: seq<string>)
    ensures lines == SubLines(sub)
  {
    lines := [];
    for j := 0 to |sub|
      invariant lines == SubLines(sub[..j])
    {
      lines := lines + ["  " + FieldLine(sub[j].0, sub[j].1)];
      assert SubLines(sub[..j + 1]) == SubLines(sub[..j]) + ["  " + FieldLine(sub[j].0, sub[j].1)];
    }
    assert sub[..|sub|] == sub;
  }

  /** The body of `_format_dict`'s loop: the lines of one entry. */
  method FormatEntry(e: (string, Value)) returns (lines: seq<string>)
    ensures lines == EntryLines(e)
  {
    var (key, value) := e;
    if value.Nested? {
      var nested := FormatNested(value.entries);
      lines := [Humanize(key) + ":"] + nested;
    } else {
      lines := [FieldLine(key, value)];
    }
  }

  /** The loop of `_format_dict` over the record's entries. */
  method FormatBody(data: Record) returns (lines: seq<string>)
    ensures lines == BodyLines(data)
  {
    lines := [];
    for i := 0 to |data|
      invariant lines == BodyLines(data[..i])
    {
      var entry := FormatEntry(data[i]);
      BodyLinesStep(data, i);
      lines := lines + entry;
    }
    assert data[..|data|] == data;
  }

  /** `_format_dict(data, title)` */
  method FormatDict(data: Record, title: string) returns (text: string)
    ensures text == JoinLines(DictLines(data, title))
  {
    var output := [Header(title)];
    var body := FormatBody(data);
    output := output + body;
    output := output + [Rule(|title| + 8)];
    text := JoinLines(output);
  }

  lemma {:induction false} BodyLinesAppend(a: Record, b: Record)
    ensures BodyLines(a + b) == BodyLines(a) + BodyLines(b)
  {
    if |b| > 0 {
      var b' := b[..|b| - 1];
      assert (a + b)[..|a + b| - 1] == a + b';
      BodyLinesAppend(a, b');
    } else {
      assert a + b == a;
    }
  }

  /** `_format_dict` opens with the title banner and closes with a rule of
      dashes exactly as long as that banner. */
  lemma DictFraming(data: Record, title: string)
    ensures var lines := DictLines(data, title);
      |lines| >= 2 && lines[0] == "--- " + title + " ---" &&
      lines[|lines| - 1] == Rule(|title| + 8) && |lines[|lines| - 1]| == |lines[0]|
  {
  }

  lemma BodyLinesStep(data: Record, i: nat)
    requires i < |data|
    ensures BodyLines(data[..i + 1]) == BodyLines(data[..i]) + EntryLines(data[i])
  {
    assert data[..i + 1][..i] == data[..i];
  }

  lemma BodyLinesSplit(data: Record, i: nat)
    requires i < |data|
    ensures BodyLines(data) == BodyLines(data[..i]) + EntryLines(data[i]) + BodyLines(data[i + 1..])
  {
    var front := data[..i + 1];
    var back := data[i + 1..];
    assert data == front + back;
    BodyLinesAppend(front, back);
    BodyLinesStep(data, i);
  }

  lemma BodyLinesRest(data: Record, i: nat) returns (post: seq<string>)
    requires i < |data|
    ensures BodyLines(data) == BodyLines(data[..i]) + EntryLines(data[i]) + post
  {
    BodyLinesSplit(data, i);
    post := BodyLines(data[i + 1..]);
  }

  /** The entries are rendered in the record's order, each as its own
      block: the blocks of entries 0..i, the i-th last, are the beginning
      of the body between the banner and the rule. */
  lemma DictEntryBlock(data: Record, i: nat)
    requires i < |data|
    ensures BodyLines(data[..i]) + EntryLines(data[i]) <= BodyLines(data)
  {
    var post := BodyLinesRest(data, i);
  }

  /** An entry with a scalar value gives one `Key: value` line; an entry
      whose value is a nested record gives a `Key:` heading followed by one
      two-space-indented `Key: value` line per nested entry. */
  lemma EntryLinesShape(e: (string, Value))
    ensures e.1.Scalar? ==> EntryLines(e) == [Humanize(e.0) + ": " + e.1.text]
    ensures e.1.Nested? ==>
      var sub := e.1.entries;
      var blk := EntryLines(e);
      |blk| == 1 + |sub| && blk[0] == Humanize(e.0) + ":" &&
      forall j :: 0 <= j < |sub| ==> blk[1 + j] == "  " + Humanize(sub[j].0) + ": " + Str(sub[j].1)
  {
  }

  /** A record without nested values renders as the banner, one
      `Key: value` line per entry in the record's order, and the rule. */
  lemma {:induction false} FlatDictLines(data: Record, title: string)
    requires forall i :: 0 <= i < |data| ==> data[i].1.Scalar?
    ensures var lines := DictLines(data, title);
      |lines| == |data| + 2 &&
      forall i :: 0 <= i < |data| ==> lines[i + 1] == Humanize(data[i].0) + ": " + data[i].1.text
  {
    FlatBodyLines(data);
  }

  lemma {:induction false} FlatBodyLines(data: Record)
    requires forall i :: 0 <= i < |data| ==> data[i].1.Scalar?
    ensures |BodyLines(data)| == |data|
    ensures forall i :: 0 <= i < |data| ==> BodyLines(data)[i] == Humanize(data[i].0) + ": " + data[i].1.text
  {
    if |data| > 0 {
      FlatBodyLines(data[..|data| - 1]);
    }
  }

  // ---------------------------------------------------------------------
  // _format_list_of_dicts

  /** `f"{Field}: {item.get(field, 'N/A')}"` */
  function Cell(item: Record, field: string): string
  {
    Humanize(field) + ": " + GetOr(item, field)
  }

  /** One cell per declared field, in declared order. */
  function Cells(item: Record, fields: seq<string>): seq<string>
  {
    seq(|fields|, j requires 0 <= j < |fields| => Cell(item, fields[j]))
  }

  /** `f"{n}. {', '.join(item_details)}"` */
  function ItemLine(n: nat, item: Record, fields: seq<string>): string
  {
    NatToString(n) + ". " + Join(Cells(item, fields), ", ")
  }

  /** The numbered item lines; the i-th item (from 0) is numbered i + 1. */
  function ItemLines(items: seq<Record>, fields: seq<string>): seq<string>
  {
    seq(|items|, i requires 0 <= i < |items| => ItemLine(i + 1, items[i], fields))
  }

  /** The lines `_format_list_of_dicts(items, title, fields)` joins. */
  function ListLines(items: seq<Record>, title: string, fields: seq<string>): seq<string>
  {
    if |items| == 0 then [Header(title), NoDataLine]
    else [Header(title)] + ItemLines(items, fields) + [Rule(|title| + 8)]
  }

  /** The inner loop of `_format_list_of_dicts`: one cell per field. */
  method FormatCells(item: Record, fields: seq<string>) returns (details: seq<string>)
    ensures details == Cells(item, fields)
  {
    details := [];
    for j := 0 to |fields|
      invariant details == Cells(item, fields[..j])
    {
      details := details + [Humanize(fields[j]) + ": " + GetOr(item, fields[j])];
      assert Cells(item, fields[..j + 1]) == Cells(item, fields[..j]) + [Cell(item, fields[j])];
    }
    assert fields[..|fields|] == fields;
  }

  /** The outer loop of `_format_list_of_dicts`: one numbered line per
      item. */
  method FormatItemLines(data: seq<Record>, fields: seq<string>) returns (lines: seq<string>)
    ensures lines == ItemLines(data, fields)
  {
    lines := [];
    for i := 0 to |data|
      invariant lines == ItemLines(data[..i], fields)
    {
      var details := FormatCells(data[i], fields);
      lines := lines + [NatToString(i + 1) + ". " + Join(details, ", ")];
      assert ItemLines(data[..i + 1], fields) == ItemLines(data[..i], fields) + [ItemLine(i + 1, data[i], fields)];
    }
    assert data[..|data|] == data;
  }

  /** `_format_list_of_dicts(data, title, fields)`; a None list is passed
      as the empty sequence. */
  method FormatListOfDicts(data: seq<Record>, title: string, fields: seq<string>) returns (text: string)
    ensures text == JoinLines(ListLines(data, title, fields))
  {
    var output := [Header(title)];
    if |data| == 0 {
      output := output + [NoDataLine];
      text := JoinLines(output);
      return;
    }
    var lines := FormatItemLines(data, fields);
    output := output + lines;
    output := output + [Rule(|title| + 8)];
    text := JoinLines(output);
  }

  /** An empty list renders as exactly two lines, the banner and the
      no-data line, with no closing rule. */
  lemma ListEmpty(title: string, fields: seq<string>)
    ensures ListLines([], title, fields) == ["--- " + title + " ---", "Tidak ada data ditemukan."]
  {
  }

  /** A list of n > 0 records renders as the banner, n item lines numbered
      1 to n in input order, each listing every declared field in declared
      order joined by ", ", and a rule as long as the banner. */
  lemma ListShape(items: seq<Record>, title: string, fields: seq<string>)
    requires |items| > 0
    ensures var lines := ListLines(items, title, fields);
      |lines| == |items| + 2 &&
      lines[0] == Header(title) &&
      lines[|lines| - 1] == Rule(|title| + 8) && |lines[|lines| - 1]| == |lines[0]| &&
      forall i :: 0 <= i < |items| ==>
        lines[i + 1] == NatToString(i + 1) + ". " + Join(Cells(items[i], fields), ", ") &&
        forall j :: 0 <= j < |fields| ==>
          Cells(items[i], fields)[j] == Humanize(fields[j]) + ": " + GetOr(items[i], fields[j])
  {
    var lines := ListLines(items, title, fields);
    assert lines == [Header(title)] + ItemLines(items, fields) + [Rule(|title| + 8)];
  }

  /** A declared field the item lacks shows as N/A at its own position. */
  lemma ListMissingField(items: seq<Record>, title: string, fields: seq<string>, i: nat, j: nat)
    requires i < |items| && j < |fields|
    requires forall k :: 0 <= k < |items[i]| ==> items[i][k].0 != fields[j]
    ensures ListLines(items, title, fields)[i + 1] == ItemLine(i + 1, items[i], fields)
    ensures Cells(items[i], fields)[j] == Humanize(fields[j]) + ": N/A"
  {
    assert ListLines(items, title, fields) == [Header(title)] + ItemLines(items, fields) + [Rule(|title| + 8)];
    GetOrAbsent(items[i], fields[j]);
  }

  /** What an item line shows depends only on the item's values for the
      declared fields. */
  lemma ItemLineDependsOnFields(n: nat, a: Record, b: Record, fields: seq<string>)
    requires forall j :: 0 <= j < |fields| ==> Lookup(a, fields[j]) == Lookup(b, fields[j])
    ensures ItemLine(n, a, fields) == ItemLine(n, b, fields)
  {
    assert Cells(a, fields) == Cells(b, fields);
  }

  /** Projection is independent of the order in which each record holds
      its keys: lists of the same dicts render identically. */
  lemma ListIgnoresKeyOrder(a: seq<Record>, b: seq<Record>, title: string, fields: seq<string>)
    requires |a| == |b|
    requires forall i :: 0 <= i < |a| ==> DistinctKeys(a[i]) && DistinctKeys(b[i])
    requires forall i, e :: 0 <= i < |a| ==> (e in a[i] <==> e in b[i])
    ensures ListLines(a, title, fields) == ListLines(b, title, fields)
  {
    forall i | 0 <= i < |a| ensures ItemLine(i + 1, a[i], fields) == ItemLine(i + 1, b[i], fields) {
      forall j | 0 <= j < |fields| ensures Lookup(a[i], fields[j]) == Lookup(b[i], fields[j]) {
        LookupIgnoresOrder(a[i], b[i], fields[j]);
      }
      ItemLineDependsOnFields(i + 1, a[i], b[i], fields);
    }
    assert ItemLines(a, fields) == ItemLines(b, fields);
  }

  // ---------------------------------------------------------------------
  // A worked example: one programme of a university

  /** The record `{"nama_prodi": "Informatika", "jenjang_prodi": "S1"}`. */
  const Informatika: Record := [("nama_prodi", Scalar("Informatika")), ("jenjang_prodi", Scalar("S1"))]

  /** The labels of the two programme fields. */
  lemma ProdiLabels()
    ensures Humanize("nama_prodi") == "Nama Prodi"
    ensures Humanize("jenjang_prodi") == "Jenjang Prodi"
  {
    ProdiWords();
    HumanizeTwoWords("nama", "prodi");
    HumanizeTwoWords("jenjang", "prodi");
  }

  lemma ProdiWords()
    ensures IsLowerWord("nama") && IsLowerWord("jenjang") && IsLowerWord("prodi")
    ensures Capitalize("nama") + " " + Capitalize("prodi") == "Nama Prodi"
    ensures Capitalize("jenjang") + " " + Capitalize("prodi") == "Jenjang Prodi"
    ensures "nama" + "_" + "prodi" == "nama_prodi" && "jenjang" + "_" + "prodi" == "jenjang_prodi"
  {
  }

  /** The record's values for the two fields. */
  lemma InformatikaValues()
    ensures GetOr(Informatika, "nama_prodi") == "Informatika"
    ensures GetOr(Informatika, "jenjang_prodi") == "S1"
  {
    assert Lookup(Informatika, "nama_prodi") == Some(Scalar("Informatika"));
    assert "nama_prodi"[0] != "jenjang_prodi"[0];
    assert Lookup(Informatika, "jenjang_prodi") == Lookup(Informatika[1..], "jenjang_prodi");
  }

  /** The first item of a list holding that record, with both fields
      declared, reads `1. Nama Prodi: Informatika, Jenjang Prodi: S1`. */
  lemma InformatikaLine()
    ensures ItemLine(1, Informatika, ["nama_prodi", "jenjang_prodi"])
         == "1. Nama Prodi: Informatika, Jenjang Prodi: S1"
  {
    var c0 := "Nama Prodi" + ": " + "Informatika";
    var c1 := "Jenjang Prodi" + ": " + "S1";
    InformatikaCells();
    JoinTwo(c0, c1, ", ");
    SmallNumbers();
    InformatikaTexts();
    ConcatRegroup4("1. ", c0, ", ", c1);
    InformatikaLineText();
  }

  lemma InformatikaTexts()
    ensures "1" + ". " == "1. "
    ensures "Nama Prodi" + ": " + "Informatika" == "Nama Prodi: Informatika"
    ensures "Jenjang Prodi" + ": " + "S1" == "Jenjang Prodi: S1"
  {
  }

  /** The pieces of the line put together, in three short steps. */
  lemma InformatikaLineText()
    ensures "1. " + "Nama Prodi: Informatika" + ", " + "Jenjang Prodi: S1"
         == "1. Nama Prodi: Informatika, Jenjang Prodi: S1"
  {
    InformatikaHead();
    InformatikaTail();
    InformatikaWhole();
    ConcatAssoc("1. " + "Nama Prodi: Informatika", ", ", "Jenjang Prodi: S1");
  }

  lemma InformatikaHead()
    ensures "1. " + "Nama Prodi: Informatika" == "1. Nama Prodi: Informatika"
  {
  }

  lemma InformatikaTail()
    ensures ", " + "Jenjang Prodi: S1" == ", Jenjang Prodi: S1"
  {
  }

  lemma InformatikaWhole()
    ensures "1. Nama Prodi: Informatika" + ", Jenjang Prodi: S1" == "1. Nama Prodi: Informatika, Jenjang Prodi: S1"
  {
  }

  lemma ConcatAssoc(a: string, b: string, c: string)
    ensures a + b + c == a + (b + c)
  {
  }

  lemma ConcatRegroup4(a: string, b: string, c: string, d: string)
    ensures a + (b + c + d) == a + b + c + d
  {
  }

  lemma InformatikaCells()
    ensures Cells(Informatika, ["nama_prodi", "jenjang_prodi"])
         == ["Nama Prodi" + ": " + "Informatika", "Jenjang Prodi" + ": " + "S1"]
  {
    CellsOfTwo(Informatika, "nama_prodi", "jenjang_prodi");
    ProdiLabels();
    InformatikaValues();
  }

  lemma CellsOfTwo(item: Record, f0: string, f1: string)
    ensures Cells(item, [f0, f1]) == [Cell(item, f0), Cell(item, f1)]
  {
  }

  /** `_format_list_of_dicts([Informatika], "Daftar Program Studi di PT",
      ["nama_prodi", "jenjang_prodi"])` is the banner, that line and a rule
      of 34 dashes. */
  lemma InformatikaList()
    ensures ListLines([Informatika], "Daftar Program Studi di PT", ["nama_prodi", "jenjang_prodi"])
         == [Header("Daftar Program Studi di PT"),
             "1. Nama Prodi: Informatika, Jenjang Prodi: S1",
             Rule(34)]
  {
    ListOfOne(Informatika, "Daftar Program Studi di PT", ["nama_prodi", "jenjang_prodi"]);
    InformatikaLine();
  }

  lemma ListOfOne(item: Record, title: string, fields: seq<string>)
    ensures ListLines([item], title, fields) == [Header(title), ItemLine(1, item, fields), Rule(|title| + 8)]
  {
    assert ItemLines([item], fields) == [ItemLine(1, item, fields)];
  }
}
