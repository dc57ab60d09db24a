/** `format_penghitung_ratio_prodi`: the one renderer that accepts either a
    list or a single record. A list is shown as numbered `Data:` blocks,
    each followed by the item's fields indented by three spaces (or the
    item itself when it is not a record); a record is shown exactly as
    `_format_dict` shows it. */
module RatioCounter {
  import opened Text
  import opened Records
  import opened Primitives

  /** What the ratio counter may receive: nothing, a list of items, or one
      record. */
  datatype RatioData = RatioAbsent | RatioList(items: seq<Value>) | RatioRecord(record: Record)

  const RatioTitle := "Penghitung Rasio Prodi"
  const RatioMissing := "Penghitung Rasio Prodi tidak ditemukan."

  /** Python's `not data`: None, an empty list or an empty dict. */
  predicate IsEmpty(d: RatioData)
  {
    match d
    case RatioAbsent => true
    case RatioList(items) => |items| == 0
    case RatioRecord(r) => |r| == 0
  }

  /** The indented lines under a `Data:` heading. */
  function ItemDetails(item: Value): seq<string>
  {
    match item
    case Nested(r) => seq(|r|, j requires 0 <= j < |r| => "   " + FieldLine(r[j].0, r[j].1))
    case Scalar(t) => ["   " + t]
  }

  /** The block of the n-th item (counting from 1). */
  function ItemBlock(n: nat, item: Value): seq<string>
  {
    [NatToString(n) + ". Data:"] + ItemDetails(item)
  }

  /** The blocks of all items, numbered in list order. */
  function Blocks(items: seq<Value>): seq<string>
  {
    if |items| == 0 then []
    else Blocks(items[..|items| - 1]) + ItemBlock(|items|, items[|items| - 1])
  }

  /** The lines joined for a non-empty list. */
  function RatioLines(items: seq<Value>): seq<string>
  {
    [Header(RatioTitle)] + Blocks(items) + [Rule(|RatioTitle| + 8)]
  }

  /** What `format_penghitung_ratio_prodi(data)` returns. */
  function RenderRatio(d: RatioData): string
  {
    if IsEmpty(d) then RatioMissing
    else match d
      case RatioList(items) => JoinLines(RatioLines(items))
      case RatioRecord(r) => JoinLines(DictLines(r, RatioTitle))
      case RatioAbsent => RatioMissing
  }

  /** The lines one list item contributes. */
  method FormatItem(n: nat, item: Value) returns (lines: seq<string>)
    ensures lines == ItemBlock(n, item)
  {
    lines := [NatToString(n) + ". Data:"];
    if item.Nested? {
      var r := item.entries;
      for j := 0 to |r|
        invariant lines == [NatToString(n) + ". Data:"] + ItemDetails(Nested(r[..j]))
      {
        lines := lines + ["   " + FieldLine(r[j].0, r[j].1)];
        assert ItemDetails(Nested(r[..j + 1])) == ItemDetails(Nested(r[..j])) + ["   " + FieldLine(r[j].0, r[j].1)];
      }
      assert r[..|r|] == r;
    } else {
      lines := lines + ["   " + item.text];
    }
  }

  /** The loop over the items: their blocks, numbered from 1. */
  method FormatBlocks(items: seq<Value>) returns (lines: seq<string>)
    ensures lines == Blocks(items)
  {
    lines := [];
    for i := 0 to |items|
      invariant lines == Blocks(items[..i])
    {
      var block := FormatItem(i + 1, items[i]);
      lines := lines + block;
      assert items[..i + 1][..i] == items[..i];
    }
    assert items[..|items|] == items;
  }

  /** `format_penghitung_ratio_prodi(data)` */
  method FormatPenghitungRatioProdi(data: RatioData) returns (text: string)
    ensures text == RenderRatio(data)
  {
    if IsEmpty(data) {
      return RatioMissing;
    }
    if data.RatioList? {
      var items := data.items;
      var output := [Header(RatioTitle)];
      if |items| == 0 {
        // The outer guard has already turned an empty list away.
        assert false;
        output := output + [NoDataLine];
      } else {
        var blocks := FormatBlocks(items);
        output := output + blocks;
      }
      output := output + [Rule(|RatioTitle| + 8)];
      text := JoinLines(output);
    } else {
      text := FormatDict(data.record, RatioTitle);
    }
  }

  // ---------------------------------------------------------------------
  // Properties

  /** The ratio counter shows its not-found message exactly when there is
      nothing to show; anything else opens with the title banner. */
  lemma RatioEmpty(d: RatioData)
    ensures RenderRatio(d) == RatioMissing <==> IsEmpty(d)
    ensures !IsEmpty(d) ==> Header(RatioTitle) <= RenderRatio(d)
  {
    if !IsEmpty(d) {
      var lines := if d.RatioList? then RatioLines(d.items) else DictLines(d.record, RatioTitle);
      assert RenderRatio(d) == JoinLines(lines);
      assert RenderRatio(d)[0] == '-';
      assert RatioMissing[0] == 'P';
    }
  }

  /** A non-empty record is rendered by `_format_dict` under the ratio
      title, with nested records expanded one level. */
  lemma RatioRecordIsDict(r: Record)
    requires |r| > 0
    ensures RenderRatio(RatioRecord(r)) == JoinLines(DictLines(r, "Penghitung Rasio Prodi"))
  {
  }

  /** A listing opens with the banner and closes with a rule of 30 dashes,
      as long as the banner itself. */
  lemma RatioFraming(items: seq<Value>)
    ensures var lines := RatioLines(items);
      lines[0] == "--- Penghitung Rasio Prodi ---" &&
      lines[|lines| - 1] == Rule(30) && |lines[0]| == 30
  {
    var lines := RatioLines(items);
    assert lines == [Header(RatioTitle)] + Blocks(items) + [Rule(|RatioTitle| + 8)];
    BannerText();
  }

  lemma BannerText()
    ensures Header(RatioTitle) == "--- Penghitung Rasio Prodi ---" && |RatioTitle| + 8 == 30
  {
  }

  /** Each block is a heading followed by one line per field of a record
      item, or one line for any other item; every detail line is indented
      by three spaces and shows the humanised key and the value of its
      field in field order, or the item itself. */
  lemma ItemBlockShape(n: nat, item: Value)
    ensures var b := ItemBlock(n, item);
      b[0] == NatToString(n) + ". Data:" &&
      |b| == (match item case Nested(r) => 1 + |r| case Scalar(_) => 2) &&
      (forall k :: 1 <= k < |b| ==> b[k][..3] == "   ") &&
      (item.Nested? ==> forall j :: 0 <= j < |item.entries| ==>
        b[1 + j] == "   " + Humanize(item.entries[j].0) + ": " + Str(item.entries[j].1)) &&
      (item.Scalar? ==> b[1] == "   " + item.text)
  {
  }

  lemma {:induction false} BlocksAppend(items: seq<Value>, i: nat)
    requires i < |items|
    ensures Blocks(items[..i + 1]) == Blocks(items[..i]) + ItemBlock(i + 1, items[i])
  {
    assert items[..i + 1][..i] == items[..i];
  }

  /** Block sizes add up: one heading per item plus its detail lines. */
  lemma {:induction false} BlocksLength(items: seq<Value>)
    ensures |Blocks(items)| == |items| + |Flatten(items)|
  {
    if |items| > 0 {
      var init := items[..|items| - 1];
      BlocksLength(init);
    }
  }

  /** All detail lines of a list, in order. */
  function Flatten(items: seq<Value>): seq<string>
  {
    if |items| == 0 then []
    else Flatten(items[..|items| - 1]) + ItemDetails(items[|items| - 1])
  }

  /** Items are rendered in list order, each as its own block numbered
      from 1: the blocks of items 0..i, the i-th last and numbered i + 1,
      are the beginning of the lines between the banner and the rule. */
  lemma RatioItemPlacement(items: seq<Value>, i: nat)
    requires i < |items|
    ensures Blocks(items[..i]) + ItemBlock(i + 1, items[i]) <= Blocks(items)
  {
    var rest := BlocksSplit(items, i);
  }

  lemma BlocksSplit(items: seq<Value>, i: nat) returns (rest: seq<string>)
    requires i < |items|
    ensures Blocks(items) == Blocks(items[..i]) + ItemBlock(i + 1, items[i]) + rest
  {
    BlocksPrefix(items, i + 1);
    BlocksAppend(items, i);
    rest := PrefixRest(Blocks(items[..i]) + ItemBlock(i + 1, items[i]), Blocks(items));
  }

  /** The blocks of a prefix of the list are a prefix of the blocks. */
  lemma {:induction false} BlocksPrefix(items: seq<Value>, k: nat)
    requires k <= |items|
    ensures Blocks(items[..k]) <= Blocks(items)
    decreases |items| - k
  {
    if k < |items| {
      BlocksPrefix(items, k + 1);
      BlocksAppend(items, k);
    } else {
      assert items[..k] == items;
    }
  }

  // ---------------------------------------------------------------------
  // A worked example: two records in a list

  const DosenCount := Nested([("jumlah_dosen", Scalar("20"))])
  const MahasiswaCount := Nested([("jumlah_mahasiswa", Scalar("400"))])

  /** Two record items give two numbered `Data:` sections, each with its
      indented `Key: value` line, between the banner and the rule. */
  lemma TwoItemListing()
    ensures RatioLines([DosenCount, MahasiswaCount])
         == [Header(RatioTitle), "1. Data:", "   Jumlah Dosen: 20", "2. Data:", "   Jumlah Mahasiswa: 400", Rule(30)]
  {
    var items := [DosenCount, MahasiswaCount];
    assert items[..1] == [DosenCount];
    assert Blocks([DosenCount]) == ItemBlock(1, DosenCount) by {
      assert [DosenCount][..0] == [];
    }
    assert Blocks(items) == ItemBlock(1, DosenCount) + ItemBlock(2, MahasiswaCount);
    DosenCountBlock();
    MahasiswaCountBlock();
    BannerText();
  }

  lemma DosenCountBlock()
    ensures ItemBlock(1, DosenCount) == ["1. Data:", "   Jumlah Dosen: 20"]
  {
    SmallNumbers();
    CountWords();
    HumanizeTwoWords("jumlah", "dosen");
    CountTexts();
  }

  lemma MahasiswaCountBlock()
    ensures ItemBlock(2, MahasiswaCount) == ["2. Data:", "   Jumlah Mahasiswa: 400"]
  {
    SmallNumbers();
    HumanizeExample();
    CountTexts();
  }

  lemma CountWords()
    ensures IsLowerWord("jumlah") && IsLowerWord("dosen")
    ensures Capitalize("jumlah") + " " + Capitalize("dosen") == "Jumlah Dosen"
    ensures "jumlah" + "_" + "dosen" == "jumlah_dosen"
  {
  }

  lemma CountTexts()
    ensures "1" + ". Data:" == "1. Data:" && "2" + ". Data:" == "2. Data:"
    ensures "   " + ("Jumlah Dosen" + ": " + "20") == "   Jumlah Dosen: 20"
    ensures "   " + ("Jumlah Mahasiswa" + ": " + "400") == "   Jumlah Mahasiswa: 400"
  {
  }
}
