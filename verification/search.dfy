/** `format_search_results`: the generic search-list renderer. Unlike
    `_format_list_of_dicts` it gives every item a numbered line of its own
    and puts each declared field on a separate line indented by two
    spaces, under a `Hasil Pencarian` banner. */
module Search {
  import opened Text
  import opened Records
  import opened Primitives

  /** `f"Tidak ada {title} yang ditemukan."` */
  function NotFound(title: string): string
  {
    "Tidak ada " + title + " yang ditemukan."
  }

  /** The banner `f"--- Hasil Pencarian {title} ---"`. */
  function SearchHeader(title: string): string
  {
    Header("Hasil Pencarian " + title)
  }

  /** The closing rule `"-" * (len(title) + 20)`. */
  function SearchRule(title: string): string
  {
    Rule(|title| + 20)
  }

  /** The lines of the n-th item: its number, then one line per field. */
  function ResultLines(n: nat, item: Record, fields: seq<string>): seq<string>
  {
    [NatToString(n) + ". "] + seq(|fields|, j requires 0 <= j < |fields| => "  " + Cell(item, fields[j]))
  }

  /** The blocks of all items, numbered in list order. */
  function ResultBlocks(items: seq<Record>, fields: seq<string>): seq<string>
  {
    if |items| == 0 then []
    else ResultBlocks(items[..|items| - 1], fields) + ResultLines(|items|, items[|items| - 1], fields)
  }

  /** The lines joined for a non-empty result list. */
  function SearchLines(items: seq<Record>, title: string, fields: seq<string>): seq<string>
  {
    [SearchHeader(title)] + ResultBlocks(items, fields) + [SearchRule(title)]
  }

  /** What `format_search_results(data, title, fields)` returns. */
  function RenderSearch(items: seq<Record>, title: string, fields: seq<string>): string
  {
    if |items| == 0 then NotFound(title)
    else JoinLines(SearchLines(items, title, fields))
  }

  /** The lines of one result: the inner loop over the fields. */
  method FormatResult(n: nat, item: Record, fields: seq<string>) returns (lines: seq<string>)
    ensures lines == ResultLines(n, item, fields)
  {
    lines := [NatToString(n) + ". "];
    for j := 0 to |fields|
      invariant lines == ResultLines(n, item, fields[..j])
    {
      lines := lines + ["  " + Cell(item, fields[j])];
      assert ResultLines(n, item, fields[..j + 1]) == ResultLines(n, item, fields[..j]) + ["  " + Cell(item, fields[j])];
    }
    assert fields[..|fields|] == fields;
  }

  /** The outer loop over the items. */
  method FormatResultBlocks(items: seq<Record>, fields: seq<string>) returns (lines: seq<string>)
    ensures lines == ResultBlocks(items, fields)
  {
    lines := [];
    for i := 0 to |items|
      invariant lines == ResultBlocks(items[..i], fields)
    {
      var block := FormatResult(i + 1, items[i], fields);
      lines := lines + block;
      assert items[..i + 1][..i] == items[..i];
    }
    assert items[..|items|] == items;
  }

  /** `format_search_results(data, title, fields)` */
  method FormatSearchResults(items: seq<Record>, title: string, fields: seq<string>) returns (text: string)
    ensures text == RenderSearch(items, title, fields)
  {
    if |items| == 0 {
      return NotFound(title);
    }
    var output := [SearchHeader(title)];
    var blocks := FormatResultBlocks(items, fields);
    output := output + blocks + [SearchRule(title)];
    text := JoinLines(output);
  }

  // ---------------------------------------------------------------------
  // Properties

  /** The not-found message appears exactly when the list is empty;
      otherwise the text opens with the search banner. */
  lemma SearchEmpty(items: seq<Record>, title: string, fields: seq<string>)
    ensures RenderSearch(items, title, fields) == NotFound(title) <==> |items| == 0
    ensures |items| > 0 ==> SearchHeader(title) <= RenderSearch(items, title, fields)
  {
    if |items| > 0 {
      assert RenderSearch(items, title, fields)[0] == '-';
      assert NotFound(title)[0] == 'T';
    }
  }

  /** As written, the closing rule is four dashes shorter than the banner
      above it (the banner adds 24 characters to the title, the rule 20). */
  lemma SearchRuleShorterThanBanner(items: seq<Record>, title: string, fields: seq<string>)
    ensures var lines := SearchLines(items, title, fields);
      lines[|lines| - 1] == Rule(|title| + 20) && |lines[|lines| - 1]| + 4 == |lines[0]|
  {
  }

  lemma {:induction false} ResultBlocksLength(items: seq<Record>, fields: seq<string>)
    ensures |ResultBlocks(items, fields)| == |items| * (1 + |fields|)
  {
    if |items| > 0 {
      ResultBlocksLength(items[..|items| - 1], fields);
      assert |items| * (1 + |fields|) == (|items| - 1) * (1 + |fields|) + (1 + |fields|);
    }
  }

  /** Every result takes exactly one numbered line plus one line per
      field, between the banner and the rule. */
  lemma SearchLineCount(items: seq<Record>, title: string, fields: seq<string>)
    ensures |SearchLines(items, title, fields)| == 2 + |items| * (1 + |fields|)
  {
    ResultBlocksLength(items, fields);
  }

  lemma {:induction false} ResultBlocksPrefix(items: seq<Record>, fields: seq<string>, k: nat)
    requires k <= |items|
    ensures ResultBlocks(items[..k], fields) <= ResultBlocks(items, fields)
    decreases |items| - k
  {
    if k < |items| {
      ResultBlocksPrefix(items, fields, k + 1);
      assert items[..k + 1][..k] == items[..k];
    } else {
      assert items[..k] == items;
    }
  }

  lemma ResultBlocksSplit(items: seq<Record>, fields: seq<string>, i: nat) returns (rest: seq<string>)
    requires i < |items|
    ensures ResultBlocks(items, fields) == ResultBlocks(items[..i], fields) + ResultLines(i + 1, items[i], fields) + rest
  {
    ResultBlocksPrefix(items, fields, i + 1);
    assert items[..i + 1][..i] == items[..i];
    rest := PrefixRest(ResultBlocks(items[..i], fields) + ResultLines(i + 1, items[i], fields), ResultBlocks(items, fields));
  }

  /** The i-th result (counting from 0) occupies lines 1 + i * (1 + |fields|)
      onwards: first its number i + 1, then each declared field, in order,
      as a humanised label and the item's value (N/A when missing). */
  lemma ResultPlacement(items: seq<Record>, title: string, fields: seq<string>, i: nat)
    requires i < |items|
    ensures var lines := SearchLines(items, title, fields);
      var at := 1 + i * (1 + |fields|);
      at + |fields| < |lines| - 1 &&
      lines[at] == NatToString(i + 1) + ". " &&
      forall j :: 0 <= j < |fields| ==> lines[at + 1 + j] == "  " + Cell(items[i], fields[j])
  {
    var pre := ResultBlocks(items[..i], fields);
    var b := ResultLines(i + 1, items[i], fields);
    ResultBlocksLength(items[..i], fields);
    var rest := ResultBlocksSplit(items, fields, i);
    BlockInside(SearchLines(items, title, fields), SearchHeader(title), ResultBlocks(items, fields), SearchRule(title),
                pre, b, rest);
    forall j | 0 <= j < |fields|
      ensures SearchLines(items, title, fields)[1 + |pre| + 1 + j] == "  " + Cell(items[i], fields[j])
    {
      assert SearchLines(items, title, fields)[1 + |pre| + (1 + j)] == b[1 + j];
      ResultLinesAt(i + 1, items[i], fields, j);
    }
  }

  lemma ResultLinesAt(n: nat, item: Record, fields: seq<string>, j: nat)
    requires j < |fields|
    ensures ResultLines(n, item, fields)[1 + j] == "  " + Cell(item, fields[j])
  {
  }
}
