/**
 * The shape of a list reply: header lines, then one block of lines per
 * entry, each block headed by its 1-based number. The text is built by
 * appending every line followed by a newline.
 */
module Layout {
  import opened Wrappers
  import opened Text

  datatype Listing = Listing(header: seq<string>, entries: seq<seq<string>>)

  /** The text of the entry blocks, in order. */
  function EntriesText(entries: seq<seq<string>>): string
  {
    if entries == [] then ""
    else EntriesText(entries[..|entries| - 1]) + Unlines(entries[|entries| - 1])
  }

  function ListingText(l: Listing): string
  {
    Unlines(l.header) + EntriesText(l.entries)
  }

  /** All lines of a listing, header first. */
  function ListingLines(l: Listing): seq<string>
  {
    l.header + Flatten(l.entries)
  }

  function Flatten(entries: seq<seq<string>>): seq<string>
  {
    if entries == [] then [] else Flatten(entries[..|entries| - 1]) + entries[|entries| - 1]
  }

  lemma {:induction false} UnlinesAppend(a: seq<string>, b: seq<string>)
    ensures Unlines(a + b) == Unlines(a) + Unlines(b)
    decreases |a|
  {
    if a == [] {
      assert a + b == b;
    } else {
      assert (a + b)[1..] == a[1..] + b;
      UnlinesAppend(a[1..], b);
    }
  }

  /** The text of a listing is exactly its lines, each followed by a newline. */
  lemma {:induction false} ListingTextIsLines(l: Listing)
    ensures ListingText(l) == Unlines(ListingLines(l))
  {
    EntriesTextIsLines(l.entries);
    UnlinesAppend(l.header, Flatten(l.entries));
  }

  lemma {:induction false} EntriesTextIsLines(entries: seq<seq<string>>)
    ensures EntriesText(entries) == Unlines(Flatten(entries))
    decreases |entries|
  {
    if entries != [] {
      var init := entries[..|entries| - 1];
      EntriesTextIsLines(init);
      UnlinesAppend(Flatten(init), entries[|entries| - 1]);
    }
  }

  /** The first line of an entry: its number, a dot and a caption, in bold. */
  function EntryTitle(k: nat, caption: string): (line: string)
    ensures NumberAfter("**", line) == Some(k)
  {
    NumberAfterDecimal("**", k, ". " + caption + "**");
    "**" + Decimal(k) + (". " + caption + "**")
  }

  /** Entry blocks numbered 1, 2, ... in order, read back from their first lines. */
  ghost predicate Numbered(entries: seq<seq<string>>)
  {
    forall k :: 0 <= k < |entries| ==> entries[k] != [] && NumberAfter("**", entries[k][0]) == Some(k + 1)
  }

  /** `xs.slice(0, n)` for n >= 0: the first n elements, or all when there are fewer. */
  function Take<T>(xs: seq<T>, n: nat): (r: seq<T>)
    ensures r <= xs
    ensures |r| == Min(n, |xs|)
  {
    xs[..Min(n, |xs|)]
  }

  /** A listing's text starts with the first character of its first header line. */
  lemma ListingStartsWithHeader(l: Listing)
    requires l.header != [] && l.header[0] != []
    ensures ListingText(l) != [] && ListingText(l)[0] == l.header[0][0]
  {
  }

  /** Joined lines start with the first character of the first line. */
  lemma JoinLinesStartsWithFirst(lines: seq<string>)
    requires lines != [] && lines[0] != []
    ensures JoinLines(lines) != [] && JoinLines(lines)[0] == lines[0][0]
  {
  }

  /** Appending one entry's text extends the text of the entries before it. */
  lemma EntriesTextSnoc(entries: seq<seq<string>>, e: seq<string>)
    ensures EntriesText(entries + [e]) == EntriesText(entries) + Unlines(e)
  {
    assert (entries + [e])[..|entries|] == entries;
  }

  /** The text accumulator of the list handlers: the header text, then each entry's lines in turn. */
  method AppendEntries(head: string, entries: seq<seq<string>>) returns (text: string)
    ensures text == head + EntriesText(entries)
  {
    text := head;
    var i := 0;
    while i < |entries|
      invariant 0 <= i <= |entries|
      invariant text == head + EntriesText(entries[..i])
    {
      EntriesTextSnoc(entries[..i], entries[i]);
      assert entries[..i + 1] == entries[..i] + [entries[i]];
      text := text + Unlines(entries[i]);
      i := i + 1;
    }
    assert entries[..i] == entries;
  }

  /** One block per item, numbered from 1 in item order. */
  function Blocks<T>(items: seq<T>, entry: (nat, T) -> seq<string>): (es: seq<seq<string>>)
    ensures |es| == |items|
    ensures forall k :: 0 <= k < |items| ==> es[k] == entry(k + 1, items[k])
  {
    if items == [] then []
    else Blocks(items[..|items| - 1], entry) + [entry(|items|, items[|items| - 1])]
  }

  /** One block per pair of an item and the value read from it, numbered from 1. */
  function PairedBlocks<T, U>(items: seq<T>, values: seq<U>, entry: (nat, T, U) -> seq<string>): (es: seq<seq<string>>)
    requires |values| == |items|
    ensures |es| == |items|
    ensures forall k :: 0 <= k < |items| ==> es[k] == entry(k + 1, items[k], values[k])
  {
    if items == [] then []
    else PairedBlocks(items[..|items| - 1], values[..|items| - 1], entry) + [entry(|items|, items[|items| - 1], values[|items| - 1])]
  }

  /** The `forEach` over the shown items: one numbered block per item, in order. */
  method NumberBlocks<T>(items: seq<T>, entry: (nat, T) -> seq<string>) returns (entries: seq<seq<string>>)
    ensures entries == Blocks(items, entry)
  {
    entries := [];
    var i := 0;
    while i < |items|
      invariant 0 <= i <= |items|
      invariant entries == Blocks(items[..i], entry)
    {
      assert items[..i + 1][..i] == items[..i];
      entries := entries + [entry(i + 1, items[i])];
      i := i + 1;
    }
    assert items[..i] == items;
  }
}
