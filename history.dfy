/**
 * The in-memory history of functions defined during a session: a list that
 * grows at its head, so that the most recently added function comes first,
 * together with a separately maintained count of its entries.
 */
module History {
  import opened Functions

  const NoHistory: string := "No history available."
  const Banner: string := "========== FUNCTION HISTORY =========="
  const Footer: string := "======================================"

  /** The decimal digit for `d`. */
  function Digit(d: nat): (ch: char)
    requires d < 10
    ensures '0' <= ch <= '9' && ch as int - '0' as int == d
  {
    (d + '0' as int) as char
  }

  predicate IsDigits(s: string)
  {
    forall k :: 0 <= k < |s| ==> '0' <= s[k] <= '9'
  }

  /** How an integer index is written to the console: its decimal digits. */
  function NatToString(n: nat): (s: string)
    ensures |s| >= 1 && IsDigits(s)
    ensures n < 10 <==> |s| == 1
    ensures s[0] == '0' <==> n == 0
    decreases n
  {
    if n < 10 then [Digit(n)] else NatToString(n / 10) + [Digit(n % 10)]
  }

  /** The number a string of decimal digits denotes. */
  function DigitsValue(s: string): nat
    requires IsDigits(s)
  {
    if s == [] then 0
    else DigitsValue(s[..|s| - 1]) * 10 + (s[|s| - 1] as int - '0' as int)
  }

  /** Reading back the written index gives the index. */
  lemma {:induction false} NatToStringRoundTrip(n: nat)
    ensures DigitsValue(NatToString(n)) == n
    decreases n
  {
    var s := NatToString(n);
    if n >= 10 {
      NatToStringRoundTrip(n / 10);
      assert s[..|s| - 1] == NatToString(n / 10);
    }
  }

  /** The line shown for the entry numbered `index`. */
  function EntryLine(index: nat, f: Function, show: real -> string): string
  {
    NatToString(index) + ". " + DisplayLine(f, show)
  }

  /**
   * An entry line is the number's digits, then ". ", then the function's
   * display line; the first character that is not a digit is the '.'.
   */
  lemma EntryLineParts(index: nat, f: Function, show: real -> string)
    ensures var s, d := EntryLine(index, f, show), NatToString(index);
            |s| > |d| + 2 && s[..|d|] == d && s[|d|] == '.' &&
            s[|d|..|d| + 2] == ". " && s[|d| + 2..] == DisplayLine(f, show)
  {
    var d, l := NatToString(index), DisplayLine(f, show);
    var s := d + ". " + l;
    assert s[..|d|] == d && s[|d|..|d| + 2] == ". " && s[|d| + 2..] == l;
  }

  /** Two digit strings that are both followed by '.' in the same line are equally long. */
  lemma DigitPrefixLength(s: string, d1: string, d2: string)
    requires IsDigits(d1) && IsDigits(d2)
    requires |d1| < |s| && |d2| < |s| && s[..|d1|] == d1 && s[..|d2|] == d2
    requires s[|d1|] == '.' && s[|d2|] == '.'
    ensures |d1| == |d2|
  {
  }

  /** Entry lines with different numbers are different lines. */
  lemma EntryLineNumbersDiffer(i: nat, f: Function, j: nat, g: Function, show: real -> string)
    requires i != j
    ensures EntryLine(i, f, show) != EntryLine(j, g, show)
  {
    var s, t := EntryLine(i, f, show), EntryLine(j, g, show);
    var di, dj := NatToString(i), NatToString(j);
    if s == t {
      EntryLineParts(i, f, show);
      EntryLineParts(j, g, show);
      DigitPrefixLength(s, di, dj);
      assert di == s[..|di|] == dj;
      NatToStringRoundTrip(i);
      NatToStringRoundTrip(j);
    }
  }

  /**
   * What `displayHistory` writes, one string per line: a notice when the
   * history is empty, otherwise a blank line and a banner, the entries
   * numbered from 1 in list order, and a closing rule.
   */
  function Listing(entries: seq<Function>, show: real -> string): (lines: seq<string>)
    ensures entries == [] <==> lines == [NoHistory]
    ensures entries != [] ==> |lines| == |entries| + 3
  {
    if entries == [] then [NoHistory]
    else
      ["", Banner]
      + seq(|entries|, k requires 0 <= k < |entries| => EntryLine(k + 1, entries[k], show))
      + [Footer]
  }

  /** The entry at list position `k` is shown as number `k + 1`. */
  lemma ListingEntry(entries: seq<Function>, show: real -> string, k: nat)
    requires k < |entries|
    ensures Listing(entries, show)[k + 2] == EntryLine(k + 1, entries[k], show)
  {
    var body := seq(|entries|, i requires 0 <= i < |entries| => EntryLine(i + 1, entries[i], show));
    assert Listing(entries, show) == ["", Banner] + body + [Footer];
    FramedLine(body, k);
  }

  lemma FramedLine(body: seq<string>, k: nat)
    requires k < |body|
    ensures (["", Banner] + body + [Footer])[k + 2] == body[k]
  {
  }

  /** A sequence of lines that has the shape of the listing is the listing. */
  lemma ListingShape(entries: seq<Function>, show: real -> string, lines: seq<string>)
    requires entries != [] && |lines| == |entries| + 3
    requires lines[..2] == ["", Banner] && lines[|lines| - 1] == Footer
    requires forall k :: 0 <= k < |entries| ==> lines[k + 2] == EntryLine(k + 1, entries[k], show)
    ensures lines == Listing(entries, show)
  {
    var body := seq(|entries|, k requires 0 <= k < |entries| => EntryLine(k + 1, entries[k], show));
    forall k | 0 <= k < |body| ensures lines[k + 2] == body[k] {
    }
    Framed(lines, body);
  }

  /** Lines made of the two heading lines, `body` and the closing rule. */
  lemma Framed(lines: seq<string>, body: seq<string>)
    requires |lines| == |body| + 3
    requires lines[..2] == ["", Banner] && lines[|lines| - 1] == Footer
    requires forall k :: 0 <= k < |body| ==> lines[k + 2] == body[k]
    ensures lines == ["", Banner] + body + [Footer]
  {
    var n := |lines|;
    assert lines[2..n - 1] == body;
    assert lines == lines[..2] + lines[2..n - 1] + lines[n - 1..];
  }

  /**
   * Adding `f` to a history puts `f` at number 1 and moves every earlier
   * entry down by one, keeping their order.
   */
  lemma ListingAfterAdd(f: Function, entries: seq<Function>, show: real -> string)
    ensures Listing([f] + entries, show)[2] == EntryLine(1, f, show)
    ensures forall k :: 0 <= k < |entries| ==>
              Listing([f] + entries, show)[k + 3] == EntryLine(k + 2, entries[k], show)
  {
    var es := [f] + entries;
    assert es[0] == f;
    ListingEntry(es, show, 0);
    forall k | 0 <= k < |entries|
      ensures Listing(es, show)[k + 3] == EntryLine(k + 2, entries[k], show)
    {
      assert es[k + 1] == entries[k];
      ListingEntry(es, show, k + 1);
    }
  }

  class FunctionHistory {
    /** The nodes of the list, from the head. */
    var entries: seq<Function>
    var count: int

    ghost predicate Valid()
      reads this
    {
      count == |entries|
    }

    constructor ()
      ensures Valid() && entries == []
    {
      entries := [];
      count := 0;
    }

    /** Prepends `f`: it becomes the head, the earlier entries follow unchanged. */
    method AddFunction(f: Function)
      requires Valid()
      modifies this
      ensures Valid()
      ensures entries == [f] + old(entries)
      ensures count == old(count) + 1
    {
      entries := [f] + entries;
      count := count + 1;
    }

    /** Walks the list from the head, numbering the entries from 1. */
    method DisplayHistory(show: real -> string) returns (lines: seq<string>)
      requires Valid()
      ensures lines == Listing(entries, show)
    {
      if entries == [] {
        return [NoHistory];
      }
      lines := ["", Banner];
      var current := entries;
      var index := 1;
      while current != []
        invariant 1 <= index <= |entries| + 1
        invariant current == entries[index - 1..]
        invariant |lines| == index + 1
        invariant lines[..2] == ["", Banner]
        invariant forall k :: 0 <= k < index - 1 ==> lines[k + 2] == EntryLine(k + 1, entries[k], show)
        decreases |current|
      {
        assert current[0] == entries[index - 1];
        ghost var before := lines;
        lines := lines + [EntryLine(index, current[0], show)];
        assert lines[..2] == before[..2];
        forall k | 0 <= k < index - 1
          ensures lines[k + 2] == EntryLine(k + 1, entries[k], show)
        {
          assert lines[k + 2] == before[k + 2];
        }
        index := index + 1;
        current := current[1..];
      }
      lines := lines + [Footer];
      ListingShape(entries, show, lines);
    }

    /** Empties the history. */
    method Clear()
      modifies this
      ensures Valid() && entries == []
    {
      entries := [];
      count := 0;
    }

    method GetCount() returns (n: int)
      requires Valid()
      ensures n == |entries|
    {
      n := count;
    }
  }
}
