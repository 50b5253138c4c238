/**
 * The few pieces of java.lang.String and java.util behaviour the watcher relies on:
 * String.repeat, string conversion of a possibly-null String, List.toString, and
 * a line view of a logged message.
 */
module Strings {
  import opened Wrappers

  /** Java's string conversion of a String reference: null prints as "null". */
  function Text(s: Option<string>): string
  {
    match s
    case None => "null"
    case Some(v) => v
  }

  /** `s.repeat(n)`: n copies of s, one after another. */
  function Repeat(s: string, n: nat): string
  {
    if n == 0 then "" else s + Repeat(s, n - 1)
  }

  lemma {:induction false} RepeatLength(s: string, n: nat)
    ensures |Repeat(s, n)| == n * |s|
  {
    if n > 0 {
      RepeatLength(s, n - 1);
    }
  }

  /** Repeating a one-character string gives a run of that character as long as the count. */
  lemma {:induction false} RepeatChar(c: char, n: nat)
    ensures |Repeat([c], n)| == n
    ensures forall i :: 0 <= i < n ==> Repeat([c], n)[i] == c
  {
    if n > 0 {
      RepeatChar(c, n - 1);
    }
  }

  /** The items joined by ", " (the inside of AbstractCollection.toString). */
  function Join(items: seq<string>): string
  {
    if |items| == 0 then ""
    else if |items| == 1 then items[0]
    else items[0] + ", " + Join(items[1..])
  }

  /** `list.toString()` for a list of strings: "[a, b, c]". */
  function ListText(items: seq<string>): (r: string)
    ensures |r| >= 2 && r[0] == '[' && r[|r| - 1] == ']'
    ensures items == [] ==> r == "[]"
    ensures |items| == 1 ==> r == "[" + items[0] + "]"
  {
    "[" + Join(items) + "]"
  }

  /** Appending an item to a non-empty list prints it last, after ", ": the items appear in list order. */
  lemma {:induction false} ListTextAppend(items: seq<string>, x: string)
    requires |items| > 0
    ensures ListText(items + [x]) == "[" + Join(items) + ", " + x + "]"
  {
    JoinAppend(items, x);
  }

  lemma {:induction false} JoinAppend(items: seq<string>, x: string)
    requires |items| > 0
    ensures Join(items + [x]) == Join(items) + ", " + x
  {
    if |items| > 1 {
      assert (items + [x])[1..] == items[1..] + [x];
      JoinAppend(items[1..], x);
    } else {
      assert items + [x] == [items[0], x];
      assert [items[0], x][1..] == [x];
    }
  }

  /**
   * The lines of a text: the pieces between '\n' characters, including an empty
   * piece before a leading and after a trailing '\n'.
   */
  function Lines(s: string): (r: seq<string>)
    ensures |r| >= 1
    ensures forall i :: 0 <= i < |r| ==> '\n' !in r[i]
  {
    if |s| == 0 then [""]
    else
      var rest := Lines(s[1..]);
      if s[0] == '\n' then [""] + rest
      else [[s[0]] + rest[0]] + rest[1..]
  }

  /** Lines joined back with '\n'. */
  function Unlines(ls: seq<string>): string
    requires |ls| >= 1
  {
    if |ls| == 1 then ls[0] else ls[0] + "\n" + Unlines(ls[1..])
  }

  /** Lines loses nothing: joining the lines with '\n' gives the text back. */
  lemma {:induction false} UnlinesLines(s: string)
    ensures Unlines(Lines(s)) == s
  {
    if |s| > 0 {
      UnlinesLines(s[1..]);
      var rest := Lines(s[1..]);
      if s[0] == '\n' {
        assert Lines(s) == [""] + rest;
        assert ([""] + rest)[1..] == rest;
        assert s == "\n" + s[1..];
      } else {
        var ls := Lines(s);
        assert ls == [[s[0]] + rest[0]] + rest[1..];
        if |rest| == 1 {
          assert s == [s[0]] + s[1..];
        } else {
          assert ls[1..] == rest[1..];
          assert Unlines(rest) == rest[0] + "\n" + Unlines(rest[1..]);
          assert s == [s[0]] + s[1..];
        }
      }
    }
  }

  /** A line without '\n' followed by '\n' splits off as the first line. */
  lemma {:induction false} LinesOfLineThen(a: string, b: string)
    requires '\n' !in a
    ensures Lines(a + "\n" + b) == [a] + Lines(b)
  {
    var s := a + "\n" + b;
    if |a| == 0 {
      assert s[0] == '\n' && s[1..] == b;
    } else {
      assert '\n' !in a[1..] by {
        forall i | 0 <= i < |a[1..]| ensures a[1..][i] != '\n' { assert a[1..][i] == a[i + 1]; }
      }
      LinesOfLineThen(a[1..], b);
      assert s[0] == a[0] && s[1..] == a[1..] + "\n" + b;
      assert a == [a[0]] + a[1..];
    }
  }
}
