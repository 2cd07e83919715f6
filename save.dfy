// array_to_string of lib/py_lib/save.py: the text "np.asarray([[..],..])" of
// a two-dimensional array, built by appending to a string and deleting the
// last character with the slice [:-1] after each row and at the end.
//
// Python's str() of a number is a parameter, show; nothing here depends on
// what it returns.
module ArraySerialiser {

  /** The strings of xs with sep between consecutive ones. */
  function Join(sep: string, xs: seq<string>): string
  {
    if |xs| == 0 then ""
    else if |xs| == 1 then xs[0]
    else Join(sep, xs[..|xs| - 1]) + sep + xs[|xs| - 1]
  }

  /** The strings of xs, each followed by a comma. */
  function Terminated(xs: seq<string>): string
  {
    if |xs| == 0 then "" else Terminated(xs[..|xs| - 1]) + xs[|xs| - 1] + ","
  }

  /** Terminating every element with a comma is joining with commas plus one trailing comma. */
  lemma {:induction false} TerminatedIsJoin(xs: seq<string>)
    requires |xs| >= 1
    ensures Terminated(xs) == Join(",", xs) + ","
    decreases |xs|
  {
    if |xs| > 1 {
      TerminatedIsJoin(xs[..|xs| - 1]);
    } else {
      assert xs[..0] == [];
    }
  }

  /** Appending the next element and a comma extends the comma-terminated prefix by one. */
  lemma AppendTerminated(prefix: string, xs: seq<string>, k: nat)
    requires k < |xs|
    ensures prefix + Terminated(xs[..k]) + xs[k] + "," == prefix + Terminated(xs[..k + 1])
  {
    assert xs[..k + 1][..k] == xs[..k];
  }

  /** Deleting the last character of s + c gives s back. */
  lemma DropLast(s: string, c: string)
    requires |c| == 1
    ensures (s + c)[..|s + c| - 1] == s
  {
    assert (s + c)[..|s|] == s;
  }

  /** a.shape == (|a|, nc): every row holds nc entries. */
  predicate Shape(a: seq<seq<real>>, nc: nat)
  {
    forall i :: 0 <= i < |a| ==> |a[i]| == nc
  }

  /** str(a[i, k]) for every entry k of row i. */
  function EntryTexts(show: real -> string, row: seq<real>): (r: seq<string>)
    ensures |r| == |row|
    ensures forall k :: 0 <= k < |row| ==> r[k] == show(row[k])
  {
    seq(|row|, k requires 0 <= k < |row| => show(row[k]))
  }

  /**
   * The text of row i: "[" entries joined by "," "]". With no columns the
   * slice deletes the row's own "[" and only "]" is left.
   */
  function RowText(show: real -> string, row: seq<real>): string
  {
    if |row| == 0 then "]" else "[" + Join(",", EntryTexts(show, row)) + "]"
  }

  /** The texts of all rows, in order. */
  function RowTexts(show: real -> string, a: seq<seq<real>>): (r: seq<string>)
    ensures |r| == |a|
    ensures forall i :: 0 <= i < |a| ==> r[i] == RowText(show, a[i])
  {
    seq(|a|, i requires 0 <= i < |a| => RowText(show, a[i]))
  }

  /**
   * The result of array_to_string: "np.asarray([" rows joined by "," "])".
   * With no rows the final slice deletes the outer "[" instead.
   */
  function ArrayText(show: real -> string, a: seq<seq<real>>): string
  {
    if |a| == 0 then "np.asarray(])"
    else "np.asarray([" + Join(",", RowTexts(show, a)) + "])"
  }

  /**
   * Closing a row: deleting the last character of "[" followed by the
   * comma-terminated entries and appending "]," leaves the row's text and a comma.
   */
  lemma CloseRow(prefix: string, entries: seq<string>, s: string)
    requires s == prefix + "[" + Terminated(entries[..|entries|])
    ensures s[..|s| - 1] + "]," == prefix + (if |entries| == 0 then "]" else "[" + Join(",", entries) + "]") + ","
  {
    assert entries[..|entries|] == entries;
    if |entries| == 0 {
      CloseEmptyRow(prefix, s);
    } else {
      CloseNonEmptyRow(prefix, entries, s);
    }
  }

  lemma CloseEmptyRow(prefix: string, s: string)
    requires s == prefix + "["
    ensures s[..|s| - 1] + "]," == prefix + "]" + ","
  {
    DropLast(prefix, "[");
  }

  lemma CloseNonEmptyRow(prefix: string, entries: seq<string>, s: string)
    requires |entries| >= 1 && s == prefix + "[" + Terminated(entries)
    ensures s[..|s| - 1] + "]," == prefix + ("[" + Join(",", entries) + "]") + ","
  {
    var body := prefix + "[" + Join(",", entries);
    TerminatedIsJoin(entries);
    assert s == body + ",";
    DropLast(body, ",");
    Regroup(prefix, Join(",", entries));
  }

  lemma Regroup(prefix: string, middle: string)
    ensures prefix + "[" + middle + "]," == prefix + ("[" + middle + "]") + ","
  {}

  /** Closing the array: the same deletion, then "])". */
  lemma CloseArray(rows: seq<string>, s: string)
    requires s == "np.asarray([" + Terminated(rows[..|rows|])
    ensures s[..|s| - 1] + "])" == if |rows| == 0 then "np.asarray(])" else "np.asarray([" + Join(",", rows) + "])"
  {
    assert rows[..|rows|] == rows;
    if |rows| == 0 {
      assert s == "np.asarray(" + "[";
      DropLast("np.asarray(", "[");
    } else {
      var body := "np.asarray([" + Join(",", rows);
      TerminatedIsJoin(rows);
      assert s == body + ",";
      DropLast(body, ",");
    }
  }

  /** array_to_string(a), step by step as the source builds it. */
  method ArrayToString(show: real -> string, a: seq<seq<real>>, nc: nat) returns (res: string)
    requires Shape(a, nc)
    ensures res == ArrayText(show, a)
  {
    var nr := |a|;
    ghost var rows := RowTexts(show, a);
    res := "np.asarray([";
    for i := 0 to nr
      invariant res == "np.asarray([" + Terminated(rows[..i])
    {
      ghost var before := res;
      ghost var entries := EntryTexts(show, a[i]);
      res := res + "[";
      for k := 0 to nc
        invariant res == before + "[" + Terminated(entries[..k])
      {
        AppendTerminated(before + "[", entries, k);
        res := res + show(a[i][k]) + ",";
      }
      // Delete the last comma (or, with no columns, the "[") and close the row.
      CloseRow(before, entries, res);
      assert rows[i] == if |entries| == 0 then "]" else "[" + Join(",", entries) + "]";
      res := res[..|res| - 1] + "],";
      AppendTerminated("np.asarray([", rows, i);
    }
    // Delete the last comma (or, with no rows, the "[") and close the array.
    CloseArray(rows, res);
    res := res[..|res| - 1] + "])";
  }

  /** With at least one row the text opens with "np.asarray([" and closes with "])". */
  lemma ArrayTextFrame(show: real -> string, a: seq<seq<real>>)
    requires |a| >= 1
    ensures var t := ArrayText(show, a);
      |t| >= 14 && t[..12] == "np.asarray([" && t[|t| - 2..] == "])"
  {
    var body := Join(",", RowTexts(show, a));
    var t := "np.asarray([" + body + "])";
    assert t[..12] == "np.asarray([";
    assert t[|t| - 2..] == "])";
  }

  /** Joining n >= 1 strings puts exactly n - 1 separators between them: no leading or trailing one. */
  lemma {:induction false} JoinAppend(sep: string, xs: seq<string>, x: string)
    requires |xs| >= 1
    ensures Join(sep, xs + [x]) == Join(sep, xs) + sep + x
  {
    assert (xs + [x])[..|xs|] == xs;
  }

  /** With at least one row and one column, every row is "[" entries joined by "," "]". */
  lemma RowTextOfNonEmptyRow(show: real -> string, row: seq<real>)
    requires |row| >= 1
    ensures var r := RowText(show, row);
      r[0] == '[' && r[|r| - 1] == ']' && r[1..|r| - 1] == Join(",", EntryTexts(show, row))
  {}

  /** A single-column row is "[" str(a[i, 0]) "]": no comma survives. */
  lemma RowTextOfOneColumn(show: real -> string, row: seq<real>)
    requires |row| == 1
    ensures RowText(show, row) == "[" + show(row[0]) + "]"
  {}
}
