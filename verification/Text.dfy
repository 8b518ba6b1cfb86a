/** The few string operations the adapters share: trimming, and splitting a
    string at a separator and joining it again. */
module Text {

  /** The white space and line terminators that JavaScript's trim() removes. */
  predicate JsSpace(c: char) {
    || '\t' <= c <= '\r' || c == ' ' || c == '\U{A0}' || c == '\U{1680}'
    || '\U{2000}' <= c <= '\U{200A}' || c in "\U{2028}\U{2029}\U{202F}\U{205F}\U{3000}\U{FEFF}"
  }

  /** The white space that Python's str.strip() removes. */
  predicate PySpace(c: char) {
    || '\t' <= c <= '\r' || '\U{1C}' <= c <= ' ' || c in "\U{85}\U{A0}\U{1680}"
    || '\U{2000}' <= c <= '\U{200A}' || c in "\U{2028}\U{2029}\U{202F}\U{205F}\U{3000}"
  }

  /** The two languages differ on exactly these: Python also strips the information
      separators and NEL, JavaScript the byte order mark. */
  lemma SpacesDiffer(c: char)
    ensures JsSpace(c) && !PySpace(c) <==> c == '\U{FEFF}'
    ensures PySpace(c) && !JsSpace(c) <==> '\U{1C}' <= c <= '\U{1F}' || c == '\U{85}'
  {
  }

  predicate Trimmed(s: string, space: char -> bool) {
    s != "" ==> !space(s[0]) && !space(s[|s| - 1])
  }

  function Trim(s: string, space: char -> bool): (t: string)
    ensures Trimmed(t, space)
    ensures Trimmed(s, space) ==> t == s
    decreases |s|
  {
    if s == "" then ""
    else if space(s[0]) then Trim(s[1..], space)
    else if space(s[|s| - 1]) then Trim(s[..|s| - 1], space)
    else s
  }

  /** Only white space is removed, and only at the two ends. */
  lemma {:induction false} TrimKeepsMiddle(s: string, space: char -> bool) returns (i: nat, j: nat)
    ensures i <= j <= |s| && Trim(s, space) == s[i..j]
    ensures forall k | 0 <= k < |s| && !(i <= k < j) :: space(s[k])
    decreases |s|
  {
    if s == "" {
      i, j := 0, 0;
    } else if space(s[0]) {
      i, j := TrimKeepsMiddle(s[1..], space);
      assert forall k | 1 <= k < |s| :: s[k] == s[1..][k - 1];
      i, j := i + 1, j + 1;
    } else if space(s[|s| - 1]) {
      i, j := TrimKeepsMiddle(s[..|s| - 1], space);
    } else {
      i, j := 0, |s|;
    }
  }

  function Split(s: string, sep: char): (parts: seq<string>)
    ensures |parts| >= 1
  {
    if s == "" then [""]
    else if s[0] == sep then [""] + Split(s[1..], sep)
    else
      var rest := Split(s[1..], sep);
      [[s[0]] + rest[0]] + rest[1..]
  }

  function Join(parts: seq<string>, sep: char): string {
    if parts == [] then ""
    else if |parts| == 1 then parts[0]
    else parts[0] + [sep] + Join(parts[1..], sep)
  }

  /** A separator-free prefix joins the first part. */
  lemma {:induction false} SplitPrefix(a: string, s: string, sep: char)
    requires sep !in a
    ensures Split(a + s, sep) == [a + Split(s, sep)[0]] + Split(s, sep)[1..]
  {
    var rest := Split(s, sep);
    if a == "" {
      assert a + s == s;
      assert a + rest[0] == rest[0];
    } else {
      SplitPrefix(a[1..], s, sep);
      assert (a + s)[1..] == a[1..] + s;
      assert [a[0]] + (a[1..] + rest[0]) == a + rest[0];
    }
  }

  /** Splitting undoes joining when no part contains the separator. */
  lemma {:induction false} SplitUndoesJoin(parts: seq<string>, sep: char)
    requires parts != []
    requires forall p <- parts :: sep !in p
    ensures Split(Join(parts, sep), sep) == parts
  {
    var tail := parts[1..];
    if tail == [] {
      SplitPrefix(parts[0], "", sep);
      assert parts[0] + "" == parts[0];
    } else {
      SplitUndoesJoin(tail, sep);
      var s := [sep] + Join(tail, sep);
      assert s[1..] == Join(tail, sep);
      SplitPrefix(parts[0], s, sep);
      assert Split(s, sep) == [""] + tail;
      assert parts[0] + "" == parts[0];
      assert parts[0] + [sep] + Join(tail, sep) == parts[0] + s;
    }
  }

  /** A separator adds one part. */
  lemma {:induction false} SplitCount(a: string, b: string, sep: char)
    ensures |Split(a + [sep] + b, sep)| == |Split(a, sep)| + |Split(b, sep)|
  {
    var s := a + [sep] + b;
    if a == "" {
      assert s[1..] == b;
    } else {
      assert s[1..] == a[1..] + [sep] + b;
      SplitCount(a[1..], b, sep);
    }
  }

  lemma {:induction false} SplitOnePart(s: string, sep: char)
    requires |Split(s, sep)| == 1
    ensures sep !in s
  {
    if s != "" { SplitOnePart(s[1..], sep); }
  }

  /** No part of a split contains the separator. */
  lemma {:induction false} SplitParts(s: string, sep: char)
    ensures forall p <- Split(s, sep) :: sep !in p
  {
    if s != "" {
      SplitParts(s[1..], sep);
    }
  }
}
