/** The comma-separated text the monitor writes: Python's `sep.join(parts)`
    and, to read a line back, `line.split(sep)`. The writer does no quoting
    or escaping, so the round trip holds only for fields free of the
    separator. `QuotedFieldCount` is how a CSV reader, which honours double
    quotes, counts the fields of a line whose double quotes open and close
    whole fields. */
module Csv {

  /** The number of times `c` occurs in `s`. */
  function Occurrences(c: char, s: string): nat
  {
    if s == [] then 0 else (if s[0] == c then 1 else 0) + Occurrences(c, s[1..])
  }

  /** `sep.join(parts)`: the parts with one separator between neighbours;
      the empty list joins to the empty string. */
  function Join(sep: char, parts: seq<string>): string
  {
    if |parts| == 0 then ""
    else if |parts| == 1 then parts[0]
    else parts[0] + [sep] + Join(sep, parts[1..])
  }

  /** `s.split(sep)`: the pieces between separators. There is always one
      more piece than separator, and no piece holds a separator. */
  function Split(sep: char, s: string): (r: seq<string>)
    ensures |r| == Occurrences(sep, s) + 1
    ensures forall i :: 0 <= i < |r| ==> sep !in r[i]
    decreases |s|
  {
    if |s| == 0 then [""]
    else if s[0] == sep then [""] + Split(sep, s[1..])
    else
      var rest := Split(sep, s[1..]);
      [[s[0]] + rest[0]] + rest[1..]
  }

  /** A field without a separator splits into itself alone. */
  lemma {:induction false} SplitField(sep: char, a: string)
    requires sep !in a
    ensures Split(sep, a) == [a]
    decreases |a|
  {
    if a != [] {
      assert sep !in a[1..] by {
        forall k | 0 <= k < |a[1..]| ensures a[1..][k] != sep { assert a[1..][k] == a[k + 1]; }
      }
      SplitField(sep, a[1..]);
      assert [a[0]] + a[1..] == a;
    }
  }

  /** A leading field, then a separator, then anything: the field comes off
      as the first piece. */
  lemma {:induction false} SplitLeadingField(sep: char, a: string, t: string)
    requires sep !in a
    ensures Split(sep, a + [sep] + t) == [a] + Split(sep, t)
    decreases |a|
  {
    var s := a + [sep] + t;
    if a == [] {
      assert s == [sep] + t;
      assert s[1..] == t;
    } else {
      assert s[0] == a[0] && s[0] != sep;
      assert s[1..] == a[1..] + [sep] + t;
      assert sep !in a[1..] by {
        forall k | 0 <= k < |a[1..]| ensures a[1..][k] != sep { assert a[1..][k] == a[k + 1]; }
      }
      SplitLeadingField(sep, a[1..], t);
      assert [a[0]] + a[1..] == a;
    }
  }

  /** Splitting a joined line gives back the fields exactly, provided there
      is at least one field and no field holds the separator. */
  lemma {:induction false} SplitJoin(sep: char, parts: seq<string>)
    requires |parts| >= 1
    requires forall i :: 0 <= i < |parts| ==> sep !in parts[i]
    ensures Split(sep, Join(sep, parts)) == parts
    decreases |parts|
  {
    if |parts| == 1 {
      SplitField(sep, parts[0]);
    } else {
      SplitLeadingField(sep, parts[0], Join(sep, parts[1..]));
      SplitJoin(sep, parts[1..]);
      assert [parts[0]] + parts[1..] == parts;
    }
  }

  /** Joining the pieces of a split gives back the line: `join` undoes
      `split` on every string. */
  lemma {:induction false} JoinSplit(sep: char, s: string)
    ensures Join(sep, Split(sep, s)) == s
    decreases |s|
  {
    if |s| > 0 {
      JoinSplit(sep, s[1..]);
      var rest := Split(sep, s[1..]);
      if s[0] == sep {
        assert ([""] + rest)[1..] == rest;
      } else {
        var head := [s[0]] + rest[0];
        assert ([head] + rest[1..])[1..] == rest[1..];
        if |rest| > 1 {
          assert Join(sep, rest) == rest[0] + [sep] + Join(sep, rest[1..]);
        }
      }
      assert s == [s[0]] + s[1..];
    }
  }

  /** Hence such a line has exactly as many fields as were joined. */
  lemma FieldCount(sep: char, parts: seq<string>)
    requires |parts| >= 1
    requires forall i :: 0 <= i < |parts| ==> sep !in parts[i]
    ensures |Split(sep, Join(sep, parts))| == |parts|
    ensures Occurrences(sep, Join(sep, parts)) == |parts| - 1
  {
    SplitJoin(sep, parts);
  }

  /** Occurrences add up over a concatenation. */
  lemma {:induction false} OccurrencesAppend(c: char, a: string, b: string)
    ensures Occurrences(c, a + b) == Occurrences(c, a) + Occurrences(c, b)
    decreases |a|
  {
    if a == [] {
      assert a + b == b;
    } else {
      assert (a + b)[0] == a[0] && (a + b)[1..] == a[1..] + b;
      OccurrencesAppend(c, a[1..], b);
    }
  }

  /** A character that does not occur is counted zero times. */
  lemma {:induction false} OccurrencesAbsent(c: char, s: string)
    requires c !in s
    ensures Occurrences(c, s) == 0
    decreases |s|
  {
    if s != [] {
      assert c !in s[1..] by {
        forall k | 0 <= k < |s[1..]| ensures s[1..][k] != c { assert s[1..][k] == s[k + 1]; }
      }
      OccurrencesAbsent(c, s[1..]);
    }
  }

  /** A character absent from every part and other than the separator is
      absent from the joined line. */
  lemma {:induction false} JoinAbsent(c: char, sep: char, parts: seq<string>)
    requires c != sep
    requires forall i :: 0 <= i < |parts| ==> c !in parts[i]
    ensures c !in Join(sep, parts)
    decreases |parts|
  {
    if |parts| > 1 {
      JoinAbsent(c, sep, parts[1..]);
    }
  }

  /** How a CSV reader counts fields, for lines whose double quotes open
      and close whole fields: the separators outside double quotes are the
      boundaries, starting inside quotes when `quoted`. A quote doubled
      inside a quoted field toggles twice and so stays inside. A quote in
      the middle of an unquoted field, which a reader such as Python's
      `csv` keeps as a literal character, toggles here too. */
  function Boundaries(sep: char, s: string, quoted: bool): nat
    decreases |s|
  {
    if s == [] then 0
    else if s[0] == '"' then Boundaries(sep, s[1..], !quoted)
    else (if s[0] == sep && !quoted then 1 else 0) + Boundaries(sep, s[1..], quoted)
  }

  /** Whether a CSV reader is inside quotes after reading `s`. */
  function QuotedAfter(s: string, quoted: bool): bool
    decreases |s|
  {
    if s == [] then quoted
    else QuotedAfter(s[1..], if s[0] == '"' then !quoted else quoted)
  }

  /** The number of fields a CSV reader sees in a line. */
  function QuotedFieldCount(sep: char, s: string): nat
  {
    Boundaries(sep, s, false) + 1
  }

  /** Reading `a + b` is reading `a`, then `b` in the quoting state `a`
      left. */
  lemma {:induction false} BoundariesAppend(sep: char, a: string, b: string, quoted: bool)
    ensures Boundaries(sep, a + b, quoted) == Boundaries(sep, a, quoted) + Boundaries(sep, b, QuotedAfter(a, quoted))
    decreases |a|
  {
    if a == [] {
      assert a + b == b;
    } else {
      assert (a + b)[0] == a[0] && (a + b)[1..] == a[1..] + b;
      BoundariesAppend(sep, a[1..], b, if a[0] == '"' then !quoted else quoted);
    }
  }

  /** The quoting state after `a + b` is the state after `b`, read from
      the state `a` left. */
  lemma {:induction false} QuotedAfterAppend(a: string, b: string, quoted: bool)
    ensures QuotedAfter(a + b, quoted) == QuotedAfter(b, QuotedAfter(a, quoted))
    decreases |a|
  {
    if a == [] {
      assert a + b == b;
    } else {
      assert (a + b)[0] == a[0] && (a + b)[1..] == a[1..] + b;
      QuotedAfterAppend(a[1..], b, if a[0] == '"' then !quoted else quoted);
    }
  }

  /** Without quotes, every separator is a boundary outside quotes and none
      is inside, and the quoting state is left as it was. */
  lemma {:induction false} BoundariesUnquoted(sep: char, s: string, quoted: bool)
    requires '"' !in s
    ensures Boundaries(sep, s, quoted) == (if quoted then 0 else Occurrences(sep, s))
    ensures QuotedAfter(s, quoted) == quoted
    decreases |s|
  {
    if s != [] {
      assert '"' !in s[1..] by {
        forall k | 0 <= k < |s[1..]| ensures s[1..][k] != '"' { assert s[1..][k] == s[k + 1]; }
      }
      BoundariesUnquoted(sep, s[1..], quoted);
    }
  }

  /** So on a line without quotes a CSV reader sees what `split` gives. */
  lemma QuotedFieldCountUnquoted(sep: char, s: string)
    requires '"' !in s
    ensures QuotedFieldCount(sep, s) == |Split(sep, s)|
  {
    BoundariesUnquoted(sep, s, false);
  }
}
