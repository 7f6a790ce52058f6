/** The few string operations of the .NET base library the filter relies on. */
module Text {

  /** `char.ToLower`, on the ASCII letters. */
  function LowerChar(c: char): char
  {
    if 'A' <= c <= 'Z' then (c as int - 'A' as int + 'a' as int) as char else c
  }

  /** `string.ToLower`, character by character. */
  function Lower(s: string): (r: string)
    ensures |r| == |s|
    ensures forall i :: 0 <= i < |s| ==> r[i] == LowerChar(s[i])
  {
    seq(|s|, i requires 0 <= i < |s| => LowerChar(s[i]))
  }

  /** Equality of the two strings after `ToLower`. */
  function EqualsIgnoreCase(a: string, b: string): (equal: bool)
    ensures a == b ==> equal
    ensures equal ==> |a| == |b|
  {
    Lower(a) == Lower(b)
  }

  /** `char.IsWhiteSpace`: the Unicode space, line and paragraph separators,
      U+0009 to U+000D and U+0085. */
  function IsWhiteSpace(c: char): (white: bool)
    ensures c == ' ' || c == '\t' || c == '\n' || c == '\r' ==> white
    ensures 'a' <= c <= 'z' || 'A' <= c <= 'Z' || '0' <= c <= '9' || c == ':' || c == '/' ==> !white
  {
    var n := c as int;
    n == 0x20 || 0x09 <= n <= 0x0D || n == 0x85 || n == 0xA0 || n == 0x1680
    || 0x2000 <= n <= 0x200A || n == 0x2028 || n == 0x2029 || n == 0x202F
    || n == 0x205F || n == 0x3000
  }

  /** `string.IsNullOrWhiteSpace` on a non-null string. */
  function IsBlank(s: string): (blank: bool)
    ensures s == "" ==> blank
    ensures ':' in s ==> !blank
  {
    forall i :: 0 <= i < |s| ==> IsWhiteSpace(s[i])
  }

  /** `s.Split(sep)`: the fields between separators, empty ones included;
      a string with n separators has n + 1 fields. */
  function Split(s: string, sep: char): (fields: seq<string>)
    ensures |fields| >= 1
    ensures forall i :: 0 <= i < |fields| ==> sep !in fields[i]
    decreases |s|
  {
    if |s| == 0 then [""]
    else
      var rest := Split(s[1..], sep);
      if s[0] == sep then [""] + rest
      else [[s[0]] + rest[0]] + rest[1..]
  }

  /** `string.Join(sep, fields)`. */
  function Join(fields: seq<string>, sep: char): (joined: string)
    requires |fields| >= 1
    // the first field comes first, followed by a separator when more fields follow
    ensures |joined| >= |fields[0]| && joined[..|fields[0]|] == fields[0]
    ensures |fields| >= 2 ==> |joined| > |fields[0]| && joined[|fields[0]|] == sep
    decreases |fields|
  {
    if |fields| == 1 then fields[0] else fields[0] + [sep] + Join(fields[1..], sep)
  }

  lemma {:induction false} SplitWithoutSeparator(s: string, sep: char)
    requires sep !in s
    ensures Split(s, sep) == [s]
    decreases |s|
  {
    if |s| > 0 {
      assert sep !in s[1..] by {
        forall i | 0 <= i < |s[1..]| ensures s[1..][i] != sep { assert s[1..][i] == s[i + 1]; }
      }
      SplitWithoutSeparator(s[1..], sep);
      assert [s[0]] + s[1..] == s;
    }
  }

  /** Splitting at a separator splits the two sides independently. */
  lemma {:induction false} SplitAppend(x: string, y: string, sep: char)
    ensures Split(x + [sep] + y, sep) == Split(x, sep) + Split(y, sep)
    decreases |x|
  {
    var s := x + [sep] + y;
    if |x| == 0 {
      assert s[0] == sep && s[1..] == y;
      assert Split(x, sep) == [""];
    } else {
      assert s[0] == x[0] && s[1..] == x[1..] + [sep] + y;
      SplitAppend(x[1..], y, sep);
      var rest := Split(s[1..], sep);
      var restX := Split(x[1..], sep);
      var restY := Split(y, sep);
      assert rest == restX + restY;
      if x[0] == sep {
        assert Split(s, sep) == [""] + rest;
        assert Split(x, sep) == [""] + restX;
      } else {
        assert Split(s, sep) == [[x[0]] + rest[0]] + rest[1..];
        assert Split(x, sep) == [[x[0]] + restX[0]] + restX[1..];
        assert rest[0] == restX[0];
        assert rest[1..] == restX[1..] + restY;
      }
    }
  }

  /** A string holding a separator has at least two fields. */
  lemma SplitAtSeparator(s: string, sep: char)
    requires sep in s
    ensures |Split(s, sep)| >= 2
  {
    var i :| 0 <= i < |s| && s[i] == sep;
    assert s == s[..i] + [sep] + s[i + 1..];
    SplitAppend(s[..i], s[i + 1..], sep);
  }

  /** Joining the fields of a split gives back the string. */
  lemma {:induction false} JoinSplit(s: string, sep: char)
    ensures Join(Split(s, sep), sep) == s
    decreases |s|
  {
    if |s| > 0 {
      JoinSplit(s[1..], sep);
      var rest := Split(s[1..], sep);
      var fields := Split(s, sep);
      if s[0] == sep {
        assert fields[1..] == rest;
      } else {
        assert fields[0] == [s[0]] + rest[0];
        assert fields[1..] == rest[1..];
        assert Join(fields, sep) == [s[0]] + Join(rest, sep);
      }
      assert s == [s[0]] + s[1..];
    }
  }

  /** Splitting a join of separator-free fields gives back the fields. */
  lemma {:induction false} SplitJoin(fields: seq<string>, sep: char)
    requires |fields| >= 1
    requires forall i :: 0 <= i < |fields| ==> sep !in fields[i]
    ensures Split(Join(fields, sep), sep) == fields
    decreases |fields|
  {
    SplitWithoutSeparator(fields[0], sep);
    if |fields| > 1 {
      SplitJoin(fields[1..], sep);
      SplitAppend(fields[0], Join(fields[1..], sep), sep);
      assert [fields[0]] + fields[1..] == fields;
    }
  }
}
