/** String helpers with JavaScript's meaning: indexOf, includes, slice(-n), and splitting on separators. */
module Text {

  /** `t` occurs in `s` at position `j`. */
  predicate OccursAt(s: string, t: string, j: int) {
    0 <= j && j + |t| <= |s| && s[j..j + |t|] == t
  }

  /** `s.indexOf(t)`: the first position where `t` occurs in `s`, or -1. */
  function IndexOf(s: string, t: string): (i: int)
    ensures -1 <= i <= |s|
    ensures i >= 0 ==> OccursAt(s, t, i)
    ensures i >= 0 ==> forall j :: 0 <= j < i ==> !OccursAt(s, t, j)
    ensures i == -1 ==> forall j :: !OccursAt(s, t, j)
  {
    if |t| > |s| then -1
    else if t <= s then (assert s[0..|t|] == t; 0)
    else
      var k := IndexOf(s[1..], t);
      ShiftOccurs(s, t);
      if k < 0 then -1 else k + 1
  }

  lemma ShiftOccurs(s: string, t: string)
    requires |s| >= 1
    ensures !OccursAt(s, t, 0) ==> !(t <= s)
    ensures t <= s ==> OccursAt(s, t, 0)
    ensures forall j :: j >= 1 ==> (OccursAt(s, t, j) <==> OccursAt(s[1..], t, j - 1))
  {
    if t <= s { assert s[0..|t|] == t; }
    forall j | j >= 1 ensures OccursAt(s, t, j) <==> OccursAt(s[1..], t, j - 1) {
      if j + |t| <= |s| {
        var x, y := s[1..][j - 1..j - 1 + |t|], s[j..j + |t|];
        assert forall k :: 0 <= k < |t| ==> x[k] == y[k];
        assert x == y;
      }
    }
  }

  /** `s.includes(t)` */
  predicate Contains(s: string, t: string) {
    IndexOf(s, t) >= 0
  }

  lemma ContainsAt(s: string, t: string, j: int)
    requires OccursAt(s, t, j)
    ensures Contains(s, t)
  {
  }

  /** `s.slice(-n)`: JavaScript clamps a negative start to 0 and reads `-0` as 0. */
  function SliceFromEnd(s: string, n: int): (r: string)
    ensures 0 < n <= |s| ==> |r| == n && r == s[|s| - n..]
    ensures n == 0 || n >= |s| ==> r == s
    ensures n < 0 ==> r == s[if -n < |s| then -n else |s|..]
  {
    var start := -n;
    var from := if start < 0 then (if |s| + start < 0 then 0 else |s| + start)
                else (if start < |s| then start else |s|);
    s[from..]
  }

  /** The character that ends every part but the last. */
  predicate IsSeparator(c: char, backslash: bool) {
    c == '/' || (backslash && c == '\\')
  }

  predicate NoSeparator(s: string, backslash: bool) {
    forall i :: 0 <= i < |s| ==> !IsSeparator(s[i], backslash)
  }

  /** `s.split(sep)`: every part, empty ones included, between separators. */
  function Split(s: string, backslash: bool): (parts: seq<string>)
    ensures |parts| >= 1
    ensures forall k :: 0 <= k < |parts| ==> NoSeparator(parts[k], backslash)
  {
    if s == "" then [""]
    else if IsSeparator(s[0], backslash) then [""] + Split(s[1..], backslash)
    else
      var rest := Split(s[1..], backslash);
      [[s[0]] + rest[0]] + rest[1..]
  }

  /** `parts.join(sep)` */
  function JoinWith(parts: seq<string>, sep: char): string {
    if |parts| == 0 then ""
    else if |parts| == 1 then parts[0]
    else parts[0] + [sep] + JoinWith(parts[1..], sep)
  }

  lemma {:induction false} SplitPrefix(a: string, b: string, backslash: bool)
    requires NoSeparator(a, backslash)
    ensures Split(a + b, backslash) == [a + Split(b, backslash)[0]] + Split(b, backslash)[1..]
  {
    if a != "" {
      assert (a + b)[0] == a[0] && (a + b)[1..] == a[1..] + b;
      SplitPrefix(a[1..], b, backslash);
      assert [a[0]] + (a[1..] + Split(b, backslash)[0]) == a + Split(b, backslash)[0];
    } else {
      var p := Split(b, backslash);
      assert a + b == b && a + p[0] == p[0];
      assert p == [p[0]] + p[1..];
    }
  }

  /** Splitting a concatenation around one separator splits each side. */
  lemma {:induction false} SplitConcat(a: string, b: string, backslash: bool)
    ensures Split(a + "/" + b, backslash) == Split(a, backslash) + Split(b, backslash)
  {
    if a == "" {
      assert a + "/" + b == "/" + b;
      assert ("/" + b)[1..] == b;
    } else {
      assert (a + "/" + b)[0] == a[0] && (a + "/" + b)[1..] == a[1..] + "/" + b;
      SplitConcat(a[1..], b, backslash);
    }
  }

  /** Splitting undoes joining when no part holds a separator. */
  lemma {:induction false} SplitJoin(parts: seq<string>, backslash: bool)
    requires |parts| >= 1
    requires forall k :: 0 <= k < |parts| ==> NoSeparator(parts[k], backslash)
    ensures Split(JoinWith(parts, '/'), backslash) == parts
  {
    if |parts| == 1 {
      SplitPrefix(parts[0], "", backslash);
      assert parts[0] + "" == parts[0];
    } else {
      SplitJoin(parts[1..], backslash);
      SplitConcat(parts[0], JoinWith(parts[1..], '/'), backslash);
      SplitPrefix(parts[0], "", backslash);
      assert parts[0] + "" == parts[0];
      assert parts == [parts[0]] + parts[1..];
    }
  }
}
