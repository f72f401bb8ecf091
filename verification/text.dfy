/** `String.prototype.split` with a one-character separator and its inverse,
    `Array.prototype.join`. */
module Text {
  /** `parts.join(sep)`. */
  function JoinWith(parts: seq<string>, sep: char): string
    requires |parts| > 0
  {
    if |parts| == 1 then parts[0] else parts[0] + [sep] + JoinWith(parts[1..], sep)
  }

  /** `s.split(sep)`: the pieces between separators, never without a piece
      (`"".split(",")` is `[""]`). */
  function Split(s: string, sep: char): (parts: seq<string>)
    ensures |parts| > 0
    ensures forall i :: 0 <= i < |parts| ==> sep !in parts[i]
    ensures JoinWith(parts, sep) == s
  {
    if |s| == 0 then [""]
    else if s[0] == sep then
      var p := Split(s[1..], sep);
      assert ([""] + p)[1..] == p;
      assert [sep] + s[1..] == s;
      [""] + p
    else
      var p := Split(s[1..], sep);
      var r := [[s[0]] + p[0]] + p[1..];
      assert r[1..] == p[1..];
      assert [s[0]] + s[1..] == s;
      assert sep !in [s[0]] + p[0];
      if |p| == 1 then r
      else
        assert JoinWith(p, sep) == p[0] + [sep] + JoinWith(p[1..], sep);
        assert JoinWith(r, sep) == [s[0]] + p[0] + [sep] + JoinWith(p[1..], sep);
        r
  }

  /** Text without a separator in front of the rest joins onto the first
      piece of the rest. */
  lemma {:induction false} SplitPrefix(a: string, rest: string, sep: char)
    requires sep !in a
    ensures Split(a + rest, sep) == [a + Split(rest, sep)[0]] + Split(rest, sep)[1..]
    decreases |a|
  {
    if |a| > 0 {
      assert (a + rest)[0] == a[0];
      assert (a + rest)[1..] == a[1..] + rest;
      SplitPrefix(a[1..], rest, sep);
      assert [a[0]] + (a[1..] + Split(rest, sep)[0]) == a + Split(rest, sep)[0];
    } else {
      assert a + rest == rest;
      assert a + Split(rest, sep)[0] == Split(rest, sep)[0];
    }
  }

  /** Splitting undoes joining when no piece holds the separator. */
  lemma {:induction false} SplitJoin(parts: seq<string>, sep: char)
    requires |parts| > 0
    requires forall i :: 0 <= i < |parts| ==> sep !in parts[i]
    ensures Split(JoinWith(parts, sep), sep) == parts
    decreases |parts|
  {
    if |parts| == 1 {
      SplitPrefix(parts[0], "", sep);
      assert parts[0] + "" == parts[0];
    } else {
      var rest := JoinWith(parts[1..], sep);
      SplitJoin(parts[1..], sep);
      assert Split([sep] + rest, sep) == [""] + parts[1..] by {
        assert ([sep] + rest)[1..] == rest;
      }
      assert parts[0] + [sep] + rest == parts[0] + ([sep] + rest);
      SplitPrefix(parts[0], [sep] + rest, sep);
      assert parts[0] + "" == parts[0];
      assert [parts[0]] + parts[1..] == parts;
    }
  }

  /** Text put in front of a join lands in its first piece. */
  lemma {:induction false} JoinPrefix(x: string, parts: seq<string>, sep: char)
    requires |parts| > 0
    ensures JoinWith([x + parts[0]] + parts[1..], sep) == x + JoinWith(parts, sep)
  {
    var q := [x + parts[0]] + parts[1..];
    assert q[1..] == parts[1..];
    if |parts| > 1 {
      assert x + parts[0] + [sep] + JoinWith(parts[1..], sep) == x + (parts[0] + [sep] + JoinWith(parts[1..], sep));
    }
  }
}
