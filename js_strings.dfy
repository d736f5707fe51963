/** The two JavaScript string operations the store relies on:
    `String.prototype.split` with a one-character separator, and
    `Array.prototype.join`, its inverse. */
module JsStrings {

  /** `s.split(sep)`: the pieces of `s` between occurrences of `sep`.
      There is always at least one piece and no piece contains `sep`. */
  function Split(s: string, sep: char): (parts: seq<string>)
    ensures |parts| >= 1
    ensures forall i :: 0 <= i < |parts| ==> sep !in parts[i]
  {
    if s == [] then [""]
    else
      var rest := Split(s[1..], sep);
      if s[0] == sep then [""] + rest
      else [[s[0]] + rest[0]] + rest[1..]
  }

  /** The last piece of a split is the text after the last separator: the
      whole string when there is only one piece, otherwise a suffix that the
      separator precedes. */
  lemma {:induction false} SplitLast(s: string, sep: char)
    ensures var parts := Split(s, sep);
      && (|parts| == 1 ==> parts[0] == s)
      && (|parts| > 1 ==>
            var last := parts[|parts| - 1];
            |last| < |s| && s[|s| - |last| - 1] == sep && s[|s| - |last|..] == last)
  {
    if s != [] {
      SplitLast(s[1..], sep);
      assert s == [s[0]] + s[1..];
      SplitFirst(s[0], s[1..], sep);
    }
  }

  /** `parts.join(sep)` for a non-empty list of pieces. */
  function Join(parts: seq<string>, sep: char): string
    requires |parts| >= 1
  {
    if |parts| == 1 then parts[0] else parts[0] + [sep] + Join(parts[1..], sep)
  }

  /** Joining the pieces of a split gives the original string back. */
  lemma {:induction false} JoinSplit(s: string, sep: char)
    ensures Join(Split(s, sep), sep) == s
  {
    if s != [] {
      var rest := Split(s[1..], sep);
      JoinSplit(s[1..], sep);
      assert s == [s[0]] + s[1..];
      if s[0] == sep {
        JoinCons("", rest, sep);
      } else {
        JoinExtendFirst(s[0], rest, sep);
      }
    }
  }

  /** Joining a piece in front of at least one more piece puts a separator between. */
  lemma JoinCons(x: string, rest: seq<string>, sep: char)
    requires |rest| >= 1
    ensures Join([x] + rest, sep) == x + [sep] + Join(rest, sep)
  {
    assert ([x] + rest)[1..] == rest;
  }

  /** Prefixing a character to the first piece prefixes it to the joined string. */
  lemma JoinExtendFirst(c: char, rest: seq<string>, sep: char)
    requires |rest| >= 1
    ensures Join([[c] + rest[0]] + rest[1..], sep) == [c] + Join(rest, sep)
  {
    if |rest| > 1 {
      JoinCons([c] + rest[0], rest[1..], sep);
      assert [rest[0]] + rest[1..] == rest;
      JoinCons(rest[0], rest[1..], sep);
    }
  }

  /** Splitting what was joined gives the pieces back, when no piece holds
      the separator: `split` and `join` are inverse to each other. */
  lemma {:induction false} SplitJoin(parts: seq<string>, sep: char)
    requires |parts| >= 1
    requires forall i :: 0 <= i < |parts| ==> sep !in parts[i]
    ensures Split(Join(parts, sep), sep) == parts
  {
    if |parts| == 1 {
      SplitWithoutSeparator(parts[0], sep);
    } else {
      SplitJoin(parts[1..], sep);
      SplitPrefix(parts[0], sep, Join(parts[1..], sep));
      assert [parts[0]] + parts[1..] == parts;
    }
  }

  /** A string without the separator splits into itself alone. */
  lemma {:induction false} SplitWithoutSeparator(s: string, sep: char)
    requires sep !in s
    ensures Split(s, sep) == [s]
  {
    if s != [] {
      SplitWithoutSeparator(s[1..], sep);
      assert [s[0]] + s[1..] == s;
    }
  }

  /** Splitting `p + [sep] + t`, where `p` has no separator, gives `p`
      followed by the pieces of `t`. */
  lemma {:induction false} SplitPrefix(p: string, sep: char, t: string)
    requires sep !in p
    ensures Split(p + [sep] + t, sep) == [p] + Split(t, sep)
  {
    if p == [] {
      assert p + [sep] + t == [sep] + t;
      SplitFirst(sep, t, sep);
    } else {
      SplitPrefix(p[1..], sep, t);
      SplitPrefixStep(p, sep, t);
    }
  }

  /** The inductive step of `SplitPrefix`: one more leading character. */
  lemma SplitPrefixStep(p: string, sep: char, t: string)
    requires p != [] && sep !in p
    requires Split(p[1..] + [sep] + t, sep) == [p[1..]] + Split(t, sep)
    ensures Split(p + [sep] + t, sep) == [p] + Split(t, sep)
  {
    var tail := p[1..] + [sep] + t;
    assert p + [sep] + t == [p[0]] + tail;
    SplitExtendFirst(p[0], tail, sep, p[1..], Split(t, sep));
    assert [p[0]] + p[1..] == p;
  }

  /** A character other than the separator in front of a string joins its
      first piece. */
  lemma SplitExtendFirst(c: char, x: string, sep: char, first: string, rest: seq<string>)
    requires c != sep
    requires Split(x, sep) == [first] + rest
    ensures Split([c] + x, sep) == [[c] + first] + rest
  {
    SplitFirst(c, x, sep);
    assert ([first] + rest)[0] == first && ([first] + rest)[1..] == rest;
  }

  /** How the first character of a string decides its first piece. */
  lemma SplitFirst(c: char, x: string, sep: char)
    ensures Split([c] + x, sep) ==
              if c == sep then [""] + Split(x, sep)
              else [[c] + Split(x, sep)[0]] + Split(x, sep)[1..]
  {
    assert ([c] + x)[0] == c && ([c] + x)[1..] == x;
  }
}
