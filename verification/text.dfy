/** The string helpers of Go's `strings` package that the controller relies on:
    splitting on and joining with a one-character separator, and replacing a
    character. */
module Text {

  /** `strings.Split(s, sep)` for a one-character separator: the pieces of `s`
      between separators, in order. Empty pieces are kept, and the empty string
      splits into one empty piece. */
  function Split(s: string, sep: char): (parts: seq<string>)
    ensures |parts| >= 1
    ensures forall i :: 0 <= i < |parts| ==> sep !in parts[i]
    decreases |s|
  {
    if |s| == 0 then [""]
    else
      var rest := Split(s[1..], sep);
      if s[0] == sep then [""] + rest
      else [[s[0]] + rest[0]] + rest[1..]
  }

  /** `strings.Join(parts, sep)` for a one-character separator. */
  function Join(parts: seq<string>, sep: char): string
    decreases |parts|
  {
    if |parts| == 0 then ""
    else if |parts| == 1 then parts[0]
    else parts[0] + [sep] + Join(parts[1..], sep)
  }

  /** `strings.ReplaceAll(s, string(c), rep)`. */
  function ReplaceAll(s: string, c: char, rep: string): (r: string)
    ensures c !in s ==> r == s
    ensures c !in rep ==> c !in r
    ensures forall i :: 0 <= i < |s| && s[i] != c ==> s[i] in r
    decreases |s|
  {
    if |s| == 0 then ""
    else (if s[0] == c then rep else [s[0]]) + ReplaceAll(s[1..], c, rep)
  }

  /** Replacing the one occurrence of `c` between two `c`-free strings. */
  lemma ReplaceAllOne(a: string, b: string, c: char, rep: string)
    requires c !in a && c !in b
    ensures ReplaceAll(a + [c] + b, c, rep) == a + rep + b
  {
    var tail := [c] + b;
    assert a + [c] + b == a + tail;
    ReplaceAllAppend(a, tail, c, rep);
    assert ReplaceAll(a, c, rep) == a;
    assert tail[0] == c && tail[1..] == b;
    assert ReplaceAll(tail, c, rep) == rep + ReplaceAll(b, c, rep);
    assert ReplaceAll(b, c, rep) == b;
  }

  /** The body of a Go `%q` rendering: a backslash before every double quote
      and every backslash. */
  function QuoteBody(s: string): string
    decreases |s|
  {
    if |s| == 0 then ""
    else (if s[0] == '"' || s[0] == '\\' then ['\\', s[0]] else [s[0]]) + QuoteBody(s[1..])
  }

  /** `fmt.Sprintf("%q", s)` for strings of printable characters. */
  function Quote(s: string): string
  {
    "\"" + QuoteBody(s) + "\""
  }

  /** A string without double quotes or backslashes is quoted unchanged. */
  lemma {:induction false} QuoteBodyPlain(s: string)
    requires '"' !in s && '\\' !in s
    ensures QuoteBody(s) == s
    decreases |s|
  {
    if |s| > 0 {
      assert s[0] != '"' && s[0] != '\\';
      assert '"' !in s[1..] && '\\' !in s[1..] by {
        forall i | 0 <= i < |s[1..]|
          ensures s[1..][i] != '"' && s[1..][i] != '\\'
        {
          assert s[1..][i] == s[i + 1];
        }
      }
      QuoteBodyPlain(s[1..]);
      assert s == [s[0]] + s[1..];
    }
  }

  /** Joining a head onto at least one more piece puts one separator between them. */
  lemma JoinCons(head: string, rest: seq<string>, sep: char)
    requires |rest| >= 1
    ensures Join([head] + rest, sep) == head + [sep] + Join(rest, sep)
  {
    assert ([head] + rest)[1..] == rest;
  }

  /** Joining two non-empty lists of pieces is joining each and gluing the
      results with one separator. */
  lemma {:induction false} JoinAppend(a: seq<string>, b: seq<string>, sep: char)
    requires |a| >= 1 && |b| >= 1
    ensures Join(a + b, sep) == Join(a, sep) + [sep] + Join(b, sep)
    decreases |a|
  {
    if |a| == 1 {
      assert a + b == [a[0]] + b;
      JoinCons(a[0], b, sep);
    } else {
      assert a + b == [a[0]] + (a[1..] + b);
      JoinCons(a[0], a[1..] + b, sep);
      JoinAppend(a[1..], b, sep);
      assert a == [a[0]] + a[1..];
      JoinCons(a[0], a[1..], sep);
    }
  }

  /** Splitting and joining back on the same separator gives the original string. */
  lemma {:induction false} JoinSplit(s: string, sep: char)
    ensures Join(Split(s, sep), sep) == s
    decreases |s|
  {
    if |s| > 0 {
      var rest := Split(s[1..], sep);
      JoinSplit(s[1..], sep);
      assert s == [s[0]] + s[1..];
      if s[0] == sep {
        JoinCons("", rest, sep);
      } else if |rest| == 1 {
        assert Split(s, sep) == [[s[0]] + rest[0]];
      } else {
        var parts := Split(s, sep);
        assert parts == [[s[0]] + rest[0]] + rest[1..];
        JoinCons([s[0]] + rest[0], rest[1..], sep);
        assert rest == [rest[0]] + rest[1..];
        JoinCons(rest[0], rest[1..], sep);
      }
    }
  }

  /** A string without the separator is a single piece. */
  lemma {:induction false} SplitWithoutSeparator(a: string, sep: char)
    requires sep !in a
    ensures Split(a, sep) == [a]
    decreases |a|
  {
    if |a| > 0 {
      SplitWithoutSeparator(a[1..], sep);
      assert [a[0]] + a[1..] == a;
    }
  }

  /** A separator-free head followed by a separator splits off as the first piece. */
  lemma {:induction false} SplitAfterHead(a: string, b: string, sep: char)
    requires sep !in a
    ensures Split(a + [sep] + b, sep) == [a] + Split(b, sep)
    decreases |a|
  {
    var s := a + [sep] + b;
    if |a| == 0 {
      assert s[1..] == b;
    } else {
      assert s[1..] == a[1..] + [sep] + b;
      SplitAfterHead(a[1..], b, sep);
      assert [a[0]] + a[1..] == a;
    }
  }

  /** Joining separator-free pieces and splitting back gives the pieces again. */
  lemma {:induction false} SplitJoin(parts: seq<string>, sep: char)
    requires |parts| >= 1
    requires forall i :: 0 <= i < |parts| ==> sep !in parts[i]
    ensures Split(Join(parts, sep), sep) == parts
    decreases |parts|
  {
    if |parts| == 1 {
      SplitWithoutSeparator(parts[0], sep);
    } else {
      SplitJoin(parts[1..], sep);
      SplitAfterHead(parts[0], Join(parts[1..], sep), sep);
      assert parts == [parts[0]] + parts[1..];
    }
  }

  /** Replacing in a concatenation is replacing in each part. */
  lemma {:induction false} ReplaceAllAppend(a: string, b: string, c: char, rep: string)
    ensures ReplaceAll(a + b, c, rep) == ReplaceAll(a, c, rep) + ReplaceAll(b, c, rep)
    decreases |a|
  {
    if |a| == 0 {
      assert a + b == b;
    } else {
      assert (a + b)[1..] == a[1..] + b;
      ReplaceAllAppend(a[1..], b, c, rep);
    }
  }
}
