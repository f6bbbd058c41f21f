/**
 * The few JavaScript String operations the page relies on: `trim`, `split`
 * on a one-character separator (with its inverse, `join`), and a global
 * replacement of one character by another.
 */
module JsString {

  /** The characters `String.prototype.trim` removes: ECMAScript WhiteSpace and LineTerminator. */
  predicate IsWhiteSpace(c: char)
  {
    || c == '\t' || c == '\n' || c == '\U{000B}' || c == '\U{000C}' || c == '\r' || c == ' '
    || c == '\U{00A0}' || c == '\U{1680}' || ('\U{2000}' <= c <= '\U{200A}')
    || c == '\U{2028}' || c == '\U{2029}' || c == '\U{202F}' || c == '\U{205F}'
    || c == '\U{3000}' || c == '\U{FEFF}'
  }

  predicate AllWhiteSpace(s: string)
  {
    forall i :: 0 <= i < |s| ==> IsWhiteSpace(s[i])
  }

  /** Drops leading white space. */
  function TrimStart(s: string): string
  {
    if s != [] && IsWhiteSpace(s[0]) then TrimStart(s[1..]) else s
  }

  /** Drops trailing white space. */
  function TrimEnd(s: string): string
  {
    if s != [] && IsWhiteSpace(s[|s| - 1]) then TrimEnd(s[..|s| - 1]) else s
  }

  /** What `TrimStart` leaves is a suffix that starts with a non-space, after white space only. */
  lemma {:induction false} TrimStartSpec(s: string)
    ensures var r := TrimStart(s);
      && |r| <= |s| && r == s[|s| - |r|..]
      && AllWhiteSpace(s[..|s| - |r|])
      && (r != [] ==> !IsWhiteSpace(r[0]))
  {
    if s != [] && IsWhiteSpace(s[0]) {
      TrimStartSpec(s[1..]);
      var r := TrimStart(s);
      assert s[..|s| - |r|] == [s[0]] + s[1..][..|s| - 1 - |r|];
    }
  }

  /** What `TrimEnd` leaves is a prefix that ends with a non-space, before white space only. */
  lemma {:induction false} TrimEndSpec(s: string)
    ensures var r := TrimEnd(s);
      && |r| <= |s| && r == s[..|r|]
      && AllWhiteSpace(s[|r|..])
      && (r != [] ==> !IsWhiteSpace(r[|r| - 1]))
  {
    if s != [] && IsWhiteSpace(s[|s| - 1]) {
      var t := s[..|s| - 1];
      TrimEndSpec(t);
      var r := TrimEnd(s);
      assert s[|r|..] == t[|r|..] + [s[|s| - 1]];
      assert s[..|r|] == t[..|r|];
    }
  }

  /**
   * `s.trim()`: the input with its leading and trailing white space removed. What
   * remains is a middle slice of the input, empty exactly when the input is all
   * white space, and otherwise neither starting nor ending with white space.
   */
  function Trim(s: string): (r: string)
    ensures var k := |s| - |TrimStart(s)|;
      && 0 <= k && k + |r| <= |s| && r == s[k..k + |r|]
      && AllWhiteSpace(s[..k]) && AllWhiteSpace(s[k + |r|..])
    ensures r == [] <==> AllWhiteSpace(s)
    ensures r != [] ==> !IsWhiteSpace(r[0]) && !IsWhiteSpace(r[|r| - 1])
  {
    TrimMiddle(s);
    TrimEnd(TrimStart(s))
  }

  /** Trimming the start and then the end leaves a middle slice between two runs of white space. */
  lemma TrimMiddle(s: string)
    ensures var t := TrimStart(s); var r := TrimEnd(t); var k := |s| - |t|;
      && 0 <= k && k + |r| <= |s| && r == s[k..k + |r|]
      && AllWhiteSpace(s[..k]) && AllWhiteSpace(s[k + |r|..])
      && (r == [] <==> AllWhiteSpace(s))
      && (r != [] ==> !IsWhiteSpace(r[0]) && !IsWhiteSpace(r[|r| - 1]))
  {
    var t := TrimStart(s);
    var r := TrimEnd(t);
    TrimStartSpec(s);
    TrimEndSpec(t);
    var k := |s| - |t|;
    assert r == s[k..k + |r|];
    assert s[k + |r|..] == t[|r|..];
    if r != [] {
      assert r[0] == t[0];
    }
    if r == [] {
      forall i | 0 <= i < |s| ensures IsWhiteSpace(s[i]) {
        assert s[i] == s[..k][i];
      }
    }
  }

  lemma {:induction false} TrimIdempotent(s: string)
    ensures Trim(Trim(s)) == Trim(s)
  {
    var t := Trim(s);
    if t != [] {
      assert TrimStart(t) == t;
      assert TrimEnd(t) == t;
    }
  }

  /** A string that neither starts nor ends with white space is its own trim. */
  lemma TrimUnpadded(s: string)
    requires s != [] && !IsWhiteSpace(s[0]) && !IsWhiteSpace(s[|s| - 1])
    ensures Trim(s) == s
  {
    assert TrimStart(s) == s;
  }

  /** Number of occurrences of `c` in `s`. */
  function Count(s: string, c: char): nat
  {
    if s == [] then 0 else (if s[0] == c then 1 else 0) + Count(s[1..], c)
  }

  lemma {:induction false} CountAbsent(s: string, c: char)
    ensures Count(s, c) == 0 <==> c !in s
  {
    if s != [] {
      CountAbsent(s[1..], c);
      assert s == [s[0]] + s[1..];
    }
  }

  /** `s.split(sep)` for a one-character separator: the pieces between the separators. */
  function Split(s: string, sep: char): (parts: seq<string>)
    ensures |parts| == Count(s, sep) + 1
    ensures forall i :: 0 <= i < |parts| ==> sep !in parts[i]
  {
    if s == [] then [[]]
    else
      var rest := Split(s[1..], sep);
      if s[0] == sep then [[]] + rest
      else [[s[0]] + rest[0]] + rest[1..]
  }

  /** `parts.join(sep)`. */
  function Join(parts: seq<string>, sep: char): string
  {
    if parts == [] then []
    else if |parts| == 1 then parts[0]
    else parts[0] + [sep] + Join(parts[1..], sep)
  }

  /** An empty first piece contributes just the separator. */
  lemma JoinEmptyFirst(rest: seq<string>, sep: char)
    requires rest != []
    ensures Join([[]] + rest, sep) == [sep] + Join(rest, sep)
  {
    assert ([[]] + rest)[1..] == rest;
  }

  /** Text glued to the front of the first piece ends up at the front of the join. */
  lemma JoinGlueFirst(x: string, parts: seq<string>, sep: char)
    requires parts != []
    ensures Join([x + parts[0]] + parts[1..], sep) == x + Join(parts, sep)
  {
    var glued := [x + parts[0]] + parts[1..];
    assert glued[0] == x + parts[0];
    if |parts| > 1 {
      assert glued[1..] == parts[1..];
    }
  }

  /** Joining the pieces of a split gives back the string that was split. */
  lemma {:induction false} JoinSplit(s: string, sep: char)
    ensures Join(Split(s, sep), sep) == s
  {
    if s != [] {
      var rest := Split(s[1..], sep);
      JoinSplit(s[1..], sep);
      if s[0] == sep {
        JoinEmptyFirst(rest, sep);
      } else {
        JoinGlueFirst([s[0]], rest, sep);
      }
      assert s == [s[0]] + s[1..];
    }
  }

  /** Splitting a join of separator-free pieces gives back the pieces. */
  lemma {:induction false} SplitJoin(parts: seq<string>, sep: char)
    requires parts != []
    requires forall i :: 0 <= i < |parts| ==> sep !in parts[i]
    ensures Split(Join(parts, sep), sep) == parts
  {
    if |parts| == 1 {
      SplitNoSeparator(parts[0], sep);
    } else {
      SplitJoin(parts[1..], sep);
      var tail := Join(parts[1..], sep);
      SplitPrefix(parts[0], [sep] + tail, sep);
      assert ([sep] + tail)[1..] == tail;
      assert Split([sep] + tail, sep) == [[]] + parts[1..];
      assert parts[0] + [sep] + tail == parts[0] + ([sep] + tail);
      assert ([[]] + parts[1..])[1..] == parts[1..];
      assert parts[0] + [] == parts[0];
      assert [parts[0]] + parts[1..] == parts;
    }
  }

  lemma {:induction false} SplitNoSeparator(w: string, sep: char)
    requires sep !in w
    ensures Split(w, sep) == [w]
  {
    if w != [] {
      assert sep !in w[1..];
      SplitNoSeparator(w[1..], sep);
      assert w == [w[0]] + w[1..];
    }
  }

  /** A separator-free prefix glues onto the first piece of what follows it. */
  lemma {:induction false} SplitPrefix(w: string, t: string, sep: char)
    requires sep !in w
    ensures Split(w + t, sep) == [w + Split(t, sep)[0]] + Split(t, sep)[1..]
  {
    if w != [] {
      assert sep !in w[1..];
      SplitPrefix(w[1..], t, sep);
      var p := Split(t, sep);
      var rest := Split(w[1..] + t, sep);
      assert (w + t)[1..] == w[1..] + t;
      assert (w + t)[0] == w[0] != sep;
      assert rest[0] == w[1..] + p[0] && rest[1..] == p[1..];
      assert Split(w + t, sep) == [[w[0]] + rest[0]] + rest[1..];
      assert [w[0]] + (w[1..] + p[0]) == w + p[0];
    } else {
      var p := Split(t, sep);
      assert w + t == t && w + p[0] == p[0];
      assert [p[0]] + p[1..] == p;
    }
  }

  /** `s.replace(/from/g, to)` for single characters. */
  function ReplaceAll(s: string, from: char, to: char): (r: string)
    ensures |r| == |s|
    ensures forall i :: 0 <= i < |s| ==> r[i] == (if s[i] == from then to else s[i])
  {
    seq(|s|, i requires 0 <= i < |s| => if s[i] == from then to else s[i])
  }
}
