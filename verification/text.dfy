/**
  The Python string operations the proxy relies on: `str.split` on one
  separator character, its inverse `sep.join`, and `str.lstrip` of one
  character, together with the "one leading character" normalisation the
  proxy builds from `lstrip` when it rebuilds the upstream URL.
 */
module Text {

  /** `s.split(sep)`: the pieces between occurrences of `sep`, left to right.
      Like Python, the result is never empty (`"".split(",") == [""]`) and
      pieces are not trimmed. */
  function Split(s: string, sep: char): (r: seq<string>)
    ensures |r| == multiset(s)[sep] + 1
    ensures forall p :: p in r ==> sep !in p
    ensures sep !in s ==> r == [s]
    decreases |s|
  {
    if s == [] then [""]
    else
      var rest := Split(s[1..], sep);
      assert s == [s[0]] + s[1..];
      if s[0] == sep then [""] + rest
      else [[s[0]] + rest[0]] + rest[1..]
  }

  /** `sep.join(parts)`. */
  function Join(parts: seq<string>, sep: char): (r: string)
  {
    if parts == [] then ""
    else if |parts| == 1 then parts[0]
    else parts[0] + [sep] + Join(parts[1..], sep)
  }

  /** One step of `Split`: the first character either ends an empty first
      piece or joins the first piece of the rest. */
  lemma SplitCons(c: char, t: string, sep: char)
    ensures Split([c] + t, sep) ==
              if c == sep then [""] + Split(t, sep)
              else [[c] + Split(t, sep)[0]] + Split(t, sep)[1..]
  {
    assert ([c] + t)[1..] == t;
  }

  /** Prepending an empty piece prepends the separator to the join. */
  lemma JoinEmptyHead(rest: seq<string>, sep: char)
    requires rest != []
    ensures Join([""] + rest, sep) == [sep] + Join(rest, sep)
  {
    assert ([""] + rest)[1..] == rest;
  }

  /** Prepending a character to the first piece prepends it to the join. */
  lemma JoinHead(c: char, q: string, rest: seq<string>, sep: char)
    ensures Join([[c] + q] + rest, sep) == [c] + Join([q] + rest, sep)
  {
    var a, b := [[c] + q] + rest, [q] + rest;
    assert a[1..] == rest && b[1..] == rest;
  }

  /** Joining the pieces of a split gives back the string. */
  lemma {:induction false} JoinSplit(s: string, sep: char)
    ensures Join(Split(s, sep), sep) == s
    decreases |s|
  {
    if s != [] {
      var c, t := s[0], s[1..];
      assert s == [c] + t;
      var rest := Split(t, sep);
      JoinSplit(t, sep);
      SplitCons(c, t, sep);
      if c == sep {
        JoinEmptyHead(rest, sep);
      } else {
        JoinHead(c, rest[0], rest[1..], sep);
        assert [rest[0]] + rest[1..] == rest;
      }
    }
  }

  /** A string without the separator splits into itself alone. */
  lemma {:induction false} SplitSeparatorFree(p: string, sep: char)
    requires sep !in p
    ensures Split(p, sep) == [p]
    decreases |p|
  {
    if p != [] {
      SplitSeparatorFree(p[1..], sep);
      assert p == [p[0]] + p[1..];
    }
  }

  /** A separator-free prefix followed by the separator is split off as one piece. */
  lemma {:induction false} SplitPrefix(p: string, sep: char, t: string)
    requires sep !in p
    ensures Split(p + [sep] + t, sep) == [p] + Split(t, sep)
    decreases |p|
  {
    var s := p + [sep] + t;
    if p == [] {
      assert s[1..] == t;
    } else {
      assert s[1..] == p[1..] + [sep] + t;
      SplitPrefix(p[1..], sep, t);
      assert [p[0]] + p[1..] == p;
    }
  }

  /** Splitting a join of separator-free pieces gives back the pieces. */
  lemma {:induction false} SplitJoin(parts: seq<string>, sep: char)
    requires parts != []
    requires forall p :: p in parts ==> sep !in p
    ensures Split(Join(parts, sep), sep) == parts
    decreases |parts|
  {
    if |parts| == 1 {
      SplitSeparatorFree(parts[0], sep);
    } else {
      assert parts[0] in parts;
      assert forall p :: p in parts[1..] ==> p in parts;
      SplitJoin(parts[1..], sep);
      SplitPrefix(parts[0], sep, Join(parts[1..], sep));
      assert [parts[0]] + parts[1..] == parts;
    }
  }

  /** `s.lstrip(c)` for a single character `c`: every leading `c` removed. */
  function LStrip(s: string, c: char): (r: string)
    ensures |r| <= |s| && r == s[|s| - |r|..]
    ensures r == [] || r[0] != c
    ensures forall i :: 0 <= i < |s| - |r| ==> s[i] == c
    decreases |s|
  {
    if s != [] && s[0] == c then LStrip(s[1..], c) else s
  }

  /** `c + s.lstrip(c) if s else ''`: a non-empty string made to start with
      exactly one `c`; the empty string stays empty. */
  function LeadWith(s: string, c: char): (r: string)
    ensures s == [] <==> r == []
    ensures |r| <= |s| + 1
    ensures s != [] ==> r[0] == c && (|r| == 1 || r[1] != c)
    ensures s != [] ==> r[1..] == s[|s| - (|r| - 1)..]
    ensures s != [] ==> forall i :: 0 <= i < |s| - (|r| - 1) ==> s[i] == c
  {
    if s == [] then [] else [c] + LStrip(s, c)
  }

  /** Normalising twice is normalising once. */
  lemma LeadWithIdempotent(s: string, c: char)
    ensures LeadWith(LeadWith(s, c), c) == LeadWith(s, c)
  {
    if s != [] {
      var r := LeadWith(s, c);
      assert r[1..] == LStrip(s, c);
      assert LStrip(r, c) == LStrip(r[1..], c);
    }
  }

  /** A string that already starts with exactly one `c` is left as it is. */
  lemma LeadWithNormalised(s: string, c: char)
    requires s != [] && s[0] == c && (|s| == 1 || s[1] != c)
    ensures LeadWith(s, c) == s
  {
    assert LStrip(s, c) == LStrip(s[1..], c);
    assert [s[0]] + s[1..] == s;
  }

  /** A string that does not start with `c` just gains one `c` in front. */
  lemma LeadWithUnprefixed(s: string, c: char)
    requires s != [] && s[0] != c
    ensures LeadWith(s, c) == [c] + s
  {
  }
}
