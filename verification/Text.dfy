/**
 String operations the program takes from its standard library: splitting at a separator,
 joining, prefix tests, and the last-separator and first-separator splits.
 */
module Text {
  import opened Common

  /** The pieces of `s` between occurrences of `sep`; always at least one piece. */
  function Split(s: string, sep: char): (parts: seq<string>)
    ensures |parts| >= 1
    ensures forall p :: p in parts ==> sep !in p
  {
    if s == "" then [""]
    else
      var rest := Split(s[1..], sep);
      if s[0] == sep then [""] + rest else [[s[0]] + rest[0]] + rest[1..]
  }

  /** The pieces with `sep` between each two of them. */
  function Join(parts: seq<string>, sep: char): string {
    if parts == [] then ""
    else if |parts| == 1 then parts[0]
    else parts[0] + [sep] + Join(parts[1..], sep)
  }

  lemma JoinCons(c: char, parts: seq<string>, sep: char)
    requires parts != []
    ensures Join([[c] + parts[0]] + parts[1..], sep) == [c] + Join(parts, sep)
  {
  }

  lemma {:induction false} JoinSplit(s: string, sep: char)
    ensures Join(Split(s, sep), sep) == s
  {
    if s != "" {
      JoinSplit(s[1..], sep);
      var rest := Split(s[1..], sep);
      if s[0] == sep {
        var parts := [""] + rest;
        assert parts[1..] == rest;
        assert Join(parts, sep) == [sep] + s[1..];
      } else {
        JoinCons(s[0], rest, sep);
      }
    }
  }

  /** A piece without separators, followed by a separator, is the first piece. */
  lemma {:induction false} SplitHead(p: string, tail: string, sep: char)
    requires sep !in p
    ensures Split(p + [sep] + tail, sep) == [p] + Split(tail, sep)
  {
    var s := p + [sep] + tail;
    if p == "" {
      assert s[1..] == tail;
    } else {
      assert s[1..] == p[1..] + [sep] + tail;
      SplitHead(p[1..], tail, sep);
      var rest := Split(s[1..], sep);
      assert rest == [p[1..]] + Split(tail, sep);
      assert rest[1..] == Split(tail, sep);
      assert [s[0]] + rest[0] == p;
    }
  }

  lemma {:induction false} SplitWhole(p: string, sep: char)
    requires sep !in p
    ensures Split(p, sep) == [p]
  {
    if p != "" {
      SplitWhole(p[1..], sep);
      assert [p[0]] + p[1..] == p;
    }
  }

  lemma {:induction false} SplitJoin(parts: seq<string>, sep: char)
    requires parts != []
    requires forall p :: p in parts ==> sep !in p
    ensures Split(Join(parts, sep), sep) == parts
  {
    if |parts| == 1 {
      SplitWhole(parts[0], sep);
    } else {
      SplitHead(parts[0], Join(parts[1..], sep), sep);
      SplitJoin(parts[1..], sep);
    }
  }

  predicate StartsWith(s: string, prefix: string) {
    |prefix| <= |s| && s[..|prefix|] == prefix
  }

  /** What follows the last `sep`, or all of `s` when there is none (`rsplit(sep).next()`). */
  function AfterLast(s: string, sep: char): string {
    var parts := Split(s, sep);
    parts[|parts| - 1]
  }

  lemma AfterLastWhole(s: string, sep: char)
    requires sep !in s
    ensures AfterLast(s, sep) == s
  {
    SplitWhole(s, sep);
  }

  lemma {:induction false} TwoPieces(head: string, tail: string, sep: char)
    ensures |Split(head + [sep] + tail, sep)| >= 2
  {
    var s := head + [sep] + tail;
    if head == "" {
      assert s[1..] == tail;
    } else {
      assert s[1..] == head[1..] + [sep] + tail;
      TwoPieces(head[1..], tail, sep);
    }
  }

  lemma {:induction false} AfterLastOf(head: string, tail: string, sep: char)
    requires sep !in tail
    ensures AfterLast(head + [sep] + tail, sep) == tail
  {
    var s := head + [sep] + tail;
    if head == "" {
      SplitHead("", tail, sep);
      SplitWhole(tail, sep);
      assert s == "" + [sep] + tail;
    } else {
      AfterLastOf(head[1..], tail, sep);
      assert s[1..] == head[1..] + [sep] + tail;
      TwoPieces(head[1..], tail, sep);
    }
  }

  /** What follows the first `sep`, if there is one (`split_once(sep)`, second half). */
  function AfterFirst(s: string, sep: char): Option<string> {
    if s == "" then None
    else if s[0] == sep then Some(s[1..])
    else AfterFirst(s[1..], sep)
  }

  lemma {:induction false} AfterFirstOf(head: string, tail: string, sep: char)
    requires sep !in head
    ensures AfterFirst(head + [sep] + tail, sep) == Some(tail)
  {
    var s := head + [sep] + tail;
    if head == "" {
      assert s[1..] == tail;
    } else {
      assert s[1..] == head[1..] + [sep] + tail;
      AfterFirstOf(head[1..], tail, sep);
    }
  }

  /** Two texts cut at a separator the tails do not contain agree in both halves. */
  lemma CutAtLastUnique(a: string, s: string, b: string, t: string, sep: char)
    requires sep !in s && sep !in t
    requires a + [sep] + s == b + [sep] + t
    ensures a == b && s == t
  {
    AfterLastOf(a, s, sep);
    AfterLastOf(b, t, sep);
    var w := a + [sep] + s;
    assert w[..|a|] == a;
    assert w[..|b|] == b;
  }

  /** The same for a separator the heads do not contain. */
  lemma CutAtFirstUnique(a: string, s: string, b: string, t: string, sep: char)
    requires sep !in a && sep !in b
    requires a + [sep] + s == b + [sep] + t
    ensures a == b && s == t
  {
    AfterFirstOf(a, s, sep);
    AfterFirstOf(b, t, sep);
    var w := a + [sep] + s;
    assert |a| == |b|;
    assert w[..|a|] == a;
    assert w[..|b|] == b;
  }
}
