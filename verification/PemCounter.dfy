/**
 The one-pass counter of complete PEM private-key blocks (`count_pem_key_blocks` in
 `scripts/guard-secrets.sh`) against a count that looks at all lines at once.
 */
module PemCounter {
  import opened Text

  const MIN_BODY := 200

  predicate LabelChar(c: char) { 'A' <= c <= 'Z' || '0' <= c <= '9' || c == ' ' }

  predicate Base64Char(c: char) {
    'A' <= c <= 'Z' || 'a' <= c <= 'z' || '0' <= c <= '9' || c == '+' || c == '/' || c == '='
  }

  /** Any run of label characters, then the closing of a marker. */
  predicate LabelThenClose(rest: string) {
    StartsWith(rest, "PRIVATE KEY-----") || (rest != "" && LabelChar(rest[0]) && LabelThenClose(rest[1..]))
  }

  /** The marker occurs somewhere in the line. */
  predicate Marks(line: string, opening: string) {
    || (StartsWith(line, opening) && LabelThenClose(line[|opening|..]))
    || (line != "" && Marks(line[1..], opening))
  }

  predicate IsBegin(line: string) { Marks(line, "-----BEGIN ") }

  predicate IsEnd(line: string) { Marks(line, "-----END ") }

  /** A label at `from`: label characters up to `to`, where the closing stands. */
  predicate LabelAt(line: string, from: nat, to: nat) {
    && from <= to && to + 16 <= |line| && line[to..to + 16] == "PRIVATE KEY-----"
    && forall k | from <= k < to :: 'A' <= line[k] <= 'Z' || '0' <= line[k] <= '9' || line[k] == ' '
  }

  ghost predicate Labelled(line: string, from: nat) { exists to: nat :: LabelAt(line, from, to) }

  predicate OpeningAt(line: string, opening: string, i: nat) {
    i + |opening| <= |line| && line[i..i + |opening|] == opening
  }

  lemma {:induction false} LabelMeans(line: string, from: nat)
    requires from <= |line|
    ensures LabelThenClose(line[from..]) <==> Labelled(line, from)
    decreases |line| - from
  {
    var rest := line[from..];
    assert StartsWith(rest, "PRIVATE KEY-----") <==> LabelAt(line, from, from);
    if rest != "" {
      assert rest[1..] == line[from + 1..];
      LabelMeans(line, from + 1);
      if LabelChar(rest[0]) && LabelThenClose(rest[1..]) {
        var to: nat :| LabelAt(line, from + 1, to);
        assert LabelAt(line, from, to);
      }
      if to: nat :| LabelAt(line, from, to) && to > from {
        assert LabelAt(line, from + 1, to);
      }
    }
  }

  /** What a marker is, at a place of the line. */
  predicate MarkerAt(line: string, opening: string, i: nat, to: nat) {
    OpeningAt(line, opening, i) && LabelAt(line, i + |opening|, to)
  }

  ghost predicate MarkedAt(line: string, opening: string, i: nat) { exists to: nat :: MarkerAt(line, opening, i, to) }

  ghost predicate MarkedFrom(line: string, opening: string, from: nat) {
    exists i: nat :: from <= i && MarkedAt(line, opening, i)
  }

  lemma OpensHere(line: string, opening: string, from: nat)
    requires from <= |line|
    ensures StartsWith(line[from..], opening) <==> OpeningAt(line, opening, from)
    ensures OpeningAt(line, opening, from) ==> line[from..][|opening|..] == line[from + |opening|..]
  {
    if from + |opening| <= |line| {
      assert line[from..][..|opening|] == line[from..from + |opening|];
    }
  }

  lemma MarksHere(line: string, opening: string, from: nat)
    requires from <= |line|
    ensures StartsWith(line[from..], opening) && LabelThenClose(line[from..][|opening|..]) <==>
              MarkedAt(line, opening, from)
  {
    OpensHere(line, opening, from);
    if OpeningAt(line, opening, from) {
      LabelMeans(line, from + |opening|);
      if Labelled(line, from + |opening|) {
        var to: nat :| LabelAt(line, from + |opening|, to);
        assert MarkerAt(line, opening, from, to);
      }
    }
  }

  lemma {:induction false} MarksMeans(line: string, opening: string, from: nat)
    requires from <= |line|
    ensures Marks(line[from..], opening) <==> MarkedFrom(line, opening, from)
    decreases |line| - from
  {
    MarksHere(line, opening, from);
    if from < |line| {
      assert line[from..][1..] == line[from + 1..];
      MarksMeans(line, opening, from + 1);
    }
    if i: nat :| from <= i && MarkedAt(line, opening, i) && i != from {
      var to: nat :| MarkerAt(line, opening, i, to);
      assert MarkedFrom(line, opening, from + 1);
    }
  }

  lemma MarkedSomewhere(line: string, opening: string)
    ensures MarkedFrom(line, opening, 0) <==> exists i: nat, to: nat :: MarkerAt(line, opening, i, to)
  {
    if i: nat, to: nat :| MarkerAt(line, opening, i, to) {
      assert MarkedAt(line, opening, i);
    }
  }

  /** A line opens or ends a key exactly if it holds the marker's two ends with nothing but a label between them. */
  lemma MarkersAreLabelled(line: string)
    ensures IsBegin(line) <==> exists i: nat, to: nat :: MarkerAt(line, "-----BEGIN ", i, to)
    ensures IsEnd(line) <==> exists i: nat, to: nat :: MarkerAt(line, "-----END ", i, to)
  {
    assert line[0..] == line;
    MarksMeans(line, "-----BEGIN ", 0);
    MarksMeans(line, "-----END ", 0);
    MarkedSomewhere(line, "-----BEGIN ");
    MarkedSomewhere(line, "-----END ");
  }

  predicate IsBase64(line: string) {
    line != "" && forall k | 0 <= k < |line| :: Base64Char(line[k])
  }

  lemma {:induction false} MarkersHaveADash(line: string, opening: string)
    requires Marks(line, opening) && opening != "" && opening[0] == '-'
    ensures '-' in line
  {
    if StartsWith(line, opening) {
      assert line[..|opening|][0] == line[0];
    } else {
      MarkersHaveADash(line[1..], opening);
    }
  }

  lemma MarkersAreNotBase64(line: string)
    ensures IsBegin(line) || IsEnd(line) ==> !IsBase64(line)
  {
    if IsBegin(line) {
      MarkersHaveADash(line, "-----BEGIN ");
    } else if IsEnd(line) {
      MarkersHaveADash(line, "-----END ");
    }
    assert !Base64Char('-');
  }

  function BodyLength(body: seq<string>): nat {
    if body == [] then 0 else BodyLength(body[..|body| - 1]) + |body[|body| - 1]|
  }

  /** Lines `b` and `e` open and close a span with nothing but base64 between them. */
  predicate Spans(lines: seq<string>, b: nat, e: nat) {
    b < e <= |lines| && IsBegin(lines[b]) && forall k | b < k < e :: IsBase64(lines[k])
  }

  /** Line `e` ends a complete block: its nearest preceding line that is not base64 opens one. */
  predicate CompleteAt(lines: seq<string>, e: nat)
    requires e < |lines|
  {
    && IsEnd(lines[e]) && !IsBegin(lines[e])
    && exists b | 0 <= b < e :: Spans(lines, b, e) && BodyLength(lines[b + 1..e]) >= 200
  }

  function Ends(lines: seq<string>): nat -> bool {
    (e: nat) => e < |lines| && CompleteAt(lines, e)
  }

  function Below(p: nat -> bool, n: nat): set<nat> {
    set e: nat | e < n && p(e)
  }

  /** The lines that end a complete block. */
  function CompleteEnds(lines: seq<string>): set<nat> {
    Below(Ends(lines), |lines|)
  }

  lemma CountStep(p: nat -> bool, n: nat)
    ensures |Below(p, n + 1)| == |Below(p, n)| + (if p(n) then 1 else 0)
  {
    assert Below(p, n + 1) == Below(p, n) + (if p(n) then {n} else {});
  }

  lemma SpanHasOneStart(lines: seq<string>, b: nat, c: nat, e: nat)
    requires Spans(lines, b, e) && Spans(lines, c, e)
    ensures b == c
  {
    MarkersAreNotBase64(lines[b]);
    MarkersAreNotBase64(lines[c]);
  }

  /** No line belongs to two complete blocks: the spans of different ends do not overlap. */
  lemma SpansAreDisjoint(lines: seq<string>, b: nat, e: nat, c: nat, f: nat)
    requires e < f < |lines| && IsEnd(lines[e]) && !IsBegin(lines[e])
    requires Spans(lines, b, e) && Spans(lines, c, f)
    ensures b < e < c < f
  {
    MarkersAreNotBase64(lines[e]);
  }

  /** One line further: an opening starts a span, base64 carries one on, anything else ends it. */
  lemma SpanStep(lines: seq<string>, c: nat, i: nat)
    requires i < |lines|
    ensures Spans(lines, c, i + 1) <==>
              (c == i && IsBegin(lines[i])) || (c < i && Spans(lines, c, i) && IsBase64(lines[i]))
  {
  }

  lemma SpansStep(lines: seq<string>, i: nat)
    requires i < |lines|
    ensures forall c: nat {:trigger Spans(lines, c, i + 1)} :: Spans(lines, c, i + 1) <==>
              (c == i && IsBegin(lines[i])) || (c < i && Spans(lines, c, i) && IsBase64(lines[i]))
    ensures IsBegin(lines[i]) || IsEnd(lines[i]) ==> !IsBase64(lines[i])
  {
    MarkersAreNotBase64(lines[i]);
    forall c: nat
      ensures Spans(lines, c, i + 1) <==>
                (c == i && IsBegin(lines[i])) || (c < i && Spans(lines, c, i) && IsBase64(lines[i]))
    {
      SpanStep(lines, c, i);
    }
  }

  lemma CompleteInSpan(lines: seq<string>, b: nat, i: nat)
    requires i < |lines| && Spans(lines, b, i)
    ensures CompleteAt(lines, i) <==> IsEnd(lines[i]) && !IsBegin(lines[i]) && BodyLength(lines[b + 1..i]) >= MIN_BODY
  {
    forall c: nat | Spans(lines, c, i) ensures c == b {
      SpanHasOneStart(lines, b, c, i);
    }
  }

  /** What the automaton knows before line `i`. */
  ghost predicate Knows(lines: seq<string>, i: nat, inkey: bool, acc: nat, b: nat) {
    && i <= |lines|
    && (inkey ==> Spans(lines, b, i) && acc == BodyLength(lines[b + 1..i]))
    && (!inkey ==> forall c: nat :: !Spans(lines, c, i))
  }

  lemma KnowsStep(lines: seq<string>, i: nat, inkey: bool, acc: nat, b: nat)
    requires i < |lines| && Knows(lines, i, inkey, acc, b)
    ensures IsBegin(lines[i]) ==> Knows(lines, i + 1, true, 0, i)
    ensures !IsBegin(lines[i]) && inkey && IsBase64(lines[i]) ==> Knows(lines, i + 1, true, acc + |lines[i]|, b)
    ensures !IsBegin(lines[i]) && (!inkey || !IsBase64(lines[i])) ==> Knows(lines, i + 1, false, acc, b)
  {
    SpansStep(lines, i);
    if IsBegin(lines[i]) {
      assert lines[i + 1..i + 1] == [];
    } else if inkey && IsBase64(lines[i]) {
      assert lines[b + 1..i + 1] == lines[b + 1..i] + [lines[i]];
    }
  }

  lemma EndsStep(lines: seq<string>, i: nat, inkey: bool, acc: nat, b: nat)
    requires i < |lines| && Knows(lines, i, inkey, acc, b)
    ensures |Below(Ends(lines), i + 1)| == |Below(Ends(lines), i)| +
              (if inkey && !IsBegin(lines[i]) && IsEnd(lines[i]) && acc >= MIN_BODY then 1 else 0)
    ensures IsEnd(lines[i]) ==> !IsBase64(lines[i])
  {
    CountStep(Ends(lines), i);
    MarkersAreNotBase64(lines[i]);
    if inkey {
      CompleteInSpan(lines, b, i);
    }
  }

  /** The automaton: an open span, the characters seen in it, and the count so far. */
  method CountPemKeyBlocks(lines: seq<string>) returns (n: nat)
    ensures n == |CompleteEnds(lines)|
  {
    n := 0;
    var inkey := false;
    var acc: nat := 0;
    ghost var b: nat := 0;
    for i := 0 to |lines|
      invariant n == |Below(Ends(lines), i)|
      invariant Knows(lines, i, inkey, acc, b)
    {
      var line := lines[i];
      KnowsStep(lines, i, inkey, acc, b);
      EndsStep(lines, i, inkey, acc, b);
      if IsBegin(line) {
        inkey, acc, b := true, 0, i;
      } else if inkey {
        if IsEnd(line) {
          if acc >= MIN_BODY {
            n := n + 1;
          }
          inkey := false;
        } else if IsBase64(line) {
          acc := acc + |line|;
        } else {
          inkey := false;
        }
      }
    }
  }
}
