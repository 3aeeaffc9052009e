/** The tokenizers of the lexical evaluation (scripts/chinese_lexical_shadow_eval.py:46-92). What the code does with a
    run outside the CJK class, lower-casing and picking out words, is a parameter `latin`; all that matters of it is
    that its words hold no CJK character. */
module Tokenizers {
  import Bm25

  predicate IsCjk(c: char) {
    '\U{3040}' <= c <= '\U{30FF}' || '\U{3400}' <= c <= '\U{4DBF}' || '\U{4E00}' <= c <= '\U{9FFF}' ||
    '\U{F900}' <= c <= '\U{FAFF}' || '\U{AC00}' <= c <= '\U{D7AF}'
  }

  datatype Run = Run(cjk: bool, text: string)

  /** Nothing `latin` finds contains a CJK character. */
  ghost predicate LatinWords(latin: string -> seq<string>) {
    forall text, word :: word in latin(text) ==> forall i :: 0 <= i < |word| ==> !IsCjk(word[i])
  }

  // ---- Splitting --------------------------------------------------------------------------------

  /** How far the text starts with characters of one class. */
  function PrefixLength(text: string, cjk: bool): (n: nat)
    ensures n <= |text| && forall i :: 0 <= i < n ==> IsCjk(text[i]) == cjk
    ensures n < |text| ==> IsCjk(text[n]) != cjk
  {
    if text == "" || IsCjk(text[0]) != cjk then 0 else 1 + PrefixLength(text[1..], cjk)
  }

  /** `re.split` on a captured CJK run: other text and CJK text by turns, other text first and last. */
  function Parts(text: string): seq<string>
    decreases |text|
  {
    var n := PrefixLength(text, false);
    var m := PrefixLength(text[n..], true);
    if m == 0 then [text[..n]] else [text[..n], text[n..n + m]] + Parts(text[n + m..])
  }

  /** The maximal runs of one class. */
  function Runs(text: string): seq<Run>
    decreases |text|
  {
    if text == "" then []
    else
      var cjk := IsCjk(text[0]);
      var n := PrefixLength(text, cjk);
      [Run(cjk, text[..n])] + Runs(text[n..])
  }

  /** The non-empty parts, each classed by its first character. */
  function Classed(parts: seq<string>): seq<Run> {
    if parts == [] then []
    else
      var last := parts[|parts| - 1];
      Classed(parts[..|parts| - 1]) + if last == "" then [] else [Run(IsCjk(last[0]), last)]
  }

  lemma {:induction false} ClassedJoin(a: seq<string>, b: seq<string>)
    ensures Classed(a + b) == Classed(a) + Classed(b)
  {
    if b == [] {
      assert a + b == a;
    } else {
      assert (a + b)[..|a + b| - 1] == a + b[..|b| - 1];
      ClassedJoin(a, b[..|b| - 1]);
    }
  }

  lemma ClassedPair(x: string, y: string)
    ensures Classed([x, y]) == (if x == "" then [] else [Run(IsCjk(x[0]), x)])
              + (if y == "" then [] else [Run(IsCjk(y[0]), y)])
    ensures Classed([x]) == if x == "" then [] else [Run(IsCjk(x[0]), x)]
  {
    assert [x][..0] == [];
    assert Classed([x]) == if x == "" then [] else [Run(IsCjk(x[0]), x)];
    var two := [x, y];
    assert two[..1] == [x] && two[|two| - 1] == y;
  }

  /** Dropping the empty parts leaves the maximal runs. */
  lemma {:induction false} PartsAreRuns(text: string)
    ensures Classed(Parts(text)) == Runs(text)
    decreases |text|
  {
    var n := PrefixLength(text, false);
    var m := PrefixLength(text[n..], true);
    if m == 0 {
      LastPart(text, n);
    } else {
      PartsAreRuns(text[n + m..]);
      MoreParts(text, n, m, text[n + m..]);
    }
  }

  lemma LastPart(text: string, n: nat)
    requires n == PrefixLength(text, false) && PrefixLength(text[n..], true) == 0
    ensures Classed(Parts(text)) == Runs(text)
  {
    assert text[..n] == text;
    WholeRun(text);
    ClassedPair(text, "");
  }

  lemma MoreParts(text: string, n: nat, m: nat, rest: string)
    requires n == PrefixLength(text, false) && m == PrefixLength(text[n..], true) && m > 0 && rest == text[n + m..]
    requires Classed(Parts(rest)) == Runs(rest)
    ensures Classed(Parts(text)) == Runs(text)
  {
    OpenedParts(text, n, m, rest);
    PartClasses(text, n, m);
    PartsStep(text[..n], text[n..n + m], Parts(rest), Runs(rest));
    TwoRuns(text, n, m);
  }

  lemma OpenedParts(text: string, n: nat, m: nat, rest: string)
    requires n == PrefixLength(text, false) && m == PrefixLength(text[n..], true) && m > 0 && rest == text[n + m..]
    ensures Parts(text) == [text[..n], text[n..n + m]] + Parts(rest)
  {
    var more := Parts(rest);
    assert Parts(text) == [text[..n], text[n..n + m]] + more;
  }

  lemma PartClasses(text: string, n: nat, m: nat)
    requires n == PrefixLength(text, false) && m == PrefixLength(text[n..], true) && m > 0
    ensures text[n..n + m] != "" && IsCjk(text[n..n + m][0])
    ensures text[..n] != "" ==> !IsCjk(text[..n][0])
  {
    assert text[n..][0] == text[n..n + m][0];
  }

  lemma PartsStep(x: string, y: string, parts: seq<string>, runs: seq<Run>)
    requires Classed(parts) == runs && y != "" && IsCjk(y[0]) && (x != "" ==> !IsCjk(x[0]))
    ensures x == "" ==> Classed([x, y] + parts) == [Run(true, y)] + runs
    ensures x != "" ==> Classed([x, y] + parts) == [Run(false, x)] + ([Run(true, y)] + runs)
  {
    ClassedPair(x, y);
    ClassedJoin([x, y], parts);
    Associates([Run(false, x)], [Run(true, y)], runs);
  }

  lemma Associates<T>(a: seq<T>, b: seq<T>, c: seq<T>)
    ensures a + b + c == a + (b + c)
  {
  }

  lemma WholeRun(text: string)
    requires PrefixLength(text, false) == |text|
    ensures Runs(text) == if text == "" then [] else [Run(false, text)]
  {
    if text != "" { assert text[..|text|] == text && Runs(text[|text|..]) == []; }
  }

  lemma FirstRun(text: string, n: nat, cjk: bool)
    requires text != "" && cjk == IsCjk(text[0]) && n == PrefixLength(text, cjk)
    ensures Runs(text) == [Run(cjk, text[..n])] + Runs(text[n..])
  {
  }

  lemma TwoRuns(text: string, n: nat, m: nat)
    requires n == PrefixLength(text, false) && m == PrefixLength(text[n..], true) && m > 0
    ensures n == 0 ==> Runs(text) == [Run(true, text[n..n + m])] + Runs(text[n + m..])
    ensures n != 0 ==> Runs(text) == [Run(false, text[..n])] + ([Run(true, text[n..n + m])] + Runs(text[n + m..]))
  {
    SliceOfRest(text, n, m);
    FirstRun(text[n..], m, true);
    if n == 0 { assert text[0..] == text; } else { FirstRun(text, n, false); }
  }

  lemma SliceOfRest(text: string, n: nat, m: nat)
    requires n + m <= |text|
    ensures text[n..][..m] == text[n..n + m] && text[n..][m..] == text[n + m..]
  {
  }

  /** `_split_runs`. */
  method SplitRuns(text: string) returns (runs: seq<Run>)
    ensures runs == Runs(text)
  {
    var parts := Parts(text);
    runs := [];
    var i := 0;
    while i < |parts|
      invariant 0 <= i <= |parts| && runs == Classed(parts[..i])
    {
      assert parts[..i + 1][..i] == parts[..i];
      if parts[i] != "" { runs := runs + [Run(IsCjk(parts[i][0]), parts[i])]; }
      i := i + 1;
    }
    assert parts[..i] == parts;
    PartsAreRuns(text);
  }

  // ---- The runs partition the text --------------------------------------------------------------

  function Joined(runs: seq<Run>): string {
    if runs == [] then "" else runs[0].text + Joined(runs[1..])
  }

  /** Non-empty runs of one class each, neighbours of different class. */
  ghost predicate Alternating(runs: seq<Run>) {
    && (forall k :: 0 <= k < |runs| ==>
          && runs[k].text != ""
          && forall i :: 0 <= i < |runs[k].text| ==> IsCjk(runs[k].text[i]) == runs[k].cjk)
    && (forall k :: 0 <= k < |runs| - 1 ==> runs[k].cjk != runs[k + 1].cjk)
  }

  ghost predicate PartitionOf(runs: seq<Run>, text: string) {
    && Joined(runs) == text && Alternating(runs)
    && (text != "" ==> runs != [] && runs[0].cjk == IsCjk(text[0]))
    && (text == "" ==> runs == [])
  }

  lemma {:induction false} RunsPartition(text: string)
    ensures PartitionOf(Runs(text), text)
    decreases |text|
  {
    if text != "" {
      var cjk := IsCjk(text[0]);
      var n := PrefixLength(text, cjk);
      RunsPartition(text[n..]);
      FirstRun(text, n, cjk);
      PartitionGrows(Run(cjk, text[..n]), Runs(text[n..]), text, n);
    }
  }

  lemma PartitionGrows(first: Run, rest: seq<Run>, text: string, n: nat)
    requires text != "" && first.cjk == IsCjk(text[0]) && n == PrefixLength(text, first.cjk) && first.text == text[..n]
    requires PartitionOf(rest, text[n..])
    ensures PartitionOf([first] + rest, text)
  {
    JoinedStep(first, rest);
    assert text == text[..n] + text[n..];
    assert rest != [] ==> rest[0].cjk == IsCjk(text[n]);
    OneMoreRun(first, rest);
  }

  lemma JoinedStep(first: Run, rest: seq<Run>)
    ensures Joined([first] + rest) == first.text + Joined(rest)
  {
    assert ([first] + rest)[1..] == rest;
  }

  lemma OneMoreRun(first: Run, rest: seq<Run>)
    requires Alternating(rest) && first.text != ""
               && forall i :: 0 <= i < |first.text| ==> IsCjk(first.text[i]) == first.cjk
    requires rest != [] ==> rest[0].cjk != first.cjk
    ensures Alternating([first] + rest)
  {
    var runs := [first] + rest;
    assert forall k :: 1 <= k < |runs| ==> runs[k] == rest[k - 1];
  }

  lemma FirstRunLength(first: string, cjk: bool, rest: string)
    requires forall i :: 0 <= i < |first| ==> IsCjk(first[i]) == cjk
    requires rest != "" ==> IsCjk(rest[0]) != cjk
    ensures PrefixLength(first + rest, cjk) == |first|
  {
    var text, n := first + rest, PrefixLength(first + rest, cjk);
    assert forall i :: 0 <= i < |first| ==> text[i] == first[i];
    assert rest != "" ==> text[|first|] == rest[0];
  }

  lemma FirstOfRest(runs: seq<Run>)
    requires Alternating(runs)
    ensures Joined(runs) == "" <==> runs == []
    ensures runs != [] ==> Joined(runs)[0] == runs[0].text[0]
  {
  }

  /** A text has only one such partition. */
  lemma {:induction false} PartitionUnique(runs: seq<Run>)
    requires Alternating(runs)
    ensures Runs(Joined(runs)) == runs
  {
    if runs != [] {
      var first, rest := runs[0], runs[1..];
      TailAlternates(runs);
      PartitionUnique(rest);
      FirstOfRest(rest);
      FirstRunLength(first.text, first.cjk, Joined(rest));
      RunsStep(first, Joined(rest));
      assert runs == [first] + rest;
    }
  }

  lemma TailAlternates(runs: seq<Run>)
    requires Alternating(runs) && runs != []
    ensures Alternating(runs[1..])
    ensures runs[1..] != [] ==> IsCjk(runs[1..][0].text[0]) != runs[0].cjk
  {
    var rest := runs[1..];
    assert forall k :: 0 <= k < |rest| ==> rest[k] == runs[k + 1];
  }

  lemma RunsStep(first: Run, rest: string)
    requires first.text != "" && IsCjk(first.text[0]) == first.cjk
               && PrefixLength(first.text + rest, first.cjk) == |first.text|
    ensures Runs(first.text + rest) == [first] + Runs(rest)
  {
    var text := first.text + rest;
    assert text[0] == first.text[0] && text[..|first.text|] == first.text && text[|first.text|..] == rest;
  }

  // ---- Tokens -----------------------------------------------------------------------------------

  function PgTokens(latin: string -> seq<string>, runs: seq<Run>): seq<string> {
    if runs == [] then []
    else
      var last := runs[|runs| - 1];
      PgTokens(latin, runs[..|runs| - 1]) + LexemesOf(latin, last)
  }

  function Bigrams(run: string): (r: seq<string>)
    requires run != ""
    ensures |r| == |run| - 1 && forall i :: 0 <= i < |r| ==> r[i] == run[i..i + 2]
  {
    seq(|run| - 1, i requires 0 <= i < |run| - 1 => run[i..i + 2])
  }

  /** The tokens of one CJK run. */
  function RunBigrams(run: string): seq<string> {
    if |run| < 2 then [run] else Bigrams(run)
  }

  function BigramTokens(latin: string -> seq<string>, runs: seq<Run>): seq<string> {
    if runs == [] then []
    else
      var last := runs[|runs| - 1];
      BigramTokens(latin, runs[..|runs| - 1]) + BigramsOf(latin, last)
  }

  /** `tokenize_pg_simple`. */
  method TokenizePgSimple(latin: string -> seq<string>, text: string) returns (tokens: seq<string>)
    ensures tokens == PgTokens(latin, Runs(text))
  {
    var runs := SplitRuns(text);
    tokens := [];
    var i := 0;
    while i < |runs|
      invariant 0 <= i <= |runs| && tokens == PgTokens(latin, runs[..i])
    {
      assert runs[..i + 1][..i] == runs[..i];
      if runs[i].cjk { tokens := tokens + [runs[i].text]; } else { tokens := tokens + latin(runs[i].text); }
      i := i + 1;
    }
    assert runs[..i] == runs;
  }

  /** `pairwise`, joined. */
  method PairChars(run: string) returns (pairs: seq<string>)
    requires |run| >= 2
    ensures pairs == Bigrams(run)
  {
    pairs := [];
    var i := 0;
    while i < |run| - 1
      invariant 0 <= i <= |run| - 1 && pairs == Bigrams(run)[..i]
    {
      assert run[i..i + 2] == [run[i]] + [run[i + 1]];
      pairs := pairs + [[run[i]] + [run[i + 1]]];
      i := i + 1;
    }
  }

  /** The tokens of one run. */
  method TokenizeRun(latin: string -> seq<string>, run: Run) returns (tokens: seq<string>)
    requires run.text != ""
    ensures tokens == BigramsOf(latin, run)
  {
    if !run.cjk {
      tokens := latin(run.text);
    } else if |run.text| == 1 {
      tokens := [[run.text[0]]];
      assert run.text == [run.text[0]];
    } else {
      tokens := PairChars(run.text);
    }
  }

  lemma BigramStep(latin: string -> seq<string>, runs: seq<Run>, i: nat)
    requires i < |runs|
    ensures BigramTokens(latin, runs[..i + 1]) == BigramTokens(latin, runs[..i]) + BigramsOf(latin, runs[i])
  {
    assert runs[..i + 1][..i] == runs[..i];
  }

  /** `tokenize_bigram`. */
  method TokenizeBigram(latin: string -> seq<string>, text: string) returns (tokens: seq<string>)
    ensures tokens == BigramTokens(latin, Runs(text))
  {
    var runs := SplitRuns(text);
    RunsPartition(text);
    tokens := [];
    var i := 0;
    while i < |runs|
      invariant 0 <= i <= |runs| && tokens == BigramTokens(latin, runs[..i])
    {
      var more := TokenizeRun(latin, runs[i]);
      BigramStep(latin, runs, i);
      tokens := tokens + more;
      i := i + 1;
    }
    assert runs[..i] == runs;
  }

  // ---- What a CJK query finds -------------------------------------------------------------------

  predicate AllCjk(s: string) { s != "" && forall i :: 0 <= i < |s| ==> IsCjk(s[i]) }

  ghost predicate Occurs(s: string, text: string) {
    exists a: nat :: OccursAt(s, text, a)
  }

  predicate OccursAt(s: string, text: string, a: nat) {
    a + |s| <= |text| && text[a..a + |s|] == s
  }

  /** A CJK query is one run. */
  lemma QueryIsOneRun(q: string)
    requires AllCjk(q)
    ensures Runs(q) == [Run(true, q)]
  {
    assert Joined([Run(true, q)]) == q by { assert [Run(true, q)][1..] == []; }
    PartitionUnique([Run(true, q)]);
  }

  ghost predicate OccursInRun(q: string, runs: seq<Run>) {
    exists k :: 0 <= k < |runs| && runs[k].cjk && Occurs(q, runs[k].text)
  }

  /** An occurrence of a CJK string does not straddle a boundary between runs. */
  lemma NotSplit(q: string, text: string, a: nat, n: nat)
    requires AllCjk(q) && OccursAt(q, text, a) && n == PrefixLength(text, IsCjk(text[0]))
    ensures n <= a || a + |q| <= n
  {
    forall j | a <= j < a + |q| ensures IsCjk(text[j]) { assert text[a..a + |q|][j - a] == text[j]; }
    assert IsCjk(text[a]);
  }

  /** A CJK string that occurs in a text occurs inside one of its CJK runs. */
  lemma {:induction false} OccursInsideRun(q: string, text: string, a: nat)
    requires AllCjk(q) && OccursAt(q, text, a)
    ensures OccursInRun(q, Runs(text))
    decreases |text|
  {
    var n := PrefixLength(text, IsCjk(text[0]));
    var runs, rest := Runs(text), Runs(text[n..]);
    assert runs[1..] == rest;
    assert forall i :: 0 <= i < |q| ==> text[a + i] == q[i];
    if a + |q| <= n {
      assert OccursAt(q, text[..n], a);
      assert IsCjk(text[a]);
      assert runs[0].cjk && Occurs(q, runs[0].text);
    } else {
      NotSplit(q, text, a, n);
      assert text[n..][a - n..a - n + |q|] == q;
      OccursInsideRun(q, text[n..], a - n);
      var k :| 0 <= k < |rest| && rest[k].cjk && Occurs(q, rest[k].text);
      assert runs[k + 1] == rest[k];
    }
  }

  function BigramsOf(latin: string -> seq<string>, run: Run): seq<string> {
    if run.cjk then RunBigrams(run.text) else latin(run.text)
  }

  function LexemesOf(latin: string -> seq<string>, run: Run): seq<string> {
    if run.cjk then [run.text] else latin(run.text)
  }

  lemma {:induction false} BigramSources(latin: string -> seq<string>, runs: seq<Run>, token: string)
    ensures token in BigramTokens(latin, runs) <==> exists k :: 0 <= k < |runs| && token in BigramsOf(latin, runs[k])
  {
    if runs != [] {
      var init := runs[..|runs| - 1];
      BigramSources(latin, init, token);
      assert forall k :: 0 <= k < |init| ==> init[k] == runs[k];
    }
  }

  lemma {:induction false} LexemeSources(latin: string -> seq<string>, runs: seq<Run>, token: string)
    ensures token in PgTokens(latin, runs) <==> exists k :: 0 <= k < |runs| && token in LexemesOf(latin, runs[k])
  {
    if runs != [] {
      var init := runs[..|runs| - 1];
      LexemeSources(latin, init, token);
      assert forall k :: 0 <= k < |init| ==> init[k] == runs[k];
    }
  }

  /** Every bigram of a run that occurs inside a document run is a document token. */
  lemma BigramsContained(q: string, run: string)
    requires |q| >= 2 && Occurs(q, run)
    ensures forall t :: t in Bigrams(q) ==> t in RunBigrams(run)
  {
    var a: nat :| OccursAt(q, run, a);
    forall i | 0 <= i < |q| - 1 ensures Bigrams(q)[i] in Bigrams(run) {
      assert run[a..a + |q|][i] == run[a + i] && run[a..a + |q|][i + 1] == run[a + i + 1];
      assert run[a + i..a + i + 2] == [q[i], q[i + 1]] == q[i..i + 2];
      assert Bigrams(run)[a + i] == q[i..i + 2];
    }
  }

  /** A query of two or more CJK characters that occurs in a text has all its tokens among the text's. */
  lemma SubstringTokensFound(latin: string -> seq<string>, q: string, text: string)
    requires AllCjk(q) && |q| >= 2 && Occurs(q, text)
    ensures forall t :: t in BigramTokens(latin, Runs(q)) ==> t in BigramTokens(latin, Runs(text))
  {
    QueryIsOneRun(q);
    assert [Run(true, q)][..0] == [] && BigramTokens(latin, Runs(q)) == Bigrams(q);
    var a: nat :| OccursAt(q, text, a);
    OccursInsideRun(q, text, a);
    var k :| 0 <= k < |Runs(text)| && Runs(text)[k].cjk && Occurs(q, Runs(text)[k].text);
    BigramsContained(q, Runs(text)[k].text);
    forall t | t in Bigrams(q) ensures t in BigramTokens(latin, Runs(text)) { BigramSources(latin, Runs(text), t); }
  }

  ghost predicate HasRun(text: string, run: string) {
    exists k :: 0 <= k < |Runs(text)| && Runs(text)[k] == Run(true, run)
  }

  /** A token made of CJK characters does not come from a Latin run. */
  lemma NotLatin(latin: string -> seq<string>, q: string, text: string)
    requires LatinWords(latin) && AllCjk(q)
    ensures q !in latin(text)
  {
    assert IsCjk(q[0]);
  }

  /** Under the one-token-per-run emulation a CJK query matches exactly the texts with that very run. */
  lemma PgMatchExact(latin: string -> seq<string>, q: string, text: string)
    requires LatinWords(latin) && AllCjk(q)
    ensures PgTokens(latin, Runs(q)) == [q]
    ensures q in PgTokens(latin, Runs(text)) <==> HasRun(text, q)
  {
    QueryIsOneRun(q);
    assert [Run(true, q)][..0] == [];
    LexemeSources(latin, Runs(text), q);
    forall k | 0 <= k < |Runs(text)| ensures q !in latin(Runs(text)[k].text) { NotLatin(latin, q, Runs(text)[k].text); }
  }

  /** A single CJK character matches, under bigrams too, only where it stands alone: inside a longer run it is
      part of bigrams but is no token. */
  lemma SingleCharacterExact(latin: string -> seq<string>, q: string, text: string)
    requires LatinWords(latin) && AllCjk(q) && |q| == 1
    ensures BigramTokens(latin, Runs(q)) == [q]
    ensures q in BigramTokens(latin, Runs(text)) <==> HasRun(text, q)
  {
    QueryIsOneRun(q);
    assert [Run(true, q)][..0] == [];
    BigramSources(latin, Runs(text), q);
    forall k | 0 <= k < |Runs(text)| ensures q !in latin(Runs(text)[k].text) { NotLatin(latin, q, Runs(text)[k].text); }
    forall k | 0 <= k < |Runs(text)| && Runs(text)[k].cjk
      ensures q in RunBigrams(Runs(text)[k].text) <==> Runs(text)[k].text == q
    {
      RunsPartition(text);
      SingleInRun(q, Runs(text)[k].text);
    }
  }

  /** So none of the characters of a longer CJK text is found in it. */
  lemma SingleCharacterMissed(latin: string -> seq<string>, text: string, i: nat)
    requires LatinWords(latin) && AllCjk(text) && |text| >= 2 && i < |text|
    ensures [text[i]] !in BigramTokens(latin, Runs(text))
  {
    QueryIsOneRun(text);
    SingleCharacterExact(latin, [text[i]], text);
  }

  /** For instance the first of the two characters of "Chinese". */
  lemma SingleCharacterExample(latin: string -> seq<string>)
    requires LatinWords(latin)
    ensures var text := "\U{4E2D}\U{6587}";
            '\U{4E2D}' in text && ['\U{4E2D}'] !in BigramTokens(latin, Runs(text))
  {
    var text := "\U{4E2D}\U{6587}";
    assert text[0] == '\U{4E2D}' && text[1] == '\U{6587}';
    SingleCharacterMissed(latin, text, 0);
  }

  lemma SingleInRun(q: string, run: string)
    requires |q| == 1 && run != ""
    ensures q in RunBigrams(run) <==> run == q
  {
    if |run| >= 2 { assert forall i :: 0 <= i < |Bigrams(run)| ==> |Bigrams(run)[i]| == 2; }
  }

  // ---- What the scores show ---------------------------------------------------------------------

  function BigramDocs(latin: string -> seq<string>, texts: seq<string>): (r: seq<Bm25.Doc>)
    ensures |r| == |texts| && forall i :: 0 <= i < |r| ==> r[i] == BigramTokens(latin, Runs(texts[i]))
  {
    seq(|texts|, i requires 0 <= i < |texts| => BigramTokens(latin, Runs(texts[i])))
  }

  function PgDocs(latin: string -> seq<string>, texts: seq<string>): (r: seq<Bm25.Doc>)
    ensures |r| == |texts| && forall i :: 0 <= i < |r| ==> r[i] == PgTokens(latin, Runs(texts[i]))
  {
    seq(|texts|, i requires 0 <= i < |texts| => PgTokens(latin, Runs(texts[i])))
  }

  /** The two legs apart: a CJK phrase of two or more characters that occurs in a document gets a positive bigram
      score, while its emulated full-text score is positive only if the phrase is a whole run there. */
  lemma LegsCompared(latin: string -> seq<string>, ln: real -> real, texts: seq<string>, q: string, i: nat)
    requires LatinWords(latin) && Bm25.LogLike(ln) && i < |texts|
    requires AllCjk(q) && |q| >= 2 && Occurs(q, texts[i])
    ensures Bm25.Score(ln, BigramDocs(latin, texts), BigramTokens(latin, Runs(q)), i) > 0.0
    ensures Bm25.Score(ln, PgDocs(latin, texts), PgTokens(latin, Runs(q)), i) > 0.0 <==> HasRun(texts[i], q)
  {
    SubstringTokensFound(latin, q, texts[i]);
    QueryIsOneRun(q);
    assert [Run(true, q)][..0] == [];
    var tokens := BigramTokens(latin, Runs(q));
    assert tokens == Bigrams(q);
    assert tokens[0] in BigramDocs(latin, texts)[i];
    Bm25.ScoreSign(ln, BigramDocs(latin, texts), tokens, i);
    PgMatchExact(latin, q, texts[i]);
    Bm25.ScoreSign(ln, PgDocs(latin, texts), [q], i);
    assert q in [q];
  }
}
