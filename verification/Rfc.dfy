/** Sections 3 and 4 of RFC 6901 as a reference, and exactly where the evaluator of the scenario runner
    (scripts/real_agent_scenario_runner.py:1195-1207) follows them. */
module Rfc6901 {
  import opened Prelude
  import opened Strings
  import opened Json
  import opened JsonPointer

  /** What the standard says a pointer refers to: a value, nothing in this document, or it is malformed, as a whole or
      where it indexes an array. */
  datatype Verdict = Value(value: Json) | Nothing | Malformed

  /** Every '~' of a token is followed by '0' or '1'. */
  predicate ProperEscapes(t: string) {
    if t == "" then true
    else if t[0] == '~' then |t| >= 2 && t[1] in "01" && ProperEscapes(t[2..])
    else ProperEscapes(t[1..])
  }

  /** The token a reference token stands for, in one pass. */
  function Decode(t: string): string
    requires ProperEscapes(t)
  {
    if t == "" then ""
    else if t[0] == '~' then [if t[1] == '0' then '~' else '/'] + Decode(t[2..])
    else [t[0]] + Decode(t[1..])
  }

  /** `array-index = %x30 / ( %x31-39 *(%x30-39) )`. */
  predicate ProperIndex(t: string) {
    t == "0" || (t != "" && Digits(t) && t[0] != '0')
  }

  predicate ProperTokens(raw: seq<string>) {
    forall k :: 0 <= k < |raw| ==> ProperEscapes(raw[k])
  }

  predicate WellFormed(pointer: string) {
    pointer == "" || (pointer[0] == '/' && ProperTokens(Split(pointer[1..])))
  }

  function Refer(current: Json, token: string): Verdict {
    match current
    case Obj(fields) => if token in fields then Value(fields[token]) else Nothing
    case Arr(items) =>
      if token == "-" then Nothing
      else if !ProperIndex(token) then Malformed
      else if ParseDecimal(token) < |items| then Value(items[ParseDecimal(token)])
      else Nothing
    case _ => Nothing
  }

  function ReferAll(current: Json, raw: seq<string>): Verdict
    requires ProperTokens(raw)
  {
    if raw == [] then Value(current)
    else
      var next := Refer(current, Decode(raw[0]));
      if next.Value? then ReferAll(next.value, raw[1..]) else next
  }

  function Referent(document: Json, pointer: string): Verdict {
    if pointer == "" then Value(document)
    else if !WellFormed(pointer) then Malformed
    else ReferAll(document, Split(pointer[1..]))
  }

  // ---- Decoding ---------------------------------------------------------------------------------

  lemma {:induction false} EscapeProper(k: string)
    ensures ProperEscapes(Escape(k)) && Decode(Escape(k)) == k
  {
    if k != "" {
      EscapeProper(k[1..]);
      var e, rest := Escape(k), Escape(k[1..]);
      if k[0] == '~' || k[0] == '/' {
        assert e[2..] == rest;
      } else {
        assert e[1..] == rest;
      }
      assert k == [k[0]] + k[1..];
    }
  }

  /** A proper token without a slash is the escaped form of what it stands for. */
  lemma {:induction false} EscapeOfDecode(t: string)
    requires ProperEscapes(t) && '/' !in t
    ensures Escape(Decode(t)) == t
  {
    if t != "" {
      var n := if t[0] == '~' then 2 else 1;
      EscapeOfDecode(t[n..]);
      var d := Decode(t);
      assert d[1..] == Decode(t[n..]);
      assert t == t[..n] + t[n..];
      assert t[..n] == if t[0] != '~' then [t[0]] else if t[1] == '0' then "~0" else "~1";
    }
  }

  /** The two ordered replacements decode a proper token. */
  lemma UnescapeIsDecode(t: string)
    requires ProperEscapes(t) && '/' !in t
    ensures Unescape(t) == Decode(t)
  {
    EscapeOfDecode(t);
    UnescapeInvertsEscape(Decode(t));
  }

  lemma {:induction false} SplitHasNoSlash(s: string)
    ensures forall k :: 0 <= k < |Split(s)| ==> '/' !in Split(s)[k]
  {
    if s != "" { SplitHasNoSlash(s[1..]); }
  }

  ghost predicate NoSlashes(raw: seq<string>) {
    forall k :: 0 <= k < |raw| ==> '/' !in raw[k]
  }

  function AsciiGlyph(c: char): Glyph {
    if '0' <= c <= '9' then DecimalDigit((c - '0') as nat) else NoDigit
  }

  /** There is such an interpreter. */
  lemma StandardExists()
    ensures Python(AsciiGlyph, Some(4300)).Standard()
  {
  }

  // ---- Per document -----------------------------------------------------------------------------

  /** Same value, or both none; an evaluator that raises and a malformed pointer agree with nothing. */
  predicate Agree(a: Answer, v: Verdict) {
    (a.Found? && v == Value(a.value)) || (a.Missing? && v.Nothing?)
  }

  /** An array token the standard allows and `int` converts. */
  predicate GoodIndex(py: Python, token: string) {
    token == "-" || (ProperIndex(token) && py.Fits(token))
  }

  /** Every token that reaches an array is a good index. */
  ghost predicate GoodIndexes(py: Python, current: Json, raw: seq<string>) {
    forall k :: 0 <= k < |raw| ==> GoodAt(py, current, raw, k)
  }

  ghost predicate GoodAt(py: Python, current: Json, raw: seq<string>, k: nat)
    requires k < |raw|
  {
    Follow(py, current, raw[..k]).Found? && Follow(py, current, raw[..k]).value.Arr? ==> GoodIndex(py, Unescape(raw[k]))
  }

  lemma StepAgrees(py: Python, current: Json, token: string)
    requires py.Standard()
    ensures Agree(Advance(py, current, token), Refer(current, token)) <==> current.Arr? ==> GoodIndex(py, token)
  {
    if current.Arr? {
      if token == "-" {
        assert py.glyph(token[0]) == NoDigit;
      } else if ProperIndex(token) {
        ReadAscii(py, token);
      }
    }
  }

  lemma GoodIndexesStep(py: Python, current: Json, raw: seq<string>)
    requires raw != []
    ensures var next := Advance(py, current, Unescape(raw[0]));
            GoodIndexes(py, current, raw) <==>
              && (current.Arr? ==> GoodIndex(py, Unescape(raw[0])))
              && (next.Found? ==> GoodIndexes(py, next.value, raw[1..]))
  {
    var next := Advance(py, current, Unescape(raw[0]));
    assert raw[..0] == [];
    assert GoodAt(py, current, raw, 0) <==> current.Arr? ==> GoodIndex(py, Unescape(raw[0]));
    forall k | 0 < k < |raw|
      ensures GoodAt(py, current, raw, k) <==> (next.Found? ==> GoodAt(py, next.value, raw[1..], k - 1))
    {
      FollowPrefix(py, current, raw, k);
      assert raw[1..][k - 1] == raw[k];
    }
    if GoodIndexes(py, current, raw) && next.Found? {
      forall k | 0 <= k < |raw[1..]|
        ensures GoodAt(py, next.value, raw[1..], k)
      {
        assert GoodAt(py, current, raw, k + 1);
      }
    }
  }

  lemma {:induction false} TokensAgree(py: Python, current: Json, raw: seq<string>)
    requires py.Standard() && ProperTokens(raw) && NoSlashes(raw)
    ensures Agree(Follow(py, current, raw), ReferAll(current, raw)) <==> GoodIndexes(py, current, raw)
  {
    if raw != [] {
      GoodIndexesStep(py, current, raw);
      UnescapeIsDecode(raw[0]);
      StepAgrees(py, current, Unescape(raw[0]));
      var next := Advance(py, current, Unescape(raw[0]));
      if next.Found? { TokensAgree(py, next.value, raw[1..]); }
    }
  }

  /** On a given document the evaluator answers as the standard does, value for value and nothing for nothing, exactly
      if the pointer is well formed and each token that reaches an array is "-" or an index without leading zeros, in
      ASCII digits, and short enough to convert. */
  lemma AgreementExact(py: Python, document: Json, pointer: string)
    requires py.Standard()
    ensures Agree(Evaluate(py, document, pointer), Referent(document, pointer)) <==>
              WellFormed(pointer) && (pointer != "" ==> GoodIndexes(py, document, Split(pointer[1..])))
  {
    if pointer != "" && WellFormed(pointer) {
      SplitHasNoSlash(pointer[1..]);
      TokensAgree(py, document, Split(pointer[1..]));
    }
  }

  /** What the standard refers to is always found, unless an index is too long to convert. */
  lemma {:induction false} ReferentFound(py: Python, current: Json, raw: seq<string>)
    requires py.Standard() && ProperTokens(raw) && NoSlashes(raw) && ReferAll(current, raw).Value?
    ensures Follow(py, current, raw) in {Found(ReferAll(current, raw).value), Raises}
    ensures Follow(py, current, raw).Raises? ==> py.limit.Some?
  {
    if raw != [] {
      UnescapeIsDecode(raw[0]);
      StepAgrees(py, current, Unescape(raw[0]));
      if Advance(py, current, Unescape(raw[0])).Raises? { ReadAscii(py, Unescape(raw[0])); }
      ReferentFound(py, Refer(current, Decode(raw[0])).value, raw[1..]);
    }
  }

  // ---- Per pointer ------------------------------------------------------------------------------

  /** All digits to `isdigit`, but no index of the standard or too long: a leading zero, an odd digit, a digit of
      another script, or more digits than `int` converts. */
  predicate Deviant(py: Python, token: string) {
    py.IsDigit(token) && !(ProperIndex(token) && py.Fits(token))
  }

  ghost predicate NoDeviants(py: Python, raw: seq<string>) {
    forall k :: 0 <= k < |raw| ==> !Deviant(py, Unescape(raw[k]))
  }

  /** On every document the evaluator finds just what the standard refers to, and never raises. */
  ghost predicate FindsReferents(py: Python, pointer: string) {
    forall document :: SameFinding(Evaluate(py, document, pointer), Referent(document, pointer))
  }

  predicate SameFinding(a: Answer, v: Verdict) {
    !a.Raises? && a.Found? == v.Value? && (a.Found? ==> a.value == v.value)
  }

  lemma StepFindings(py: Python, current: Json, token: string)
    requires py.Standard() && !Deviant(py, token)
    ensures SameFinding(Advance(py, current, token), Refer(current, token))
  {
    if ProperIndex(token) { ReadAscii(py, token); }
    if token == "-" { assert py.glyph(token[0]) == NoDigit; }
  }

  lemma {:induction false} FindingsFollow(py: Python, current: Json, raw: seq<string>)
    requires py.Standard() && ProperTokens(raw) && NoSlashes(raw) && NoDeviants(py, raw)
    ensures SameFinding(Follow(py, current, raw), ReferAll(current, raw))
  {
    if raw != [] {
      UnescapeIsDecode(raw[0]);
      StepFindings(py, current, Unescape(raw[0]));
      var next := Advance(py, current, Unescape(raw[0]));
      if next.Found? { FindingsFollow(py, next.value, raw[1..]); }
    }
  }

  /** Objects nested along the tokens: everything on the way is there. */
  function Nest(raw: seq<string>): Json {
    if raw == [] then Null else Obj(map[Unescape(raw[0]) := Nest(raw[1..])])
  }

  lemma {:induction false} NestFollowed(py: Python, raw: seq<string>)
    ensures Follow(py, Nest(raw), raw) == Found(Null)
  {
    if raw != [] { NestFollowed(py, raw[1..]); }
  }

  /** The same with an array, long enough for its token, at level k. */
  function NestArray(py: Python, raw: seq<string>, k: nat): Json
    requires k < |raw|
  {
    if k == 0 then Arr(seq(py.Int(Unescape(raw[0])) + 1, i => Nest(raw[1..])))
    else Obj(map[Unescape(raw[0]) := NestArray(py, raw[1..], k - 1)])
  }

  lemma {:induction false} DeviantFollowed(py: Python, raw: seq<string>, k: nat)
    requires py.Standard() && ProperTokens(raw) && NoSlashes(raw) && k < |raw| && Deviant(py, Unescape(raw[k]))
    ensures !SameFinding(Follow(py, NestArray(py, raw, k), raw), ReferAll(NestArray(py, raw, k), raw))
  {
    UnescapeIsDecode(raw[0]);
    if k == 0 {
      NestFollowed(py, raw[1..]);
      DeviantStep(py, NestArray(py, raw, 0).items, Unescape(raw[0]));
    } else {
      DeviantFollowed(py, raw[1..], k - 1);
    }
  }

  lemma DeviantStep(py: Python, items: seq<Json>, token: string)
    requires py.Standard() && Deviant(py, token) && py.Int(token) < |items|
    ensures Advance(py, Arr(items), token).Raises?
              || (Advance(py, Arr(items), token) == Found(items[py.Int(token)]) && !Refer(Arr(items), token).Value?)
  {
  }

  /** Exactly for which pointers the evaluator does what the standard says on every document: those that start with a
      slash and escape properly, with no token that looks like digits to Python without being an index of the
      standard. */
  lemma FindsReferentsExact(py: Python, pointer: string)
    requires py.Standard()
    ensures FindsReferents(py, pointer) <==>
              WellFormed(pointer) && (pointer != "" ==> NoDeviants(py, Split(pointer[1..])))
  {
    if pointer != "" {
      var raw := Split(pointer[1..]);
      SplitHasNoSlash(pointer[1..]);
      if !WellFormed(pointer) {
        NestFollowed(py, raw);
        assert !SameFinding(Evaluate(py, Nest(raw), pointer), Referent(Nest(raw), pointer));
      } else if NoDeviants(py, raw) {
        forall document ensures SameFinding(Evaluate(py, document, pointer), Referent(document, pointer)) {
          FindingsFollow(py, document, raw);
        }
      } else {
        var k :| 0 <= k < |raw| && Deviant(py, Unescape(raw[k]));
        DeviantFollowed(py, raw, k);
        var document := NestArray(py, raw, k);
        assert !SameFinding(Evaluate(py, document, pointer), Referent(document, pointer));
      }
    }
  }

  // ---- Paths the loader accepts -----------------------------------------------------------------

  /** `_validate_assertion`: a path is empty or starts with a slash, and is not too long. */
  predicate PathAccepted(path: string) {
    |path| <= 512 && (path != "" ==> path[0] == '/')
  }

  /** No interpreter can be set to convert fewer digits than this. */
  const LEAST_DIGIT_LIMIT := 640

  lemma {:induction false} PartsShorter(s: string)
    ensures forall k :: 0 <= k < |Split(s)| ==> |Split(s)[k]| <= |s|
  {
    if s != "" { PartsShorter(s[1..]); }
  }

  lemma {:induction false} ReplaceShorter(s: string, a: char, b: char, c: char)
    ensures |ReplacePair(s, a, b, c)| <= |s|
  {
    if s == "" {
    } else if |s| >= 2 && s[0] == a && s[1] == b {
      ReplaceShorter(s[2..], a, b, c);
    } else {
      ReplaceShorter(s[1..], a, b, c);
    }
  }

  /** No token of an accepted path is too long to convert. */
  lemma AcceptedFits(py: Python, path: string)
    requires PathAccepted(path) && path != "" && (py.limit.Some? ==> py.limit.value >= LEAST_DIGIT_LIMIT)
    ensures forall k :: 0 <= k < |Split(path[1..])| ==> py.Fits(Unescape(Split(path[1..])[k]))
  {
    var raw := Split(path[1..]);
    PartsShorter(path[1..]);
    forall k | 0 <= k < |raw| ensures py.Fits(Unescape(raw[k])) {
      ReplaceShorter(raw[k], '~', '1', '/');
      ReplaceShorter(ReplacePair(raw[k], '~', '1', '/'), '~', '0', '~');
    }
  }

  ghost predicate DigitsAreIndexes(py: Python, raw: seq<string>) {
    forall k :: 0 <= k < |raw| && py.IsDigit(Unescape(raw[k])) ==> ProperIndex(Unescape(raw[k]))
  }

  /** For the paths the loader accepts, the evaluator does what the standard says on every document exactly if '~' is
      always followed by '0' or '1' and no token that looks like digits to Python is anything but an index of the
      standard: neither the first character nor the length of a number is at stake. */
  lemma AcceptedPathExact(py: Python, path: string)
    requires py.Standard() && PathAccepted(path) && (py.limit.Some? ==> py.limit.value >= LEAST_DIGIT_LIMIT)
    ensures FindsReferents(py, path) <==>
              (path != "" ==> ProperTokens(Split(path[1..])) && DigitsAreIndexes(py, Split(path[1..])))
  {
    FindsReferentsExact(py, path);
    if path != "" { AcceptedFits(py, path); }
  }

  // ---- Departures -------------------------------------------------------------------------------

  /** The first character is dropped unseen: any other in place of the slash, which the loader would
      refuse, gives the same answer. */
  lemma FirstCharacterUnseen(py: Python, document: Json, c: char, rest: string)
    ensures Evaluate(py, document, [c] + rest) == Evaluate(py, document, "/" + rest)
    ensures c != '/' ==> Referent(document, [c] + rest) == Malformed
  {
    assert ([c] + rest)[1..] == rest && ("/" + rest)[1..] == rest;
  }

  /** Leading zeros change nothing for the evaluator, and everything for the standard. */
  lemma LeadingZeroAccepted(py: Python, items: seq<Json>, i: nat)
    requires py.Standard() && i < |items| && py.Fits("0" + Decimal(i))
    ensures Evaluate(py, Arr(items), "/0" + Decimal(i)) == Found(items[i])
    ensures Referent(Arr(items), "/0" + Decimal(i)) == Malformed
  {
    var t := "0" + Decimal(i);
    assert ("/0" + Decimal(i))[1..] == t;
    assert Digits(t) && '~' !in t && '/' !in t;
    SplitWhole(t);
    PlainToken(t);
    ReadAscii(py, t);
    ZeroFirst(Decimal(i));
    DecimalRoundTrip(i);
    var raw: seq<string> := [t];
    assert raw[0] == t && raw[1..] == [];
    var d := Arr(items);
    assert Advance(py, d, Unescape(t)) == Found(d.items[i]);
    assert Follow(py, d, raw) == Found(items[i]);
    NoEscapes(t);
    assert t[0] == '0' && |t| >= 2;
  }

  lemma {:induction false} NoEscapes(t: string)
    requires '~' !in t
    ensures ProperEscapes(t) && Decode(t) == t
  {
    if t != "" {
      NoEscapes(t[1..]);
      assert t == [t[0]] + t[1..];
    }
  }

  lemma {:induction false} ZeroFirst(s: string)
    requires Digits(s)
    ensures ParseDecimal("0" + s) == ParseDecimal(s)
  {
    if s == "" {
      assert ("0" + s)[..0] == "";
    } else {
      ZeroFirst(s[..|s| - 1]);
      assert ("0" + s)[..|s|] == "0" + s[..|s| - 1];
    }
  }

  // ---- The reference itself ---------------------------------------------------------------------

  lemma {:induction false} DecimalProper(n: nat)
    ensures ProperIndex(Decimal(n)) && (n > 0 ==> Decimal(n)[0] != '0')
  {
    if n >= 10 { DecimalProper(n / 10); }
  }

  lemma TokenRefers(document: Json, step: Step)
    requires ValueAt(document, [step]).Some?
    ensures ProperEscapes(Token(step)) && Refer(document, Decode(Token(step))) == Value(ValueAt(document, [step]).value)
  {
    assert [step][1..] == [];
    match step
    case Key(k) => EscapeProper(k);
    case Index(i) =>
      assert Digits(Decimal(i)) && Decimal(i) != "-";
      NoEscapes(Decimal(i));
      DecimalProper(i);
      DecimalRoundTrip(i);
  }

  lemma {:induction false} TokensRefer(document: Json, path: seq<Step>)
    requires ValueAt(document, path).Some?
    ensures ProperTokens(Tokens(path)) && ReferAll(document, Tokens(path)) == Value(ValueAt(document, path).value)
  {
    if path != [] {
      var next := match path[0] case Key(k) => document.fields[k] case Index(i) => document.items[i];
      assert [path[0]][1..] == [];
      assert ValueAt(document, [path[0]]) == Some(next);
      TokenRefers(document, path[0]);
      TokensRefer(next, path[1..]);
      assert Tokens(path)[1..] == Tokens(path[1..]);
    }
  }

  /** The reference is sound: the printed pointer of every present path refers to the value at that path. */
  lemma ReferentRoundTrip(document: Json, path: seq<Step>)
    requires ValueAt(document, path).Some?
    ensures WellFormed(PointerOf(path)) && Referent(document, PointerOf(path)) == Value(ValueAt(document, path).value)
  {
    if path != [] {
      SplitPointer(path);
      TokensRefer(document, path);
    }
  }
}
