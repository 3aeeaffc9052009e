/** JSON values, and the pointer evaluator of the scenario runner
    (scripts/real_agent_scenario_runner.py:1195-1207) against sections 3 and 4 of RFC 6901. */
module Json {
  datatype Json =
    | Null | Bool(b: bool) | Int(n: int) | Real(r: real) | Str(s: string)
    | Arr(items: seq<Json>) | Obj(fields: map<string, Json>)
}

module JsonPointer {
  import opened Strings
  import opened Prelude
  import opened Json

  /** What the evaluator answers. `Raises` is the ValueError of `int()` on a digit it cannot read. */
  datatype Answer = Found(value: Json) | Missing | Raises

  /** A step of a path through a document. */
  datatype Step = Key(k: string) | Index(i: nat)

  // ---- Python string operations -----------------------------------------------------------------

  /** `s.split("/")`. */
  function Split(s: string): (parts: seq<string>)
    ensures parts != []
  {
    if s == "" then [""]
    else
      var rest := Split(s[1..]);
      if s[0] == '/' then [""] + rest else [[s[0]] + rest[0]] + rest[1..]
  }

  /** `s.replace(a + b, c)` for one-character `a`, `b`, `c`. */
  function ReplacePair(s: string, a: char, b: char, c: char): string {
    if s == "" then ""
    else if |s| >= 2 && s[0] == a && s[1] == b then [c] + ReplacePair(s[2..], a, b, c)
    else [s[0]] + ReplacePair(s[1..], a, b, c)
  }

  /** The two ordered replacements of the evaluator. */
  function Unescape(raw: string): string {
    ReplacePair(ReplacePair(raw, '~', '1', '/'), '~', '0', '~')
  }

  /** What `isdigit` and `int` see in a character: nothing, a decimal digit of some script, or a digit such as a
      superscript or a circled one, which `isdigit` accepts and `int` refuses. */
  datatype Glyph = NoDigit | DecimalDigit(value: nat) | OddDigit

  /** The interpreter: its character table, and the most digits `int` converts, if there is a limit. */
  datatype Python = Python(glyph: char -> Glyph, limit: Option<nat>) {
    /** ASCII is as everybody knows it; the other characters may be of any kind. */
    ghost predicate Standard() {
      && (forall c :: glyph(c).DecimalDigit? ==> glyph(c).value < 10)
      && (forall c :: '0' <= c <= '9' ==> glyph(c) == DecimalDigit((c - '0') as nat))
      && (forall c :: c < '\U{80}' && !('0' <= c <= '9') ==> glyph(c) == NoDigit)
    }

    /** `part.isdigit()`. */
    predicate IsDigit(part: string) {
      part != "" && forall i :: 0 <= i < |part| ==> glyph(part[i]) != NoDigit
    }

    predicate Fits(part: string) { limit.Some? ==> |part| <= limit.value }

    /** `int` takes it: decimal digits only, and not too many. */
    predicate Converts(part: string) {
      Fits(part) && forall i :: 0 <= i < |part| ==> glyph(part[i]).DecimalDigit?
    }

    /** `int(part)`, for a part of decimal digits. */
    function Int(part: string): nat
    {
      if part == "" then 0
      else
        var last := glyph(part[|part| - 1]);
        10 * Int(part[..|part| - 1]) + if last.DecimalDigit? then last.value else 0
    }
  }

  function Advance(py: Python, current: Json, part: string): Answer {
    if current.Obj? && part in current.fields then Found(current.fields[part])
    else if current.Arr? && py.IsDigit(part) then
      if !py.Converts(part) then Raises
      else if py.Int(part) < |current.items| then Found(current.items[py.Int(part)])
      else Missing
    else Missing
  }

  /** Following raw tokens one after the other. */
  function Follow(py: Python, current: Json, raw: seq<string>): Answer {
    if raw == [] then Found(current)
    else
      var next := Advance(py, current, Unescape(raw[0]));
      if next.Found? then Follow(py, next.value, raw[1..]) else next
  }

  function Evaluate(py: Python, document: Json, pointer: string): Answer {
    if pointer == "" then Found(document) else Follow(py, document, Split(pointer[1..]))
  }

  /** `_json_pointer`. */
  method ResolvePointer(py: Python, document: Json, pointer: string) returns (r: Answer)
    ensures r == Evaluate(py, document, pointer)
  {
    if pointer == "" { return Found(document); }
    var current := document;
    var parts := Split(pointer[1..]);
    var i := 0;
    while i < |parts|
      invariant 0 <= i <= |parts|
      invariant Follow(py, document, parts) == Follow(py, current, parts[i..])
    {
      var next := Advance(py, current, Unescape(parts[i]));
      assert parts[i..][1..] == parts[i + 1..];
      if !next.Found? { return next; }
      current := next.value;
      i := i + 1;
    }
    r := Found(current);
  }

  // ---- Paths and their pointers -----------------------------------------------------------------

  /** The value a path leads to, if every step is present. */
  function ValueAt(document: Json, path: seq<Step>): Option<Json> {
    if path == [] then Some(document)
    else
      match path[0]
      case Key(k) => if document.Obj? && k in document.fields then ValueAt(document.fields[k], path[1..]) else None
      case Index(i) => if document.Arr? && i < |document.items| then ValueAt(document.items[i], path[1..]) else None
  }

  /** Escaping of section 3: '~' becomes "~0" and '/' becomes "~1". */
  function Escape(k: string): (r: string) {
    if k == "" then ""
    else (if k[0] == '~' then "~0" else if k[0] == '/' then "~1" else [k[0]]) + Escape(k[1..])
  }

  function Token(step: Step): string {
    match step
    case Key(k) => Escape(k)
    case Index(i) => Decimal(i)
  }

  function PointerOf(path: seq<Step>): string {
    if path == [] then "" else "/" + Token(path[0]) + PointerOf(path[1..])
  }

  /** Between the two replacements only '~' is still escaped. */
  function HalfEscape(k: string): string {
    if k == "" then "" else (if k[0] == '~' then "~0" else [k[0]]) + HalfEscape(k[1..])
  }

  lemma {:induction false} FirstReplacement(k: string)
    ensures ReplacePair(Escape(k), '~', '1', '/') == HalfEscape(k)
  {
    if k != "" {
      FirstReplacement(k[1..]);
      var e := Escape(k);
      if k[0] == '~' {
        assert e[1..] == "0" + Escape(k[1..]) && e[1..][1..] == Escape(k[1..]);
      } else if k[0] == '/' {
        assert e[2..] == Escape(k[1..]);
      } else {
        assert e[1..] == Escape(k[1..]);
      }
    }
  }

  lemma {:induction false} SecondReplacement(k: string)
    ensures ReplacePair(HalfEscape(k), '~', '0', '~') == k
  {
    if k != "" {
      SecondReplacement(k[1..]);
      var h := HalfEscape(k);
      if k[0] == '~' {
        assert h[2..] == HalfEscape(k[1..]);
      } else {
        assert h[1..] == HalfEscape(k[1..]);
      }
    }
  }

  /** The order of the two replacements is what makes this hold. */
  lemma UnescapeInvertsEscape(k: string)
    ensures Unescape(Escape(k)) == k
  {
    FirstReplacement(k);
    SecondReplacement(k);
  }

  /** Swapped, they do not invert: the key "~1" would come back as "/". */
  lemma SwappedReplacementsFail()
    ensures ReplacePair(ReplacePair(Escape("~1"), '~', '0', '~'), '~', '1', '/') != "~1"
  {
    assert "~1"[1..] == "1";
    assert Escape("1") == "1";
    assert Escape("~1") == "~01";
    assert "~01"[2..] == "1";
    assert ReplacePair("1", '~', '0', '~') == "1";
    assert ReplacePair("~01", '~', '0', '~') == "~1";
  }

  lemma {:induction false} NoTilde(s: string, a: char, b: char, c: char)
    requires a !in s
    ensures ReplacePair(s, a, b, c) == s
  {
    if s != "" {
      NoTilde(s[1..], a, b, c);
    }
  }

  lemma {:induction false} EscapeHasNoSlash(k: string)
    ensures '/' !in Escape(k)
  {
    if k != "" { EscapeHasNoSlash(k[1..]); }
  }

  lemma TokenHasNoSlash(step: Step)
    ensures '/' !in Token(step)
  {
    match step
    case Key(k) => EscapeHasNoSlash(k);
    case Index(i) =>
      assert Digits(Decimal(i));
  }

  lemma {:induction false} SplitWhole(t: string)
    requires '/' !in t
    ensures Split(t) == [t]
  {
    if t != "" {
      SplitWhole(t[1..]);
      assert t == [t[0]] + t[1..];
    }
  }

  lemma {:induction false} SplitFirst(t: string, rest: string)
    requires '/' !in t
    ensures Split(t + "/" + rest) == [t] + Split(rest)
  {
    var s := t + "/" + rest;
    if t == "" {
      assert s[1..] == rest;
    } else {
      SplitFirst(t[1..], rest);
      assert s[1..] == t[1..] + "/" + rest;
      assert t == [t[0]] + t[1..];
    }
  }

  function Tokens(path: seq<Step>): (r: seq<string>)
    ensures |r| == |path|
  {
    if path == [] then [] else [Token(path[0])] + Tokens(path[1..])
  }

  function Join(tokens: seq<string>): string
    requires tokens != []
  {
    if |tokens| == 1 then tokens[0] else tokens[0] + "/" + Join(tokens[1..])
  }

  lemma {:induction false} SplitJoin(tokens: seq<string>)
    requires tokens != []
    requires forall i :: 0 <= i < |tokens| ==> '/' !in tokens[i]
    ensures Split(Join(tokens)) == tokens
  {
    if |tokens| == 1 {
      SplitWhole(tokens[0]);
    } else {
      SplitJoin(tokens[1..]);
      SplitFirst(tokens[0], Join(tokens[1..]));
    }
  }

  lemma {:induction false} PointerJoins(path: seq<Step>)
    requires path != []
    ensures PointerOf(path) == "/" + Join(Tokens(path))
  {
    var first, rest := Token(path[0]), path[1..];
    assert Tokens(path)[0] == first && Tokens(path)[1..] == Tokens(rest);
    if rest == [] {
      assert PointerOf(rest) == "";
    } else {
      PointerJoins(rest);
      assert Join(Tokens(path)) == first + "/" + Join(Tokens(rest));
      assert ("/" + first) + ("/" + Join(Tokens(rest))) == "/" + (first + "/" + Join(Tokens(rest)));
    }
  }

  lemma {:induction false} TokensHaveNoSlash(path: seq<Step>)
    ensures forall i :: 0 <= i < |path| ==> '/' !in Tokens(path)[i]
  {
    if path != [] {
      TokenHasNoSlash(path[0]);
      TokensHaveNoSlash(path[1..]);
    }
  }

  /** Splitting a printed path gives back its tokens. */
  lemma SplitPointer(path: seq<Step>)
    requires path != []
    ensures Split(PointerOf(path)[1..]) == Tokens(path)
  {
    PointerJoins(path);
    TokensHaveNoSlash(path);
    assert PointerOf(path)[1..] == Join(Tokens(path));
    SplitJoin(Tokens(path));
  }

  /** ASCII digits are read as everywhere. */
  lemma {:induction false} ReadAscii(py: Python, s: string)
    requires py.Standard() && Digits(s)
    ensures py.Int(s) == ParseDecimal(s)
    ensures py.Fits(s) ==> py.Converts(s)
    ensures s != "" ==> py.IsDigit(s)
  {
    if s != "" { ReadAscii(py, s[..|s| - 1]); }
  }

  /** A token that is not escaped stands for itself. */
  lemma PlainToken(t: string)
    requires '~' !in t
    ensures Unescape(t) == t
  {
    NoTilde(t, '~', '1', '/');
    NoTilde(t, '~', '0', '~');
  }

  /** No index on the path is too long to be converted. */
  predicate IndexesFit(py: Python, path: seq<Step>) {
    forall k :: 0 <= k < |path| && path[k].Index? ==> py.Fits(Decimal(path[k].i))
  }

  lemma AdvanceToken(py: Python, document: Json, step: Step)
    requires py.Standard() && IndexesFit(py, [step]) && ValueAt(document, [step]).Some?
    ensures Advance(py, document, Unescape(Token(step))) == Found(ValueAt(document, [step]).value)
  {
    assert [step][1..] == [];
    match step
    case Key(k) => UnescapeInvertsEscape(k);
    case Index(i) =>
      assert [step][0].Index?;
      var d := Decimal(i);
      assert Digits(d) && '~' !in d;
      PlainToken(d);
      DecimalRoundTrip(i);
      ReadAscii(py, d);
  }

  lemma {:induction false} FollowTokens(py: Python, document: Json, path: seq<Step>)
    requires py.Standard() && IndexesFit(py, path) && ValueAt(document, path).Some?
    ensures Follow(py, document, Tokens(path)) == Found(ValueAt(document, path).value)
  {
    if path != [] {
      var next := match path[0] case Key(k) => document.fields[k] case Index(i) => document.items[i];
      assert [path[0]][1..] == [];
      assert ValueAt(document, [path[0]]) == Some(next);
      AdvanceToken(py, document, path[0]);
      FollowTokens(py, next, path[1..]);
      assert Tokens(path)[1..] == Tokens(path[1..]);
    }
  }

  /** Round trip: every path present in a document is reached by its printed pointer. */
  lemma PointerRoundTrip(py: Python, document: Json, path: seq<Step>)
    requires py.Standard() && IndexesFit(py, path) && ValueAt(document, path).Some?
    ensures Evaluate(py, document, PointerOf(path)) == Found(ValueAt(document, path).value)
  {
    if path != [] {
      SplitPointer(path);
      FollowTokens(py, document, path);
    }
  }

  // ---- The other direction ----------------------------------------------------------------------

  /** The path a pointer is read as, step by step, against a document. */
  function ReadPath(py: Python, current: Json, raw: seq<string>): seq<Step> {
    if raw == [] then []
    else
      var part := Unescape(raw[0]);
      var next := Advance(py, current, part);
      if !next.Found? then []
      else [if current.Obj? then Key(part) else Index(py.Int(part))] + ReadPath(py, next.value, raw[1..])
  }

  lemma {:induction false} FollowIsPath(py: Python, current: Json, raw: seq<string>)
    requires Follow(py, current, raw).Found?
    ensures |ReadPath(py, current, raw)| == |raw|
    ensures ValueAt(current, ReadPath(py, current, raw)) == Some(Follow(py, current, raw).value)
  {
    if raw != [] {
      var next := Advance(py, current, Unescape(raw[0]));
      FollowIsPath(py, next.value, raw[1..]);
      assert ReadPath(py, current, raw)[1..] == ReadPath(py, next.value, raw[1..]);
    }
  }

  /** Soundness: whatever the evaluator finds lies on a path of the document with one step per token. */
  lemma FoundIsOnPath(py: Python, document: Json, pointer: string)
    requires Evaluate(py, document, pointer).Found?
    ensures exists path :: ValueAt(document, path) == Some(Evaluate(py, document, pointer).value)
                        && |path| == if pointer == "" then 0 else |Split(pointer[1..])|
  {
    if pointer == "" {
      assert ValueAt(document, []) == Some(document);
    } else {
      var raw := Split(pointer[1..]);
      FollowIsPath(py, document, raw);
      assert ValueAt(document, ReadPath(py, document, raw)) == Some(Evaluate(py, document, pointer).value);
    }
  }

  /** The k-th token reaches an array and is all digits to `isdigit`, but `int` refuses it. */
  ghost predicate UnreadableIndex(py: Python, current: Json, raw: seq<string>, k: nat)
    requires k < |raw|
  {
    && Follow(py, current, raw[..k]).Found?
    && Follow(py, current, raw[..k]).value.Arr?
    && py.IsDigit(Unescape(raw[k])) && !py.Converts(Unescape(raw[k]))
  }

  lemma FollowPrefix(py: Python, current: Json, raw: seq<string>, k: nat)
    requires 0 < k <= |raw|
    ensures var next := Advance(py, current, Unescape(raw[0]));
            Follow(py, current, raw[..k]) == if next.Found? then Follow(py, next.value, raw[1..][..k - 1]) else next
  {
    assert raw[..k][0] == raw[0] && raw[..k][1..] == raw[1..][..k - 1];
  }

  /** The evaluator raises exactly on such a token; every other pointer gets an answer. */
  lemma {:induction false} RaisesExactly(py: Python, current: Json, raw: seq<string>)
    ensures Follow(py, current, raw).Raises? <==> exists k: nat :: k < |raw| && UnreadableIndex(py, current, raw, k)
  {
    if raw != [] {
      var next := Advance(py, current, Unescape(raw[0]));
      assert raw[..0] == [];
      assert UnreadableIndex(py, current, raw, 0) <==> next.Raises?;
      if next.Found? {
        RaisesExactly(py, next.value, raw[1..]);
      }
      forall k: nat | 0 < k < |raw|
        ensures UnreadableIndex(py, current, raw, k) <==>
                  next.Found? && UnreadableIndex(py, next.value, raw[1..], k - 1)
      {
        FollowPrefix(py, current, raw, k);
        assert raw[1..][k - 1] == raw[k];
      }
      if next.Found? && Follow(py, next.value, raw[1..]).Raises? {
        var k: nat :| k < |raw[1..]| && UnreadableIndex(py, next.value, raw[1..], k);
        assert UnreadableIndex(py, current, raw, k + 1);
      }
    }
  }

  /** A single odd digit, circled or raised, makes the evaluator raise on every array. */
  lemma OddDigitRaises(py: Python, items: seq<Json>, c: char)
    requires py.Standard() && py.glyph(c) == OddDigit
    ensures Evaluate(py, Arr(items), ['/', c]) == Raises
  {
    assert ['/', c][1..] == [c];
    SplitWhole([c]);
    PlainToken([c]);
    assert [[c]][0] == [c];
    assert !py.Converts([c]) by { assert !py.glyph([c][0]).DecimalDigit?; }
  }
}
