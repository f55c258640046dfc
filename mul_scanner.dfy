/**
 * A hand scanner for the instruction pattern of the third solver
 * (src/bin/03.rs), and the two answers over lines of corrupted memory.
 *
 * The first answer matches `mul\((\d{1,3}),(\d{1,3})\)` on each line and
 * sums the products line by line. The second matches that pattern or
 * `do\(\)` or `don't\(\)` on all lines joined together and folds the
 * matches. Every match of these patterns begins with `m` or `d`, has a fixed
 * shape for its non-digit characters and bounded digit runs, so at most one
 * alternative matches at a position; scanning left to right, emitting a
 * token where one matches and moving one character on where none does,
 * yields the leftmost non-overlapping matches.
 */
module MulScanner {
  import opened Wrappers
  import opened MulInstructions

  predicate IsDigit(c: char)
  {
    '0' <= c <= '9'
  }

  predicate AllDigits(s: string, i: nat, j: nat)
    requires i <= j <= |s|
  {
    forall k :: i <= k < j ==> IsDigit(s[k])
  }

  /** The length of the run of digits at `i`, counted up to `cap`. */
  function DigitRun(s: string, i: nat, cap: nat): (n: nat)
    requires i <= |s|
    ensures n <= cap && i + n <= |s|
    decreases cap
  {
    if cap == 0 || i == |s| || !IsDigit(s[i]) then 0 else 1 + DigitRun(s, i + 1, cap - 1)
  }

  /** The run is made of digits, and stops short of `cap` only at the end or at a non-digit. */
  lemma {:induction false} DigitRunIsMaximal(s: string, i: nat, cap: nat)
    requires i <= |s|
    ensures AllDigits(s, i, i + DigitRun(s, i, cap))
    ensures DigitRun(s, i, cap) < cap ==> i + DigitRun(s, i, cap) == |s| || !IsDigit(s[i + DigitRun(s, i, cap)])
    decreases cap
  {
    if cap > 0 && i < |s| && IsDigit(s[i]) {
      DigitRunIsMaximal(s, i + 1, cap - 1);
    }
  }

  function DigitValue(c: char): (d: nat)
    ensures d < 10
    ensures IsDigit(c) ==> d == c as int - '0' as int
  {
    if IsDigit(c) then c as int - '0' as int else 0
  }

  function Pow10(n: nat): nat
  {
    if n == 0 then 1 else 10 * Pow10(n - 1)
  }

  /** The decimal value of the `len` characters at `i`, which the callers have checked are digits. */
  function DigitsValue(s: string, i: nat, len: nat): (v: nat)
    requires i + len <= |s|
    ensures v < Pow10(len)
  {
    if len == 0 then 0 else 10 * DigitsValue(s, i, len - 1) + DigitValue(s[i + len - 1])
  }

  /** `\d{1,3}` at `i`, taking `n` digits, followed by the character `stop`. */
  predicate OperandShape(s: string, i: nat, n: nat, stop: char)
  {
    1 <= n <= 3 && i + n < |s| && AllDigits(s, i, i + n) && s[i + n] == stop
  }

  /** One operand and the character after it: the value and the position past `stop`. */
  function ParseOperand(s: string, i: nat, stop: char): (r: Option<(nat, nat)>)
    requires i <= |s|
    ensures r.Some? ==> r.value.0 < 1000 && i < r.value.1 <= |s|
  {
    var n := DigitRun(s, i, 4);
    if 1 <= n <= 3 && i + n < |s| && s[i + n] == stop then
      assert Pow10(n) <= 1000;
      Some((DigitsValue(s, i, n), i + n + 1))
    else
      None
  }

  /**
   * Looking at the whole digit run decides the operand exactly as the regex's
   * backtracking over `\d{1,3}` does: it matches iff some split into one to
   * three digits and `stop` exists, and then yields that split's value.
   */
  lemma ParseOperandIsRegex(s: string, i: nat, stop: char)
    requires i <= |s|
    requires !IsDigit(stop)
    ensures ParseOperand(s, i, stop).Some? <==> exists n :: OperandShape(s, i, n, stop)
    ensures forall n :: OperandShape(s, i, n, stop) ==> ParseOperand(s, i, stop) == Some((DigitsValue(s, i, n), i + n + 1))
  {
    DigitRunIsMaximal(s, i, 4);
    var n := DigitRun(s, i, 4);
    if 1 <= n <= 3 && i + n < |s| && s[i + n] == stop {
      assert OperandShape(s, i, n, stop);
    }
  }

  /** The characters of `w` from the `k`-th on stand in `s` from position `i + k` on. */
  predicate OccursFrom(s: string, i: nat, w: string, k: nat)
    decreases |w| - k
  {
    i + |w| <= |s| && (k >= |w| || (s[i + k] == w[k] && OccursFrom(s, i, w, k + 1)))
  }

  /** `w` stands in `s` at position `i`. */
  predicate Occurs(s: string, i: nat, w: string)
  {
    OccursFrom(s, i, w, 0)
  }

  lemma {:induction false} OccursFromIff(s: string, i: nat, w: string, k: nat)
    ensures OccursFrom(s, i, w, k) <==> i + |w| <= |s| && forall j :: k <= j < |w| ==> s[i + j] == w[j]
    decreases |w| - k
  {
    if k < |w| {
      OccursFromIff(s, i, w, k + 1);
    }
  }

  /** The recursive definition says that each character of `w` stands in its place. */
  lemma OccursIff(s: string, i: nat, w: string)
    ensures Occurs(s, i, w) <==> i + |w| <= |s| && forall j :: 0 <= j < |w| ==> s[i + j] == w[j]
  {
    OccursFromIff(s, i, w, 0);
  }

  lemma OccursAt(s: string, i: nat, w: string, k: nat)
    requires Occurs(s, i, w) && k < |w|
    ensures s[i + k] == w[k]
  {
    OccursIff(s, i, w);
  }

  lemma OccursSplit(s: string, i: nat, u: string, w: string)
    requires Occurs(s, i, u + w)
    ensures Occurs(s, i, u) && Occurs(s, i + |u|, w)
  {
    OccursIff(s, i, u + w);
    OccursIff(s, i, u);
    OccursIff(s, i + |u|, w);
    forall j | 0 <= j < |u| ensures s[i + j] == u[j] {
      assert (u + w)[j] == u[j];
    }
    forall j | 0 <= j < |w| ensures s[i + |u| + j] == w[j] {
      assert (u + w)[|u| + j] == w[j];
    }
  }

  /** Every text holds its own suffixes. */
  lemma OccursSuffix(s: string, i: nat)
    requires i <= |s|
    ensures Occurs(s, i, s[i..])
  {
    OccursIff(s, i, s[i..]);
  }

  /** A character of `s` that differs from the one `w` needs rules `w` out at `i`. */
  lemma NotOccurs(s: string, i: nat, w: string, k: nat)
    requires k < |w| && i + k < |s| && s[i + k] != w[k]
    ensures !Occurs(s, i, w)
  {
    if Occurs(s, i, w) {
      OccursAt(s, i, w, k);
    }
  }

  /** `mul(` operand `,` operand `)` at `i`: the token and the length of the match. */
  function MatchMul(s: string, i: nat): (m: Option<(Token, nat)>)
    requires i <= |s|
    ensures m.Some? ==> m.value.0.Mul? && i < |s| && s[i] == 'm' && 8 <= m.value.1 && i + m.value.1 <= |s|
  {
    if Occurs(s, i, "mul(") then
      OccursAt(s, i, "mul(", 0);
      match ParseOperand(s, i + 4, ',')
      case None => None
      case Some((a, j)) =>
        match ParseOperand(s, j, ')')
        case None => None
        case Some((b, k)) => Some((Mul(a, b), k - i))
    else
      None
  }

  /** `do()` or `don't()` at `i`: the token and the length of the match. */
  function MatchToggle(s: string, i: nat): (m: Option<(Token, nat)>)
    requires i <= |s|
    ensures m.Some? ==> (m.value == (Do, 4) || m.value == (Dont, 7)) && i + m.value.1 <= |s| && s[i] == 'd'
  {
    if Occurs(s, i, "do()") then
      OccursAt(s, i, "do()", 0);
      Some((Do, 4))
    else if Occurs(s, i, "don't()") then
      OccursAt(s, i, "don't()", 0);
      Some((Dont, 7))
    else
      None
  }

  /** The match at `i` of the `mul` pattern, or also of the toggles when `toggles` is set. */
  function Match(s: string, i: nat, toggles: bool): Option<(Token, nat)>
    requires i <= |s|
  {
    if toggles && MatchToggle(s, i).Some? then MatchToggle(s, i) else MatchMul(s, i)
  }

  /** `captures_iter` from position `i`: the non-overlapping matches, leftmost first. */
  function ScanFrom(s: string, i: nat, toggles: bool): seq<Token>
    requires i <= |s|
    decreases |s| - i
  {
    if i == |s| then []
    else
      var m := Match(s, i, toggles);
      if m.Some? then [m.value.0] + ScanFrom(s, i + m.value.1, toggles) else ScanFrom(s, i + 1, toggles)
  }

  /** The matches of the whole text. Every match takes some characters, so there are at most as many as characters. */
  function Scan(s: string, toggles: bool): (r: seq<Token>)
    ensures |r| <= |s|
  {
    ScanFromLength(s, 0, toggles);
    ScanFrom(s, 0, toggles)
  }

  lemma {:induction false} ScanFromLength(s: string, i: nat, toggles: bool)
    requires i <= |s|
    ensures |ScanFrom(s, i, toggles)| <= |s| - i
    decreases |s| - i
  {
    if i < |s| {
      var m := Match(s, i, toggles);
      MatchShape(s, i, toggles);
      if m.Some? {
        var (t, n) := m.value;
        ScanStep(s, i, toggles, t, n);
        ScanFromLength(s, i + n, toggles);
      } else {
        ScanFromLength(s, i + 1, toggles);
      }
    }
  }

  /** The lines concatenated, with no separator; a single line joins to itself. */
  function Join(lines: seq<string>): (j: string)
    ensures |lines| == 1 ==> j == lines[0]
  {
    if |lines| == 0 then "" else lines[0] + Join(lines[1..])
  }

  /** Joining is concatenation: the lines of two documents join to the two joined texts. */
  lemma {:induction false} JoinAppend(a: seq<string>, b: seq<string>)
    ensures Join(a + b) == Join(a) + Join(b)
  {
    if |a| == 0 {
      assert a + b == b;
    } else {
      assert (a + b)[1..] == a[1..] + b;
      JoinAppend(a[1..], b);
    }
  }

  /**
   * The first answer: the products of each line's `mul` matches, summed over
   * the lines. A match takes at least one character and a product is at most
   * 999 * 999, which bounds the answer by the length of the text.
   */
  function Part1(lines: seq<string>): (n: nat)
    ensures n <= 999 * 999 * |Join(lines)|
  {
    if |lines| == 0 then 0
    else
      LineBound(lines[0]);
      assert |Join(lines)| == |lines[0]| + |Join(lines[1..])|;
      ProductSum(Scan(lines[0], false)) + Part1(lines[1..])
  }

  lemma LineBound(line: string)
    ensures ProductSum(Scan(line, false)) <= 999 * 999 * |line|
  {
    var ts := Scan(line, false);
    assert 999 * 999 * |ts| <= 999 * 999 * |line|;
  }

  /**
   * The second answer: the fold over the matches of all lines joined into
   * one string. It is at most the product sum of the `mul` matches of the
   * joined text.
   */
  function Part2(lines: seq<string>): (n: nat)
    ensures n <= ProductSum(Scan(Join(lines), false))
  {
    var j := Join(lines);
    ProductSumOfMuls(Scan(j, true));
    MulsOfScan(j, 0);
    Run(Scan(j, true)).sum
  }

  // ---------------------------------------------------------------------
  // The `mul` matches do not depend on whether the toggles are matched too.

  /**
   * A match takes at least four characters and lies inside the text; without
   * the toggles it is a `mul`. The alternatives exclude each other, so a
   * `mul` match is found whether or not the toggles are looked for.
   */
  lemma MatchShape(s: string, i: nat, toggles: bool)
    requires i <= |s|
    ensures Match(s, i, toggles).Some? ==> 4 <= Match(s, i, toggles).value.1 && i + Match(s, i, toggles).value.1 <= |s|
    ensures Match(s, i, toggles).Some? && !toggles ==> Match(s, i, toggles).value.0.Mul?
    ensures MatchToggle(s, i).Some? ==> MatchMul(s, i).None?
    ensures MatchMul(s, i).Some? ==> Match(s, i, toggles) == MatchMul(s, i)
  {
  }

  /** Positions that hold no `m` start no `mul` match and are stepped over. */
  lemma {:induction false} SkipWithoutM(s: string, i: nat, k: nat)
    requires i <= k <= |s|
    requires forall j :: i <= j < k ==> s[j] != 'm'
    ensures ScanFrom(s, i, false) == ScanFrom(s, k, false)
    decreases k - i
  {
    if i < k {
      assert MatchMul(s, i).None?;
      SkipWithoutM(s, i + 1, k);
    }
  }

  /** A toggle match holds no `m`. */
  lemma ToggleHasNoM(s: string, i: nat)
    requires i < |s| && MatchToggle(s, i).Some?
    ensures forall k :: i <= k < i + MatchToggle(s, i).value.1 ==> s[k] != 'm'
  {
    var w := if Occurs(s, i, "do()") then "do()" else "don't()";
    forall k | i <= k < i + |w| ensures s[k] != 'm' {
      OccursAt(s, i, w, k - i);
    }
  }

  /** So the `mul` scan steps over a toggle match. */
  lemma ToggleSkipped(s: string, i: nat)
    requires i < |s| && MatchToggle(s, i).Some?
    ensures ScanFrom(s, i, false) == ScanFrom(s, i + MatchToggle(s, i).value.1, false)
  {
    ToggleHasNoM(s, i);
    SkipWithoutM(s, i, i + MatchToggle(s, i).value.1);
  }

  /** The `mul` tokens of the combined scan are exactly the matches of the `mul` pattern alone. */
  lemma {:induction false} MulsOfScan(s: string, i: nat)
    requires i <= |s|
    ensures Muls(ScanFrom(s, i, true)) == ScanFrom(s, i, false)
    decreases |s| - i
  {
    if i < |s| {
      var m := Match(s, i, true);
      if m.Some? {
        var (t, n) := m.value;
        MulsOfScan(s, i + n);
        ScanStep(s, i, true, t, n);
        MulsCons(t, ScanFrom(s, i + n, true));
        if MatchToggle(s, i).Some? {
          ToggleSkipped(s, i);
        } else {
          ScanStep(s, i, false, t, n);
        }
      } else {
        MulsOfScan(s, i + 1);
      }
    }
  }

  /** On one line, the second answer never exceeds the first. */
  lemma Part2AtMostPart1(line: string)
    ensures Part2([line]) <= Part1([line])
  {
    assert Join([line]) == line;
    ProductSumOfMuls(Scan(line, true));
    MulsOfScan(line, 0);
  }

  /** On one line without `do()`/`don't()` matches, the two answers agree. */
  lemma Part2EqualsPart1WithoutToggles(line: string)
    requires forall k :: 0 <= k < |Scan(line, true)| ==> Scan(line, true)[k].Mul?
    ensures Part2([line]) == Part1([line])
  {
    assert Join([line]) == line;
    RunWithoutToggles(Scan(line, true));
    ProductSumOfMuls(Scan(line, true));
    MulsOfScan(line, 0);
  }

  // ---------------------------------------------------------------------
  // Scanning is the inverse of rendering a token stream as text.

  function DigitChar(d: nat): (c: char)
    requires d < 10
    ensures IsDigit(c) && DigitValue(c) == d
  {
    ('0' as int + d) as char
  }

  /** The decimal digits of an operand, without leading zeros. */
  function Decimal(n: Operand): (w: string)
    ensures |w| == if n < 10 then 1 else if n < 100 then 2 else 3
  {
    if n < 10 then [DigitChar(n)] else Decimal(n / 10) + [DigitChar(n % 10)]
  }

  /** The canonical text of a token. */
  function Render(t: Token): string
  {
    match t
    case Do => "do()"
    case Dont => "don't()"
    case Mul(a, b) => "mul(" + Decimal(a) + "," + Decimal(b) + ")"
  }

  function RenderAll(ts: seq<Token>): string
  {
    if |ts| == 0 then "" else Render(ts[0]) + RenderAll(ts[1..])
  }

  /** The digits of `Decimal(n)`, read back, give `n`. */
  lemma {:induction false} DecimalValue(s: string, i: nat, n: Operand)
    requires Occurs(s, i, Decimal(n))
    ensures AllDigits(s, i, i + |Decimal(n)|)
    ensures DigitsValue(s, i, |Decimal(n)|) == n
    decreases n
  {
    if n < 10 {
      OccursAt(s, i, Decimal(n), 0);
    } else {
      var u, c := Decimal(n / 10), DigitChar(n % 10);
      OccursSplit(s, i, u, [c]);
      OccursAt(s, i + |u|, [c], 0);
      DecimalValue(s, i, n / 10);
    }
  }

  /** A rendered operand followed by `stop` parses back to the operand. */
  lemma OperandRendered(s: string, i: nat, n: Operand, stop: char)
    requires !IsDigit(stop)
    requires Occurs(s, i, Decimal(n)) && Occurs(s, i + |Decimal(n)|, [stop])
    ensures ParseOperand(s, i, stop) == Some((n, i + |Decimal(n)| + 1))
  {
    var w := Decimal(n);
    OccursAt(s, i + |w|, [stop], 0);
    DecimalValue(s, i, n);
    ParseOperandIsRegex(s, i, stop);
    assert OperandShape(s, i, |w|, stop);
  }

  /** Where `mul(` stands, no toggle does. */
  lemma NoToggleAtMul(s: string, i: nat)
    requires Occurs(s, i, "mul(")
    ensures MatchToggle(s, i).None?
  {
    OccursAt(s, i, "mul(", 0);
    NotOccurs(s, i, "do()", 0);
    NotOccurs(s, i, "don't()", 0);
  }

  /** A rendered `mul`, given as its five pieces, is matched whole. */
  lemma MatchRenderedMul(s: string, i: nat, a: Operand, b: Operand)
    requires Occurs(s, i, "mul(") && Occurs(s, i + 4, Decimal(a)) && Occurs(s, i + 4 + |Decimal(a)|, ",")
    requires Occurs(s, i + 5 + |Decimal(a)|, Decimal(b)) && Occurs(s, i + 5 + |Decimal(a)| + |Decimal(b)|, ")")
    ensures MatchMul(s, i) == Some((Mul(a, b), 6 + |Decimal(a)| + |Decimal(b)|))
  {
    OperandRendered(s, i + 4, a, ',');
    OperandRendered(s, i + 5 + |Decimal(a)|, b, ')');
  }

  /** A rendered token is matched, whole, where it stands. */
  lemma MatchRendered(s: string, i: nat, t: Token)
    requires Occurs(s, i, Render(t))
    ensures i < |s| && Match(s, i, true) == Some((t, |Render(t)|))
  {
    match t
    case Do =>
    case Dont =>
      OccursAt(s, i, "don't()", 2);
      NotOccurs(s, i, "do()", 2);
    case Mul(a, b) =>
      var da, db := Decimal(a), Decimal(b);
      OccursSplit(s, i, "mul(" + da + "," + db, ")");
      OccursSplit(s, i, "mul(" + da + ",", db);
      OccursSplit(s, i, "mul(" + da, ",");
      OccursSplit(s, i, "mul(", da);
      NoToggleAtMul(s, i);
      MatchRenderedMul(s, i, a, b);
  }

  /** Where a match is found, the scan emits it and resumes after it. */
  lemma ScanStep(s: string, i: nat, toggles: bool, t: Token, n: nat)
    requires i < |s| && Match(s, i, toggles) == Some((t, n))
    ensures ScanFrom(s, i, toggles) == [t] + ScanFrom(s, i + n, toggles)
  {
  }

  /** The tokens `ts` stand one after another from `i` to the end of `s`. */
  predicate RenderedAt(s: string, i: nat, ts: seq<Token>)
    decreases ts
  {
    if |ts| == 0 then i == |s|
    else Occurs(s, i, Render(ts[0])) && RenderedAt(s, i + |Render(ts[0])|, ts[1..])
  }

  lemma RenderedAtTail(s: string, i: nat, ts: seq<Token>)
    requires |ts| > 0 && RenderedAt(s, i, ts)
    ensures Occurs(s, i, Render(ts[0])) && RenderedAt(s, i + |Render(ts[0])|, ts[1..])
  {
  }

  /** The text of a stream, placed at the end of `s`, is its tokens one after another. */
  lemma {:induction false} RenderAllIsRendered(s: string, i: nat, ts: seq<Token>)
    requires Occurs(s, i, RenderAll(ts)) && i + |RenderAll(ts)| == |s|
    ensures RenderedAt(s, i, ts)
    decreases ts
  {
    if |ts| > 0 {
      OccursSplit(s, i, Render(ts[0]), RenderAll(ts[1..]));
      RenderAllIsRendered(s, i + |Render(ts[0])|, ts[1..]);
    }
  }

  /** From `i` on, the matches are `ts`, each found where the one before ends, up to the end of `s`. */
  predicate Emits(s: string, i: nat, ts: seq<Token>)
    decreases ts
  {
    if |ts| == 0 then i == |s|
    else
      i < |s| && Match(s, i, true).Some? && Match(s, i, true).value.0 == ts[0]
      && Emits(s, i + Match(s, i, true).value.1, ts[1..])
  }

  lemma EmitsCons(s: string, i: nat, ts: seq<Token>, n: nat)
    requires |ts| > 0 && i < |s| && Match(s, i, true) == Some((ts[0], n)) && Emits(s, i + n, ts[1..])
    ensures Emits(s, i, ts)
  {
  }

  /** Tokens that stand one after another are matched one after another. */
  lemma {:induction false} RenderedEmits(s: string, i: nat, ts: seq<Token>)
    requires RenderedAt(s, i, ts)
    ensures Emits(s, i, ts)
    decreases ts
  {
    if |ts| > 0 {
      var n := |Render(ts[0])|;
      RenderedAtTail(s, i, ts);
      MatchRendered(s, i, ts[0]);
      RenderedEmits(s, i + n, ts[1..]);
      EmitsCons(s, i, ts, n);
    }
  }

  /** The scan yields the matches found one after another. */
  lemma {:induction false} ScanEmits(s: string, i: nat, ts: seq<Token>)
    requires Emits(s, i, ts)
    ensures i <= |s| && ScanFrom(s, i, true) == ts
    decreases ts
  {
    if |ts| > 0 {
      var (t, n) := Match(s, i, true).value;
      ScanEmits(s, i + n, ts[1..]);
      ScanStep(s, i, true, t, n);
      assert ts == [t] + ts[1..];
    }
  }

  /** The round trip: every token stream is recovered from its text. */
  lemma ScanRendered(ts: seq<Token>)
    ensures Scan(RenderAll(ts), true) == ts
    ensures Scan(RenderAll(ts), false) == Muls(ts)
  {
    var s := RenderAll(ts);
    OccursSuffix(s, 0);
    assert s[0..] == s;
    RenderAllIsRendered(s, 0, ts);
    RenderedEmits(s, 0, ts);
    ScanEmits(s, 0, ts);
    MulsOfScan(s, 0);
  }
}
