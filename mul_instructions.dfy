/**
 * The instruction tokens of the third solver (src/bin/03.rs) and the two
 * folds over them.
 *
 * A token is one match of the instruction pattern: `do()`, `don't()` or
 * `mul(a,b)` with operands of one to three digits. The first answer sums the
 * products; the second runs a two-field state machine `(enabled, sum)` that
 * starts at `(true, 0)`, where `do()` and `don't()` switch multiplication
 * on and off.
 */
module MulInstructions {
  import opened Wrappers

  /** An operand of `mul`: at most three decimal digits. */
  type Operand = n: nat | n < 1000

  datatype Token = Do | Dont | Mul(a: Operand, b: Operand)

  /**
   * What a match contributes to the first answer: the product of a `mul`,
   * at most 999 * 999 since both operands have three digits at most; the
   * toggles contribute none.
   */
  function Product(t: Token): (p: nat)
    ensures p <= 999 * 999
    ensures p == 0 <==> !t.Mul? || t.a == 0 || t.b == 0
  {
    if t.Mul? then
      assert t.a * t.b <= 999 * t.b;
      t.a * t.b
    else
      0
  }

  /** The sum of the products of all `mul` tokens. */
  function ProductSum(ts: seq<Token>): (n: nat)
    ensures n <= 999 * 999 * |ts|
  {
    if |ts| == 0 then 0 else Product(ts[0]) + ProductSum(ts[1..])
  }

  /** The `mul` tokens of a stream, in order. */
  function Muls(ts: seq<Token>): (r: seq<Token>)
    ensures |r| <= |ts|
    ensures forall k :: 0 <= k < |r| ==> r[k].Mul?
  {
    if |ts| == 0 then []
    else (if ts[0].Mul? then [ts[0]] else []) + Muls(ts[1..])
  }

  lemma MulsCons(t: Token, ts: seq<Token>)
    ensures Muls([t] + ts) == (if t.Mul? then [t] else []) + Muls(ts)
  {
    assert ([t] + ts)[1..] == ts;
  }

  /** Dropping the toggles leaves the product sum as it was. */
  lemma {:induction false} ProductSumOfMuls(ts: seq<Token>)
    ensures ProductSum(Muls(ts)) == ProductSum(ts)
  {
    if |ts| > 0 {
      ProductSumOfMuls(ts[1..]);
      ProductSumAppend(if ts[0].Mul? then [ts[0]] else [], Muls(ts[1..]));
    }
  }

  lemma {:induction false} ProductSumAppend(a: seq<Token>, b: seq<Token>)
    ensures ProductSum(a + b) == ProductSum(a) + ProductSum(b)
  {
    if |a| == 0 {
      assert a + b == b;
    } else {
      assert (a + b)[1..] == a[1..] + b;
      ProductSumAppend(a[1..], b);
    }
  }

  datatype State = State(enabled: bool, sum: nat)

  /** The state the fold starts from. */
  const Start := State(true, 0)

  /**
   * The closure passed to `fold`: a toggle sets or clears `enabled` and keeps
   * the sum; a `mul` keeps `enabled` and adds its product exactly when enabled.
   */
  function Step(st: State, t: Token): (r: State)
    ensures t == Do ==> r.enabled
    ensures t == Dont ==> !r.enabled
    ensures t.Mul? ==> r.enabled == st.enabled
    ensures r.sum == st.sum + (if t.Mul? && st.enabled then Product(t) else 0)
  {
    match t
    case Do => State(true, st.sum)
    case Dont => State(false, st.sum)
    case Mul(a, b) => if st.enabled then State(st.enabled, st.sum + a * b) else st
  }

  /**
   * `fold`, from left to right. The running sum never decreases, and grows by
   * at most the products of the `mul` tokens seen.
   */
  function Fold(st: State, ts: seq<Token>): (r: State)
    ensures st.sum <= r.sum <= st.sum + ProductSum(ts)
    decreases |ts|
  {
    if |ts| == 0 then st else Fold(Step(st, ts[0]), ts[1..])
  }

  /**
   * The state after a token stream; its `sum` is the second answer. Disabling
   * can only remove products, so it is at most the first answer's product sum.
   */
  function Run(ts: seq<Token>): (r: State)
    ensures r.sum <= ProductSum(ts)
  {
    Fold(Start, ts)
  }

  lemma {:induction false} FoldAppend(st: State, a: seq<Token>, b: seq<Token>)
    ensures Fold(st, a + b) == Fold(Fold(st, a), b)
    decreases |a|
  {
    if |a| == 0 {
      assert a + b == b;
    } else {
      assert (a + b)[1..] == a[1..] + b;
      FoldAppend(Step(st, a[0]), a[1..], b);
    }
  }

  /**
   * One more token: `do()` enables, `don't()` disables, neither touches the
   * sum; a `mul` adds its product when enabled and changes nothing otherwise.
   */
  lemma RunExtend(ts: seq<Token>, t: Token)
    ensures t == Do ==> Run(ts + [t]) == State(true, Run(ts).sum)
    ensures t == Dont ==> Run(ts + [t]) == State(false, Run(ts).sum)
    ensures t.Mul? && Run(ts).enabled ==> Run(ts + [t]) == State(true, Run(ts).sum + Product(t))
    ensures t.Mul? && !Run(ts).enabled ==> Run(ts + [t]) == Run(ts)
  {
    FoldAppend(Start, ts, [t]);
  }

  /** The value the last `do()` (true) or `don't()` (false) of a stream sets, if any. */
  function LastToggle(ts: seq<Token>): Option<bool>
  {
    if |ts| == 0 then None
    else if ts[|ts| - 1] == Do then Some(true)
    else if ts[|ts| - 1] == Dont then Some(false)
    else LastToggle(ts[..|ts| - 1])
  }

  /** After any stream, multiplication is enabled iff its last toggle was `do()` or it had none. */
  lemma {:induction false} EnabledIffLastToggle(ts: seq<Token>)
    ensures Run(ts).enabled <==> LastToggle(ts) != Some(false)
  {
    if |ts| > 0 {
      var init, t := ts[..|ts| - 1], ts[|ts| - 1];
      assert ts == init + [t];
      EnabledIffLastToggle(init);
      RunExtend(init, t);
    }
  }

  /** So the sum after a prefix is at most the sum after the whole stream. */
  lemma SumMonotone(ts: seq<Token>, k: nat)
    requires k <= |ts|
    ensures Run(ts[..k]).sum <= Run(ts).sum
  {
    assert ts == ts[..k] + ts[k..];
    FoldAppend(Start, ts[..k], ts[k..]);
  }

  /** From an enabled state, a stream without toggles adds exactly its product sum. */
  lemma {:induction false} FoldWithoutToggles(st: State, ts: seq<Token>)
    requires st.enabled
    requires forall k :: 0 <= k < |ts| ==> ts[k].Mul?
    ensures Fold(st, ts) == State(true, st.sum + ProductSum(ts))
    decreases |ts|
  {
    if |ts| > 0 {
      FoldWithoutToggles(Step(st, ts[0]), ts[1..]);
    }
  }

  /** On a stream with no `do()`/`don't()`, the two answers agree. */
  lemma RunWithoutToggles(ts: seq<Token>)
    requires forall k :: 0 <= k < |ts| ==> ts[k].Mul?
    ensures Run(ts).sum == ProductSum(ts)
  {
    FoldWithoutToggles(Start, ts);
  }
}
