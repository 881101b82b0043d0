/**
 * Inputs generated from pydantic field information
 * (rascal2/widgets/inputs.py): the editor chosen for a field's type, the
 * spin-box range taken from the field's `ge`/`gt`/`le`/`lt` metadata, and
 * the double spin box that infers its number of decimals from typed text.
 */
module Inputs {
  import opened Wrappers
  import opened Text

  // ---------------------------------------------------------------------------
  // Field metadata and spin-box ranges
  // ---------------------------------------------------------------------------

  /** One item of `field_info.metadata`, with whichever bound attributes it has. */
  datatype MetaItem<T> = MetaItem(ge: Option<T>, gt: Option<T>, le: Option<T>, lt: Option<T>)

  /**
   * The last requested value among `requests`, or `initial` when nothing was
   * requested: what a setter called once per request leaves behind.
   */
  function LastRequest<T>(requests: seq<Option<T>>, initial: T): T
  {
    if requests == [] then initial
    else if requests[|requests| - 1].Some? then requests[|requests| - 1].value
    else LastRequest(requests[..|requests| - 1], initial)
  }

  /** The last request wins: later requests override earlier ones, and with none the initial value stays. */
  lemma {:induction false} LastRequestIsLast<T>(requests: seq<Option<T>>, initial: T)
    ensures (forall k :: 0 <= k < |requests| ==> requests[k].None?) ==> LastRequest(requests, initial) == initial
    ensures forall k :: 0 <= k < |requests| && requests[k].Some? && (forall j :: k < j < |requests| ==> requests[j].None?) ==>
      LastRequest(requests, initial) == requests[k].value
    decreases |requests|
  {
    if requests != [] {
      var init := requests[..|requests| - 1];
      LastRequestIsLast(init, initial);
      forall k | 0 <= k < |requests| && requests[k].Some? && (forall j :: k < j < |requests| ==> requests[j].None?)
        ensures LastRequest(requests, initial) == requests[k].value
      {
        if k < |requests| - 1 {
          assert init[k] == requests[k];
          assert forall j :: k < j < |init| ==> init[j] == requests[j];
        }
      }
    }
  }

  /** The minimum an integer item requests: `gt + 1` when it has `gt` (set after `ge`), else its `ge`. */
  function IntLower(item: MetaItem<int>): (r: Option<int>)
    ensures r.Some? <==> item.ge.Some? || item.gt.Some?
    ensures item.gt.Some? ==> r == Some(item.gt.value + 1)
    ensures item.gt.None? ==> r == item.ge
  {
    if item.gt.Some? then Some(item.gt.value + 1) else item.ge
  }

  /** The maximum an integer item requests: `lt - 1` when it has `lt` (set after `le`), else its `le`. */
  function IntUpper(item: MetaItem<int>): (r: Option<int>)
    ensures r.Some? <==> item.le.Some? || item.lt.Some?
    ensures item.lt.Some? ==> r == Some(item.lt.value - 1)
    ensures item.lt.None? ==> r == item.le
  {
    if item.lt.Some? then Some(item.lt.value - 1) else item.le
  }

  /** The minimum a float item requests: `gt` when present (set after `ge`), else `ge`, unchanged. */
  function FloatLower(item: MetaItem<real>): (r: Option<real>)
    ensures r.Some? <==> item.ge.Some? || item.gt.Some?
    ensures r.Some? ==> r == item.gt || r == item.ge
  {
    if item.gt.Some? then item.gt else item.ge
  }

  /** The maximum a float item requests: `lt` when present (set after `le`), else `le`, unchanged. */
  function FloatUpper(item: MetaItem<real>): (r: Option<real>)
    ensures r.Some? <==> item.le.Some? || item.lt.Some?
    ensures r.Some? ==> r == item.lt || r == item.le
  {
    if item.lt.Some? then item.lt else item.le
  }

  function IntLowers(meta: seq<MetaItem<int>>): (r: seq<Option<int>>)
    ensures |r| == |meta| && forall k :: 0 <= k < |meta| ==> r[k] == IntLower(meta[k])
  {
    seq(|meta|, k requires 0 <= k < |meta| => IntLower(meta[k]))
  }

  function IntUppers(meta: seq<MetaItem<int>>): (r: seq<Option<int>>)
    ensures |r| == |meta| && forall k :: 0 <= k < |meta| ==> r[k] == IntUpper(meta[k])
  {
    seq(|meta|, k requires 0 <= k < |meta| => IntUpper(meta[k]))
  }

  function FloatLowers(meta: seq<MetaItem<real>>): (r: seq<Option<real>>)
    ensures |r| == |meta| && forall k :: 0 <= k < |meta| ==> r[k] == FloatLower(meta[k])
  {
    seq(|meta|, k requires 0 <= k < |meta| => FloatLower(meta[k]))
  }

  function FloatUppers(meta: seq<MetaItem<real>>): (r: seq<Option<real>>)
    ensures |r| == |meta| && forall k :: 0 <= k < |meta| ==> r[k] == FloatUpper(meta[k])
  {
    seq(|meta|, k requires 0 <= k < |meta| => FloatUpper(meta[k]))
  }

  /** `QSpinBox`'s default range. */
  const SpinBoxMinimum: int := 0
  const SpinBoxMaximum: int := 99

  /** A spin box's range. Qt keeps `minimum <= maximum`. */
  datatype Range<T> = Range(minimum: T, maximum: T)

  /** `QSpinBox.setMinimum`: a new minimum above the maximum raises the maximum to it. */
  function IntSetMinimum(r: Range<int>, n: int): Range<int>
  {
    Range(n, if r.maximum < n then n else r.maximum)
  }

  /** `QSpinBox.setMaximum`: a new maximum below the minimum lowers the minimum to it. */
  function IntSetMaximum(r: Range<int>, n: int): Range<int>
  {
    Range(if n < r.minimum then n else r.minimum, n)
  }

  /** One integer metadata item's calls, in the order the loop makes them: `ge`, `gt + 1`, `le`, `lt - 1`. */
  function IntItemRange(item: MetaItem<int>, r: Range<int>): Range<int>
  {
    var r1 := if item.ge.Some? then IntSetMinimum(r, item.ge.value) else r;
    var r2 := if item.gt.Some? then IntSetMinimum(r1, item.gt.value + 1) else r1;
    var r3 := if item.le.Some? then IntSetMaximum(r2, item.le.value) else r2;
    if item.lt.Some? then IntSetMaximum(r3, item.lt.value - 1) else r3
  }

  /** The integer spin box's range after the metadata loop, from the range `r0`. */
  function IntRange(meta: seq<MetaItem<int>>, r0: Range<int>): Range<int>
  {
    if meta == [] then r0 else IntItemRange(meta[|meta| - 1], IntRange(meta[..|meta| - 1], r0))
  }

  /** The minimums the loop asks an integer spin box for, and the initial one. */
  function IntLows(meta: seq<MetaItem<int>>, lo0: int): set<int>
  {
    {lo0}
    + (set k | 0 <= k < |meta| && meta[k].ge.Some? :: meta[k].ge.value)
    + (set k | 0 <= k < |meta| && meta[k].gt.Some? :: meta[k].gt.value + 1)
  }

  /** The maximums the loop asks an integer spin box for, and the initial one. */
  function IntHighs(meta: seq<MetaItem<int>>, hi0: int): set<int>
  {
    {hi0}
    + (set k | 0 <= k < |meta| && meta[k].le.Some? :: meta[k].le.value)
    + (set k | 0 <= k < |meta| && meta[k].lt.Some? :: meta[k].lt.value - 1)
  }

  /** No minimum asked for lies above a maximum asked for. */
  predicate IntRequestsAgree(meta: seq<MetaItem<int>>, r0: Range<int>)
  {
    forall l, u :: l in IntLows(meta, r0.minimum) && u in IntHighs(meta, r0.maximum) ==> l <= u
  }

  /**
   * The integer spin box's range after the metadata loop: each item's `ge`,
   * `gt`, `le` and `lt` are applied in turn, starting from `lo0` and `hi0`.
   */
  method SpinBoxRange(meta: seq<MetaItem<int>>, lo0: int, hi0: int) returns (lo: int, hi: int)
    ensures Range(lo, hi) == IntRange(meta, Range(lo0, hi0))
  {
    lo, hi := lo0, hi0;
    var i := 0;
    while i < |meta|
      invariant 0 <= i <= |meta|
      invariant Range(lo, hi) == IntRange(meta[..i], Range(lo0, hi0))
    {
      var item := meta[i];
      assert meta[..i + 1][..i] == meta[..i];
      if item.ge.Some? {
        lo := item.ge.value;
        hi := if hi < lo then lo else hi;
      }
      if item.gt.Some? {
        lo := item.gt.value + 1;
        hi := if hi < lo then lo else hi;
      }
      if item.le.Some? {
        hi := item.le.value;
        lo := if hi < lo then hi else lo;
      }
      if item.lt.Some? {
        hi := item.lt.value - 1;
        lo := if hi < lo then hi else lo;
      }
      i := i + 1;
    }
    assert meta[..i] == meta;
  }

  /** The loop leaves the spin box with `minimum <= maximum`, whatever the metadata asks for. */
  lemma {:induction false} IntRangeOrdered(meta: seq<MetaItem<int>>, r0: Range<int>)
    requires r0.minimum <= r0.maximum
    ensures IntRange(meta, r0).minimum <= IntRange(meta, r0).maximum
    decreases |meta|
  {
    if meta != [] {
      IntRangeOrdered(meta[..|meta| - 1], r0);
    }
  }

  /**
   * When no minimum asked for lies above a maximum asked for, Qt never
   * moves the other bound: the range is the last minimum and the last
   * maximum requested.
   */
  lemma IntRangeAsRequested(meta: seq<MetaItem<int>>, r0: Range<int>)
    requires IntRequestsAgree(meta, r0)
    ensures IntRange(meta, r0) == Range(LastRequest(IntLowers(meta), r0.minimum), LastRequest(IntUppers(meta), r0.maximum))
  {
    IntRangeRequested(meta, r0);
  }

  lemma {:induction false} IntRangeRequested(meta: seq<MetaItem<int>>, r0: Range<int>)
    requires IntRequestsAgree(meta, r0)
    ensures IntRange(meta, r0) == Range(LastRequest(IntLowers(meta), r0.minimum), LastRequest(IntUppers(meta), r0.maximum))
    ensures IntRange(meta, r0).minimum in IntLows(meta, r0.minimum)
    ensures IntRange(meta, r0).maximum in IntHighs(meta, r0.maximum)
    decreases |meta|
  {
    if meta != [] {
      var n := |meta| - 1;
      var init := meta[..n];
      var item := meta[n];
      assert forall k :: 0 <= k < n ==> init[k] == meta[k];
      assert IntLows(init, r0.minimum) <= IntLows(meta, r0.minimum);
      assert IntHighs(init, r0.maximum) <= IntHighs(meta, r0.maximum);
      IntRangeRequested(init, r0);
      assert IntLowers(meta)[..n] == IntLowers(init);
      assert IntUppers(meta)[..n] == IntUppers(init);
      IntItemRequested(item, IntRange(init, r0), IntLows(meta, r0.minimum), IntHighs(meta, r0.maximum));
    }
  }

  /** One item whose requests agree with each other and with the current range moves only the bounds it asks for. */
  lemma IntItemRequested(item: MetaItem<int>, r: Range<int>, lows: set<int>, highs: set<int>)
    requires forall l, u :: l in lows && u in highs ==> l <= u
    requires r.minimum in lows && r.maximum in highs
    requires item.ge.Some? ==> item.ge.value in lows
    requires item.gt.Some? ==> item.gt.value + 1 in lows
    requires item.le.Some? ==> item.le.value in highs
    requires item.lt.Some? ==> item.lt.value - 1 in highs
    ensures IntItemRange(item, r) == Range(LastRequest([IntLower(item)], r.minimum), LastRequest([IntUpper(item)], r.maximum))
    ensures IntItemRange(item, r).minimum in lows && IntItemRange(item, r).maximum in highs
  {
    assert [IntLower(item)][..0] == [] && [IntUpper(item)][..0] == [];
  }

  /**
   * A single integer bound: `ge` and `le` as given, `gt` one up and `lt`
   * one down; a minimum above the maximum (such as `ge=150` on the default
   * range 0 to 99) drags the maximum with it, and the other way round.
   */
  lemma SingleIntBound(n: int, r0: Range<int>)
    ensures IntRange([MetaItem(Some(n), None, None, None)], r0) == Range(n, if n > r0.maximum then n else r0.maximum)
    ensures IntRange([MetaItem(None, Some(n), None, None)], r0) == Range(n + 1, if n + 1 > r0.maximum then n + 1 else r0.maximum)
    ensures IntRange([MetaItem(None, None, Some(n), None)], r0) == Range(if n < r0.minimum then n else r0.minimum, n)
    ensures IntRange([MetaItem(None, None, None, Some(n))], r0) == Range(if n - 1 < r0.minimum then n - 1 else r0.minimum, n - 1)
    ensures n + 1 <= r0.maximum ==> IntRange([MetaItem(Some(n), Some(n), None, None)], r0).maximum == r0.maximum
  {
    IntRangeOne(MetaItem(Some(n), None, None, None), r0);
    IntRangeOne(MetaItem(None, Some(n), None, None), r0);
    IntRangeOne(MetaItem(None, None, Some(n), None), r0);
    IntRangeOne(MetaItem(None, None, None, Some(n)), r0);
    if n + 1 <= r0.maximum {
      var both := MetaItem(Some(n), Some(n), None, None);
      IntRangeOne(both, r0);
      assert IntItemRange(both, r0) == IntSetMinimum(IntSetMinimum(r0, n), n + 1);
    }
  }

  lemma IntRangeOne(item: MetaItem<int>, r0: Range<int>)
    ensures IntRange([item], r0) == IntItemRange(item, r0)
  {
    assert [item][..0] == [];
  }

  /** `QDoubleSpinBox.setMinimum`, apart from rounding: a new minimum above the maximum raises the maximum to it. */
  function RealSetMinimum(r: Range<real>, n: real): Range<real>
  {
    Range(n, if r.maximum < n then n else r.maximum)
  }

  /** `QDoubleSpinBox.setMaximum`, apart from rounding: a new maximum below the minimum lowers the minimum to it. */
  function RealSetMaximum(r: Range<real>, n: real): Range<real>
  {
    Range(if n < r.minimum then n else r.minimum, n)
  }

  /** One float metadata item's calls, in the order the loop makes them: `ge`, `gt`, `le`, `lt`, unchanged. */
  function RealItemRange(item: MetaItem<real>, r: Range<real>): Range<real>
  {
    var r1 := if item.ge.Some? then RealSetMinimum(r, item.ge.value) else r;
    var r2 := if item.gt.Some? then RealSetMinimum(r1, item.gt.value) else r1;
    var r3 := if item.le.Some? then RealSetMaximum(r2, item.le.value) else r2;
    if item.lt.Some? then RealSetMaximum(r3, item.lt.value) else r3
  }

  /** The float spin box's range after the metadata loop, from the range `r0`. */
  function RealRange(meta: seq<MetaItem<real>>, r0: Range<real>): Range<real>
  {
    if meta == [] then r0 else RealItemRange(meta[|meta| - 1], RealRange(meta[..|meta| - 1], r0))
  }

  /** The minimums the loop asks a float spin box for, and the initial one. */
  function RealLows(meta: seq<MetaItem<real>>, lo0: real): set<real>
  {
    {lo0}
    + (set k | 0 <= k < |meta| && meta[k].ge.Some? :: meta[k].ge.value)
    + (set k | 0 <= k < |meta| && meta[k].gt.Some? :: meta[k].gt.value)
  }

  /** The maximums the loop asks a float spin box for, and the initial one. */
  function RealHighs(meta: seq<MetaItem<real>>, hi0: real): set<real>
  {
    {hi0}
    + (set k | 0 <= k < |meta| && meta[k].le.Some? :: meta[k].le.value)
    + (set k | 0 <= k < |meta| && meta[k].lt.Some? :: meta[k].lt.value)
  }

  predicate RealRequestsAgree(meta: seq<MetaItem<real>>, r0: Range<real>)
  {
    forall l, u :: l in RealLows(meta, r0.minimum) && u in RealHighs(meta, r0.maximum) ==> l <= u
  }

  /** The float loop leaves the spin box with `minimum <= maximum`, whatever the metadata asks for. */
  lemma {:induction false} RealRangeOrdered(meta: seq<MetaItem<real>>, r0: Range<real>)
    requires r0.minimum <= r0.maximum
    ensures RealRange(meta, r0).minimum <= RealRange(meta, r0).maximum
    decreases |meta|
  {
    if meta != [] {
      RealRangeOrdered(meta[..|meta| - 1], r0);
    }
  }

  /** When the float requests agree, the range is the last `ge`/`gt` and the last `le`/`lt` requested. */
  lemma RealRangeAsRequested(meta: seq<MetaItem<real>>, r0: Range<real>)
    requires RealRequestsAgree(meta, r0)
    ensures RealRange(meta, r0) == Range(LastRequest(FloatLowers(meta), r0.minimum), LastRequest(FloatUppers(meta), r0.maximum))
  {
    RealRangeRequested(meta, r0);
  }

  lemma {:induction false} RealRangeRequested(meta: seq<MetaItem<real>>, r0: Range<real>)
    requires RealRequestsAgree(meta, r0)
    ensures RealRange(meta, r0) == Range(LastRequest(FloatLowers(meta), r0.minimum), LastRequest(FloatUppers(meta), r0.maximum))
    ensures RealRange(meta, r0).minimum in RealLows(meta, r0.minimum)
    ensures RealRange(meta, r0).maximum in RealHighs(meta, r0.maximum)
    decreases |meta|
  {
    if meta != [] {
      var n := |meta| - 1;
      var init := meta[..n];
      var item := meta[n];
      assert forall k :: 0 <= k < n ==> init[k] == meta[k];
      assert RealLows(init, r0.minimum) <= RealLows(meta, r0.minimum);
      assert RealHighs(init, r0.maximum) <= RealHighs(meta, r0.maximum);
      RealRangeRequested(init, r0);
      assert FloatLowers(meta)[..n] == FloatLowers(init);
      assert FloatUppers(meta)[..n] == FloatUppers(init);
      RealItemRequested(item, RealRange(init, r0), RealLows(meta, r0.minimum), RealHighs(meta, r0.maximum));
    }
  }

  lemma RealItemRequested(item: MetaItem<real>, r: Range<real>, lows: set<real>, highs: set<real>)
    requires forall l, u :: l in lows && u in highs ==> l <= u
    requires r.minimum in lows && r.maximum in highs
    requires item.ge.Some? ==> item.ge.value in lows
    requires item.gt.Some? ==> item.gt.value in lows
    requires item.le.Some? ==> item.le.value in highs
    requires item.lt.Some? ==> item.lt.value in highs
    ensures RealItemRange(item, r) == Range(LastRequest([FloatLower(item)], r.minimum), LastRequest([FloatUpper(item)], r.maximum))
    ensures RealItemRange(item, r).minimum in lows && RealItemRange(item, r).maximum in highs
  {
    assert [FloatLower(item)][..0] == [] && [FloatUpper(item)][..0] == [];
  }

  // ---------------------------------------------------------------------------
  // Typed text and decimals
  // ---------------------------------------------------------------------------

  /** `QValidator.State`. */
  datatype ValidatorState = Invalid | Intermediate | Acceptable

  /** What `validate` returns: the state, the text and the cursor position. */
  datatype Verdict = Verdict(state: ValidatorState, text: string, pos: int)

  /** `s.split(c)[-1]`: the text after the last `c`, or all of `s` when it has none. */
  function LastPiece(s: string, c: char): (r: string)
    ensures c !in r && |r| <= |s| && r == s[|s| - |r|..]
    ensures c in s ==> |r| < |s| && s[|s| - |r| - 1] == c
    ensures c !in s ==> r == s
  {
    var i := LastIndexOf(s, c);
    if i < 0 then
      assert forall j :: 0 <= j < |s| ==> s[j] != c;
      s
    else s[i + 1..]
  }

  /** `LastPiece` of a text ending in `c` and a piece without `c` is that piece. */
  lemma LastPieceOfJoin(prefix: string, c: char, piece: string)
    requires c !in piece
    ensures LastPiece(prefix + [c] + piece, c) == piece
  {
    var s := prefix + [c] + piece;
    var r := LastPiece(s, c);
    assert s[|prefix|] == c;
    assert s[|s| - |piece|..] == piece;
  }

  /** How `validate` treats a text: it settles the state and decimals itself, or defers to Qt. */
  datatype Handling = Handled(state: ValidatorState, decimals: int) | Deferred

  /**
   * Text with an `e` sets the decimals to minus the integer after the last
   * `e` (and is only intermediate while that is not an integer); text with
   * a `.` whose fractional part has another length than the current
   * decimals sets the decimals to that length; anything else goes to Qt.
   */
  function Handle(decimals: int, input: string): Handling
  {
    if 'e' in input then
      match ParseInt(LastPiece(input, 'e'))
      case Some(n) => Handled(Acceptable, -n)
      case None => Handled(Intermediate, decimals)
    else if '.' in input && |LastPiece(input, '.')| != decimals then Handled(Acceptable, |LastPiece(input, '.')|)
    else Deferred
  }

  /** The decimals after `validate`: unchanged when the text is deferred to Qt. */
  function DecimalsAfter(decimals: int, input: string): int
  {
    match Handle(decimals, input)
    case Handled(_, d) => d
    case Deferred => decimals
  }

  /**
   * A number written with a negative exponent, `m e-k`, is acceptable and
   * shows `k` decimals; with a positive exponent `m e k` it asks for `-k`.
   */
  lemma ExponentSetsDecimals(decimals: int, mantissa: string, k: nat)
    ensures Handle(decimals, mantissa + "e-" + NatToString(k)) == Handled(Acceptable, k)
    ensures Handle(decimals, mantissa + "e" + NatToString(k)) == Handled(Acceptable, -(k as int))
  {
    var digits := NatToString(k);
    DigitsWithoutE(k);
    ParseIntRoundTrip(k);
    NegativeExponent(decimals, mantissa, digits, k);
    ExponentHandled(decimals, mantissa, digits, k);
  }

  lemma DigitsWithoutE(k: nat)
    ensures 'e' !in NatToString(k) && '-' !in NatToString(k)
  {
    var digits := NatToString(k);
    forall j | 0 <= j < |digits|
      ensures digits[j] != 'e' && digits[j] != '-'
    {
      assert IsDigit(digits[j]);
    }
  }

  lemma NegativeExponent(decimals: int, mantissa: string, digits: string, k: int)
    requires 'e' !in digits && ParseInt("-" + digits) == Some(-k)
    ensures Handle(decimals, mantissa + "e-" + digits) == Handled(Acceptable, k)
  {
    assert "-" + digits == ['-'] + digits;
    ExponentHandled(decimals, mantissa, "-" + digits, -k);
    assert mantissa + "e-" + digits == mantissa + "e" + ("-" + digits);
  }

  /** Text whose last `e` is followed by an integer `n` asks for `-n` decimals. */
  lemma ExponentHandled(decimals: int, mantissa: string, exponent: string, n: int)
    requires 'e' !in exponent && ParseInt(exponent) == Some(n)
    ensures Handle(decimals, mantissa + "e" + exponent) == Handled(Acceptable, -n)
  {
    assert mantissa + "e" + exponent == mantissa + ['e'] + exponent;
    LastPieceOfJoin(mantissa, 'e', exponent);
    assert (mantissa + "e" + exponent)[|mantissa|] == 'e';
  }

  /** While the exponent is still being typed (`m e` or `m e-`), the text is intermediate and the decimals stay. */
  lemma UnfinishedExponent(decimals: int, mantissa: string)
    ensures Handle(decimals, mantissa + "e") == Handled(Intermediate, decimals)
    ensures Handle(decimals, mantissa + "e-") == Handled(Intermediate, decimals)
  {
    assert mantissa + "e" == mantissa + ['e'] + [];
    LastPieceOfJoin(mantissa, 'e', []);
    assert mantissa + "e-" == mantissa + ['e'] + "-";
    LastPieceOfJoin(mantissa, 'e', "-");
  }

  /**
   * A decimal number `w.f` without an exponent leaves the spin box showing
   * `|f|` decimals: it is acceptable when that changes the decimals, and
   * deferred to Qt when they already match.
   */
  lemma FractionSetsDecimals(decimals: int, whole: string, fraction: string)
    requires 'e' !in whole && 'e' !in fraction && '.' !in fraction
    ensures DecimalsAfter(decimals, whole + "." + fraction) == |fraction|
    ensures Handle(decimals, whole + "." + fraction).Handled? <==> |fraction| != decimals
    ensures Handle(decimals, whole + "." + fraction).Handled? ==> Handle(decimals, whole + "." + fraction).state == Acceptable
  {
    var s := whole + "." + fraction;
    assert s == whole + ['.'] + fraction;
    assert s[|whole|] == '.';
    LastPieceOfJoin(whole, '.', fraction);
    assert 'e' !in s by {
      forall j | 0 <= j < |s|
        ensures s[j] != 'e'
      {
        if j < |whole| {
          assert s[j] == whole[j];
        } else if j > |whole| {
          assert s[j] == fraction[j - |whole| - 1];
        }
      }
    }
  }

  /** Text with neither `e` nor `.` is always deferred to Qt. */
  lemma PlainTextDeferred(decimals: int, input: string)
    requires 'e' !in input && '.' !in input
    ensures Handle(decimals, input) == Deferred
  {
  }

  /** `AdaptiveDoubleSpinBox`: a `QDoubleSpinBox` whose decimals follow the typed text. */
  class AdaptiveDoubleSpinBox {
    var decimals: int
    var minimum: real
    var maximum: real

    /** Qt's defaults: two decimals and the range 0 to 99.99. */
    constructor()
      ensures decimals == 2 && minimum == 0.0 && maximum == 99.99
    {
      decimals, minimum, maximum := 2, 0.0, 99.99;
    }

    /**
     * `validate`: a handled text is returned with its cursor position as
     * given and the decimals updated; deferred text gets Qt's own verdict
     * `deferred` and leaves the decimals alone.
     */
    method Validate(input: string, pos: int, deferred: Verdict) returns (r: Verdict)
      modifies this
      ensures decimals == DecimalsAfter(old(decimals), input)
      ensures minimum == old(minimum) && maximum == old(maximum)
      ensures Handle(old(decimals), input).Handled? ==> r == Verdict(Handle(old(decimals), input).state, input, pos)
      ensures Handle(old(decimals), input).Deferred? ==> r == deferred
    {
      if 'e' in input {
        var n := ParseInt(LastPiece(input, 'e'));
        if n.Some? {
          decimals := -n.value;
          return Verdict(Acceptable, input, pos);
        }
        return Verdict(Intermediate, input, pos);
      }
      var fraction := LastPiece(input, '.');
      if '.' in input && |fraction| != decimals {
        decimals := |fraction|;
        return Verdict(Acceptable, input, pos);
      }
      return deferred;
    }

    /**
     * The float metadata loop: every `ge`/`gt` sets the minimum and every
     * `le`/`lt` the maximum, unchanged, and Qt moves the other bound when
     * they would cross.
     */
    method ApplyMetadata(meta: seq<MetaItem<real>>)
      modifies this
      ensures Range(minimum, maximum) == RealRange(meta, old(Range(minimum, maximum)))
      ensures decimals == old(decimals)
    {
      var lo, hi := minimum, maximum;
      var i := 0;
      while i < |meta|
        invariant 0 <= i <= |meta|
        invariant Range(lo, hi) == RealRange(meta[..i], Range(minimum, maximum))
      {
        var item := meta[i];
        assert meta[..i + 1][..i] == meta[..i];
        if item.ge.Some? {
          lo := item.ge.value;
          hi := if hi < lo then lo else hi;
        }
        if item.gt.Some? {
          lo := item.gt.value;
          hi := if hi < lo then lo else hi;
        }
        if item.le.Some? {
          hi := item.le.value;
          lo := if hi < lo then hi else lo;
        }
        if item.lt.Some? {
          hi := item.lt.value;
          lo := if hi < lo then hi else lo;
        }
        i := i + 1;
      }
      assert meta[..i] == meta;
      minimum, maximum := lo, hi;
    }
  }

  // ---------------------------------------------------------------------------
  // Editors
  // ---------------------------------------------------------------------------

  /**
   * A field's annotation: an enum (with its values' strings), `int`,
   * `float`, `bool`, or anything else. A float field records the decimals
   * its positive default asks for, `-floor(log10(default))`.
   */
  datatype Annotation =
    | EnumAnnotation(values: seq<string>)
    | IntAnnotation(intMeta: seq<MetaItem<int>>)
    | FloatAnnotation(floatMeta: seq<MetaItem<real>>, defaultDecimals: Option<int>)
    | BoolAnnotation
    | OtherAnnotation

  /** The editor inside a `ValidatedInputWidget`. */
  datatype Editor =
    | ComboBox(items: seq<string>)
    | SpinBox(minimum: int, maximum: int)
    | DoubleSpinBox(box: AdaptiveDoubleSpinBox)
    | CheckBox
    | LineEdit

  /** `ValidatedInputWidget`: the editor for a pydantic field. */
  class ValidatedInputWidget {
    var editor: Editor

    /**
     * An enum gets a combo box of its values (checked first, so an enum of
     * integers is still a combo box); `int` a spin box whose range comes
     * from the metadata; `float` an adaptive spin box with the metadata's
     * range and the decimals of its default; `bool` a check box; any other
     * type a line edit.
     */
    constructor(annotation: Annotation)
      ensures annotation.EnumAnnotation? ==> editor == ComboBox(annotation.values)
      ensures annotation.IntAnnotation? ==>
        var r := IntRange(annotation.intMeta, Range(SpinBoxMinimum, SpinBoxMaximum));
        editor == SpinBox(r.minimum, r.maximum)
      ensures annotation.FloatAnnotation? ==> editor.DoubleSpinBox? && fresh(editor.box)
      ensures annotation.FloatAnnotation? ==>
        Range(editor.box.minimum, editor.box.maximum) == RealRange(annotation.floatMeta, Range(0.0, 99.99))
      ensures annotation.FloatAnnotation? ==> editor.box.decimals == annotation.defaultDecimals.GetOr(2)
      ensures annotation.BoolAnnotation? ==> editor == CheckBox
      ensures annotation.OtherAnnotation? ==> editor == LineEdit
    {
      match annotation
      case EnumAnnotation(values) =>
        editor := ComboBox(values);
      case IntAnnotation(meta) =>
        var lo, hi := SpinBoxRange(meta, SpinBoxMinimum, SpinBoxMaximum);
        editor := SpinBox(lo, hi);
      case FloatAnnotation(meta, defaultDecimals) =>
        var box := new AdaptiveDoubleSpinBox();
        box.ApplyMetadata(meta);
        if defaultDecimals.Some? {
          box.decimals := defaultDecimals.value;
        }
        editor := DoubleSpinBox(box);
      case BoolAnnotation =>
        editor := CheckBox;
      case OtherAnnotation =>
        editor := LineEdit;
    }
  }
}
