/** What the two path simulators (`plot.py` and `app/utils/monte.py`) have in
    common: the error cases, matching the option name, the payoff at expiry
    and the price reached by compounding one multiplier per step. */
module Pricing {

  /** The exceptions the modelled code can raise. */
  datatype Error =
    | InvalidOptionType   // ValueError("Invalid option type. Choose 'call' or 'put'.")
    | ZeroDivision        // `T / steps` with `steps == 0`
    | MathDomain          // `math.sqrt(delta_time)` with `delta_time < 0`: ValueError("math domain error")
    | ZeroRangeStep       // `range(0, simulations, 0)`: ValueError, arg 3 must not be zero

  datatype Result<T> = Ok(value: T) | Err(error: Error)

  datatype Option<T> = None | Some(value: T)

  datatype OptionKind = Call | Put

  /** `str.lower()` on one character, for the ASCII letters. */
  function LowerChar(c: char): char
  {
    if 'A' <= c <= 'Z' then (c as int - 'A' as int + 'a' as int) as char else c
  }

  /** `str.lower()`: folds every ASCII capital and keeps every other character. */
  function Lower(s: string): (r: string)
    ensures |r| == |s|
    ensures forall i :: 0 <= i < |s| ==> !('A' <= r[i] <= 'Z')
    ensures forall i :: 0 <= i < |s| ==> r[i] == s[i] || (('A' <= s[i] <= 'Z') && r[i] as int == s[i] as int + 32)
  {
    seq(|s|, i requires 0 <= i < |s| => LowerChar(s[i]))
  }

  /** `if option_type.lower() == "call": ... elif option_type.lower() == "put": ...`;
      `None` stands for the `else: raise ValueError(...)` branch. */
  function ParseOption(name: string): Option<OptionKind>
  {
    var lowered := Lower(name);
    if lowered == "call" then Some(Call)
    else if lowered == "put" then Some(Put)
    else None
  }

  /** The same character, or the same ASCII letter in the other case. */
  predicate SameIgnoringCase(x: char, y: char)
  {
    || x == y
    || ('A' <= x <= 'Z' && y as int == x as int + 32)
    || ('A' <= y <= 'Z' && x as int == y as int + 32)
  }

  /** The option name is matched case-insensitively: two names that differ
      only in the case of their letters select the same payoff rule (or both
      raise). */
  lemma {:induction false} OptionCaseInsensitive(a: string, b: string)
    requires |a| == |b|
    requires forall i :: 0 <= i < |a| ==> SameIgnoringCase(a[i], b[i])
    ensures ParseOption(a) == ParseOption(b)
  {
    forall i | 0 <= i < |a|
      ensures Lower(a)[i] == Lower(b)[i]
    {
      assert SameIgnoringCase(a[i], b[i]);
    }
    assert Lower(a) == Lower(b);
  }

  /** `c` is the small letter `small` or its capital. */
  predicate IsLetter(c: char, small: char)
  {
    c == small || c as int == small as int - 32
  }

  /** Folding gives a small letter exactly from that letter or its capital. */
  lemma LowerCharIs(c: char, small: char)
    requires 'a' <= small <= 'z'
    ensures LowerChar(c) == small <==> IsLetter(c, small)
  {
  }

  /** `Lower(s)` spells the lower-case `word` exactly when `s` spells it
      letter by letter in either case. */
  lemma {:induction false} LowerSpells(s: string, word: string)
    requires forall i :: 0 <= i < |word| ==> 'a' <= word[i] <= 'z'
    ensures Lower(s) == word <==> |s| == |word| && forall i :: 0 <= i < |s| ==> IsLetter(s[i], word[i])
  {
    if |s| == |word| {
      forall i | 0 <= i < |s|
        ensures Lower(s)[i] == word[i] <==> IsLetter(s[i], word[i])
      {
        LowerCharIs(s[i], word[i]);
      }
      if forall i :: 0 <= i < |s| ==> IsLetter(s[i], word[i]) {
        assert Lower(s) == word;
      }
    }
  }

  /** Exactly the names spelling "call" or "put", each letter in either case,
      are accepted; every other name makes `ParseOption` give `None`. */
  lemma OptionAccepted(s: string)
    ensures ParseOption(s) == Some(Call) <==>
      |s| == 4 && (s[0] == 'c' || s[0] == 'C') && (s[1] == 'a' || s[1] == 'A')
               && (s[2] == 'l' || s[2] == 'L') && (s[3] == 'l' || s[3] == 'L')
    ensures ParseOption(s) == Some(Put) <==>
      |s| == 3 && (s[0] == 'p' || s[0] == 'P') && (s[1] == 'u' || s[1] == 'U') && (s[2] == 't' || s[2] == 'T')
  {
    LowerSpells(s, "call");
    LowerSpells(s, "put");
    if |s| == 4 {
      assert (forall i :: 0 <= i < 4 ==> IsLetter(s[i], "call"[i]))
         <==> IsLetter(s[0], 'c') && IsLetter(s[1], 'a') && IsLetter(s[2], 'l') && IsLetter(s[3], 'l');
    }
    if |s| == 3 {
      assert (forall i :: 0 <= i < 3 ==> IsLetter(s[i], "put"[i]))
         <==> IsLetter(s[0], 'p') && IsLetter(s[1], 'u') && IsLetter(s[2], 't');
    }
  }

  /** The default "call", and its capitalised spellings, select the call rule;
      any other word is refused. */
  lemma OptionExamples()
    ensures ParseOption("call") == Some(Call)
    ensures ParseOption("CALL") == Some(Call)
    ensures ParseOption("Put") == Some(Put)
    ensures ParseOption("straddle") == None
    ensures ParseOption("calls") == None
  {
    assert Lower("CALL") == "call";
    assert Lower("Put") == "put";
    assert Lower("straddle")[0] == 's';
  }

  /** The payoff at expiry: `max(st - strike, 0)` for a call and
      `max(strike - st, 0)` for a put. */
  function PayoffFor(kind: OptionKind, st: real, strike: real): (r: real)
    ensures r >= 0.0
    ensures kind == Call ==> r >= st - strike && (r == 0.0 || r == st - strike)
    ensures kind == Put ==> r >= strike - st && (r == 0.0 || r == strike - st)
  {
    var gain := if kind == Call then st - strike else strike - st;
    if gain > 0.0 then gain else 0.0
  }

  /** A call pays exactly when the price ends above the strike, a put exactly
      when it ends below it. */
  lemma PayoffPositiveWhen(kind: OptionKind, st: real, strike: real)
    ensures kind == Call ==> (PayoffFor(kind, st, strike) > 0.0 <==> st > strike)
    ensures kind == Put ==> (PayoffFor(kind, st, strike) > 0.0 <==> st < strike)
  {
  }

  /** The number of times `for step in range(n)` runs its body. */
  function Iterations(n: int): nat
  {
    if n < 0 then 0 else n
  }

  /** The price reached from `s0` by `st *= factor` for each factor in turn.
      A factor stands for one step's `math.exp(exponent)`. */
  function Compound(s0: real, factors: seq<real>): real
  {
    if factors == [] then s0 else Compound(s0, factors[..|factors| - 1]) * factors[|factors| - 1]
  }

  /** One more step multiplies the previous price by that step's factor. */
  lemma CompoundStep(s0: real, factors: seq<real>, i: nat)
    requires i < |factors|
    ensures Compound(s0, factors[..i + 1]) == Compound(s0, factors[..i]) * factors[i]
  {
    assert factors[..i + 1][..i] == factors[..i];
  }

  ghost predicate AllPositive(factors: seq<real>)
  {
    forall i :: 0 <= i < |factors| ==> factors[i] > 0.0
  }

  /** With a positive start price and positive multipliers (an exponential is
      always positive) every price on the path stays positive. */
  lemma {:induction false} CompoundPositive(s0: real, factors: seq<real>)
    requires s0 > 0.0
    requires AllPositive(factors)
    ensures Compound(s0, factors) > 0.0
    decreases |factors|
  {
    if factors != [] {
      var prefix := factors[..|factors| - 1];
      assert AllPositive(prefix);
      CompoundPositive(s0, prefix);
      var p, f := Compound(s0, prefix), factors[|factors| - 1];
      assert p * f > 0.0 by {
        assert p > 0.0 && f > 0.0;
      }
    }
  }

  /** `delta_time = T / steps` with positive `steps` is negative exactly when
      `T` is, so `math.sqrt(delta_time)` raises exactly for a negative `T`. */
  lemma QuotientSign(t: real, steps: int)
    requires steps > 0
    ensures t / (steps as real) < 0.0 <==> t < 0.0
  {
    var q := t / (steps as real);
    assert t == q * (steps as real);
    if q < 0.0 {
      assert q * (steps as real) < 0.0;
    } else {
      assert q * (steps as real) >= 0.0;
    }
  }
}
