/** pi_encryption.py: a key of `length` characters, each drawn from the
    decimal expansion of pi with the leading "3." removed, with a shrinking
    pause before every draw.

    The text of pi is a parameter (mpmath's 1000-digit rendering is not
    modelled). Each draw is the index `random.choice` would pick, so the
    random source is an input sequence. */
module PiKey {
  import opened Outcomes

  /** `s[2:]`: everything after the first two characters; empty when there
      are fewer than two. */
  function PiDigits(piText: string): (d: string)
    ensures |piText| >= 2 ==> |d| == |piText| - 2 && piText == piText[..2] + d
    ensures |piText| < 2 ==> d == []
  {
    if |piText| >= 2 then piText[2..] else []
  }

  /** Stripping undoes prefixing "3.". */
  lemma PiDigitsRoundTrip(digits: string)
    ensures PiDigits("3." + digits) == digits
  {
  }

  /** `range(length)` runs zero times for a negative length. */
  function Iterations(length: int): (n: nat)
    ensures length >= 0 ==> n == length
    ensures length < 0 ==> n == 0
  {
    if length > 0 then length else 0
  }

  /** `0.3 - i * 0.015`, in exact arithmetic. */
  function Delay(i: nat): real {
    3.0 / 10.0 - (i as real) * (15.0 / 1000.0)
  }

  /** The pause is non-negative up to the 21st draw and negative from the
      22nd on (i = 21, 22, ...). */
  lemma DelaySign(i: nat)
    ensures Delay(i) >= 0.0 <==> i <= 20
    ensures Delay(i) > 0.0 <==> i < 20
  {
  }

  /** For the default length 16 every pause is positive, the last one being
      the shortest at 0.075. */
  lemma DefaultDelaysPositive()
    ensures forall i: nat :: i < 16 ==> Delay(i) >= Delay(15) > 0.0
    ensures Delay(15) == 75.0 / 1000.0
  {
  }

  /** Draws fit the digit string (checked only when there is something to
      draw from: `random.choice` fails before drawing otherwise). */
  ghost predicate DrawsFit(draws: seq<nat>, digits: string) {
    |digits| > 0 ==> forall i :: 0 <= i < |draws| ==> draws[i] < |digits|
  }

  /** The key the draws select: one character of `digits` per draw. */
  function Selected(digits: string, draws: seq<nat>): (key: string)
    requires |digits| > 0 && DrawsFit(draws, digits)
    ensures |key| == |draws|
    ensures forall i :: 0 <= i < |key| ==> key[i] in digits
  {
    seq(|draws|, i requires 0 <= i < |draws| => digits[draws[i]])
  }

  /** Selection extends the previous key by one character per draw. */
  lemma SelectedExtends(digits: string, draws: seq<nat>, i: nat)
    requires |digits| > 0 && DrawsFit(draws, digits) && i < |draws|
    ensures Selected(digits, draws[..i + 1]) == Selected(digits, draws[..i]) + [digits[draws[i]]]
  {
  }

  /** Keys drawn from decimal digits consist of decimal digits. */
  lemma SelectedKeepsDigits(digits: string, draws: seq<nat>)
    requires |digits| > 0 && DrawsFit(draws, digits)
    requires forall i :: 0 <= i < |digits| ==> '0' <= digits[i] <= '9'
    ensures forall i :: 0 <= i < |draws| ==> '0' <= Selected(digits, draws)[i] <= '9'
  {
  }

  /** `generate_pi_key(length)` as written: pause, then draw, per character.
      It fails on an empty digit string at the first draw, and on a
      negative pause from the 22nd character on. The key it would print is
      the result. */
  method GenerateKey(digits: string, length: int, draws: seq<nat>) returns (r: Result<string>)
    requires |draws| == Iterations(length)
    requires DrawsFit(draws, digits)
    ensures r.Ok? <==> length <= 0 || (|digits| > 0 && length <= 21)
    ensures r.Err? ==> r.error == (if |digits| == 0 then EmptySequence else NegativeSleepLength)
    ensures r.Ok? && |digits| > 0 ==> r.value == Selected(digits, draws)
    ensures r.Ok? ==> |r.value| == Iterations(length)
  {
    var key := "";
    var i := 0;
    while i < Iterations(length)
      invariant 0 <= i <= Iterations(length)
      invariant i <= 21
      invariant i > 0 ==> |digits| > 0
      invariant |digits| > 0 ==> key == Selected(digits, draws[..i])
      invariant |key| == i
    {
      DelaySign(i);
      if Delay(i) < 0.0 {
        return Err(NegativeSleepLength);
      }
      if |digits| == 0 {
        return Err(EmptySequence);
      }
      SelectedExtends(digits, draws, i);
      key := key + [digits[draws[i]]];
      i := i + 1;
    }
    assert draws[..i] == draws;
    return Ok(key);
  }

  /** The pause as evidently intended: shrinking, but never below zero. */
  function ClampedDelay(i: nat): (d: real)
    ensures d >= 0.0
    ensures Delay(i) >= 0.0 ==> d == Delay(i)
  {
    if Delay(i) < 0.0 then 0.0 else Delay(i)
  }

  /** `generate_pi_key` with the clamped pause: the pause can no longer
      fail, so any length succeeds when there are digits to draw from. */
  method GenerateKeyClamped(digits: string, length: int, draws: seq<nat>) returns (r: Result<string>)
    requires |draws| == Iterations(length)
    requires DrawsFit(draws, digits)
    ensures r.Ok? <==> length <= 0 || |digits| > 0
    ensures r.Err? ==> r.error == EmptySequence
    ensures r.Ok? && |digits| > 0 ==> r.value == Selected(digits, draws)
    ensures r.Ok? ==> |r.value| == Iterations(length)
  {
    var key := "";
    var i := 0;
    while i < Iterations(length)
      invariant 0 <= i <= Iterations(length)
      invariant i > 0 ==> |digits| > 0
      invariant |digits| > 0 ==> key == Selected(digits, draws[..i])
      invariant |key| == i
    {
      // time.sleep rejects only negative pauses, and the clamped one is not
      if ClampedDelay(i) < 0.0 {
        return Err(NegativeSleepLength);
      }
      if |digits| == 0 {
        return Err(EmptySequence);
      }
      SelectedExtends(digits, draws, i);
      key := key + [digits[draws[i]]];
      i := i + 1;
    }
    assert draws[..i] == draws;
    return Ok(key);
  }
}
