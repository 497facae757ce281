/**
 * The identification step (steps/IdentificationStep.tsx): the DNI normaliser
 * `value.replace(/\D/g, '')`, the three-way classification of the normalised
 * value, and the length gate of the step's "Continuar" button.
 */
module Dni {
  import opened Optional

  const MinDigits := 7
  const MaxDigits := 8
  const RequiredMessage := "Por favor ingrese su DNI"
  const RangeMessage := "El DNI debe tener entre 7 y 8 dígitos"

  /** The characters the regular expression `\d` matches (no `u` flag): `'0'..'9'`. */
  predicate IsDigit(c: char) {
    '0' <= c <= '9'
  }

  predicate AllDigits(s: string) {
    forall i :: 0 <= i < |s| ==> IsDigit(s[i])
  }

  /** `s.replace(/\D/g, '')`: every character outside `'0'..'9'` removed. */
  function StripNonDigits(s: string): (r: string)
    ensures AllDigits(r)
    ensures |r| <= |s|
  {
    if s == [] then []
    else if IsDigit(s[0]) then [s[0]] + StripNonDigits(s[1..])
    else StripNonDigits(s[1..])
  }

  /** A string that is already all digits comes back unchanged. */
  lemma {:induction false} StripDigitsUnchanged(s: string)
    requires AllDigits(s)
    ensures StripNonDigits(s) == s
  {
    if s != [] {
      assert IsDigit(s[0]);
      assert AllDigits(s[1..]) by {
        forall i | 0 <= i < |s[1..]| ensures IsDigit(s[1..][i]) {
          assert s[1..][i] == s[i + 1];
        }
      }
      StripDigitsUnchanged(s[1..]);
      assert s == [s[0]] + s[1..];
    }
  }

  /** Normalising is idempotent. */
  lemma StripIdempotent(s: string)
    ensures StripNonDigits(StripNonDigits(s)) == StripNonDigits(s)
  {
    StripDigitsUnchanged(StripNonDigits(s));
  }

  /** A string is a fixed point of the normaliser exactly when it is all digits. */
  lemma StripFixedPointIffDigits(s: string)
    ensures StripNonDigits(s) == s <==> AllDigits(s)
  {
    if AllDigits(s) {
      StripDigitsUnchanged(s);
    }
  }

  /**
   * Normalising works character by character and keeps the order: a single
   * character survives exactly when it is a digit, and normalising a
   * concatenation concatenates the normalised parts.
   */
  lemma StripCharacter(c: char)
    ensures StripNonDigits([c]) == if IsDigit(c) then [c] else []
  {
    assert [c][1..] == [];
  }

  lemma {:induction false} StripAppend(a: string, b: string)
    ensures StripNonDigits(a + b) == StripNonDigits(a) + StripNonDigits(b)
  {
    if a == [] {
      assert a + b == b;
    } else {
      assert (a + b)[0] == a[0];
      assert (a + b)[1..] == a[1..] + b;
      StripAppend(a[1..], b);
    }
  }

  /** Normalising never loses a digit: it keeps as many of each digit as the input has. */
  lemma {:induction false} StripKeepsEveryDigit(s: string, d: char)
    requires IsDigit(d)
    ensures multiset(StripNonDigits(s))[d] == multiset(s)[d]
  {
    if s != [] {
      StripKeepsEveryDigit(s[1..], d);
      assert s == [s[0]] + s[1..];
      assert multiset(s) == multiset([s[0]]) + multiset(s[1..]);
      if IsDigit(s[0]) {
        assert multiset(StripNonDigits(s)) == multiset([s[0]]) + multiset(StripNonDigits(s[1..]));
      }
    }
  }

  /** The three outcomes of `validateDni` for a normalised value. */
  datatype DniCheck = Missing | OutOfRange | Accepted

  function Classify(normalized: string): DniCheck {
    if |normalized| == 0 then Missing
    else if |normalized| < MinDigits || |normalized| > MaxDigits then OutOfRange
    else Accepted
  }

  /** The `error` state each outcome stores (`None` for `null`). */
  function ErrorMessage(c: DniCheck): Option<string> {
    match c
    case Missing => Some(RequiredMessage)
    case OutOfRange => Some(RangeMessage)
    case Accepted => None
  }

  /** The error `validateDni(raw)` stores. */
  function ValidationError(raw: string): Option<string> {
    ErrorMessage(Classify(StripNonDigits(raw)))
  }

  /**
   * A string's `length` in JavaScript: the number of UTF-16 code units, two for
   * each character outside the Basic Multilingual Plane.
   */
  function Utf16Length(s: string): (n: nat)
    ensures |s| <= n <= 2 * |s|
  {
    if s == [] then 0
    else (if s[0] as int > 0xFFFF then 2 else 1) + Utf16Length(s[1..])
  }

  /** For a digits-only string the JavaScript length is the number of characters. */
  lemma {:induction false} DigitsUtf16Length(s: string)
    requires AllDigits(s)
    ensures Utf16Length(s) == |s|
  {
    if s != [] {
      assert IsDigit(s[0]);
      assert AllDigits(s[1..]) by {
        forall i | 0 <= i < |s[1..]| ensures IsDigit(s[1..][i]) {
          assert s[1..][i] == s[i + 1];
        }
      }
      DigitsUtf16Length(s[1..]);
    }
  }

  /** The condition under which `handleNext` calls `onNext`: `dni.length` of the held value, not re-normalised. */
  predicate AdvanceGate(dni: string) {
    Utf16Length(dni) >= MinDigits && Utf16Length(dni) <= MaxDigits
  }

  /** The three error outcomes of `validateDni`, each as an if-and-only-if on the normalised length. */
  lemma ValidationOutcomes(raw: string)
    ensures ValidationError(raw) == Some(RequiredMessage) <==> |StripNonDigits(raw)| == 0
    ensures ValidationError(raw) == Some(RangeMessage) <==>
              |StripNonDigits(raw)| != 0 && (|StripNonDigits(raw)| < 7 || |StripNonDigits(raw)| > 8)
    ensures ValidationError(raw) == None <==> 7 <= |StripNonDigits(raw)| <= 8
  {
    assert |RequiredMessage| != |RangeMessage|;
  }

  /** For a held value that is digits only, the gate advances exactly when the validator clears the error. */
  lemma GateAgreesWithValidator(dni: string)
    requires AllDigits(dni)
    ensures AdvanceGate(dni) <==> ValidationError(dni) == None
  {
    StripDigitsUnchanged(dni);
    DigitsUtf16Length(dni);
  }

  /**
   * The gate counts UTF-16 code units: seven digits followed by one emoji have
   * JavaScript length 9, so the gate stays shut although the value has eight characters.
   */
  lemma GateCountsCodeUnits()
    ensures |"1234567\U{1F600}"| == 8
    ensures Utf16Length("1234567\U{1F600}") == 9
    ensures !AdvanceGate("1234567\U{1F600}")
  {
  }

  /**
   * The gate looks at the held length, not the normalised one: a held value with
   * a non-digit would advance while the validator shows the range error.
   */
  lemma GateIgnoresNonDigits()
    ensures AdvanceGate("123456a")
    ensures ValidationError("123456a") == Some(RangeMessage)
  {
    StripAppend("123456", "a");
    assert "123456" + "a" == "123456a";
    StripDigitsUnchanged("123456");
    StripCharacter('a');
  }

  /** Empty input gives the required-value error. */
  lemma EmptyIsMissing()
    ensures ValidationError("") == Some(RequiredMessage)
  {
  }

  /** Six digits are one short of the range. */
  lemma SixDigitsOutOfRange()
    ensures ValidationError("123456") == Some(RangeMessage)
  {
    StripDigitsUnchanged("123456");
  }

  /** Eight digits are accepted. */
  lemma EightDigitsAccepted()
    ensures ValidationError("12345678") == None
  {
    StripDigitsUnchanged("12345678");
  }

  /** Nine digits are one over the range. */
  lemma NineDigitsOutOfRange()
    ensures ValidationError("123456789") == Some(RangeMessage)
  {
    StripDigitsUnchanged("123456789");
  }

  /** The DNI "40111222" passes both the validator and the gate. */
  lemma SampleDniAdvances()
    ensures ValidationError("40111222") == None && AdvanceGate("40111222")
  {
    StripDigitsUnchanged("40111222");
    DigitsUtf16Length("40111222");
  }

  /**
   * The identification step component: the `dni` prop it was rendered with and
   * its own `error` state. The two callbacks it calls are returned: the value
   * passed to `onDniChange`, and whether `onNext` is called.
   */
  class IdentificationStep {
    const dni: string
    var error: Option<string>

    constructor (dni: string)
      ensures this.dni == dni && error == None
    {
      this.dni := dni;
      error := None;
    }

    /** `validateDni(value)`: hands the normalised value to `onDniChange` and sets `error`. */
    method ValidateDni(value: string) returns (changed: string)
      modifies this
      ensures changed == StripNonDigits(value)
      ensures error == ValidationError(value)
    {
      changed := StripNonDigits(value);
      var check := Classify(changed);
      if check == Missing {
        error := Some(RequiredMessage);
      } else if check == OutOfRange {
        error := Some(RangeMessage);
      } else {
        error := None;
      }
    }

    /** `handleNext`: validates the held value, then calls `onNext` when its JavaScript length is 7 or 8. */
    method HandleNext() returns (changed: string, callsNext: bool)
      modifies this
      ensures changed == StripNonDigits(dni)
      ensures error == ValidationError(dni)
      ensures callsNext <==> 7 <= Utf16Length(dni) <= 8
      ensures AllDigits(dni) ==> (callsNext <==> error == None)
    {
      changed := ValidateDni(dni);
      callsNext := AdvanceGate(dni);
      if AllDigits(dni) {
        GateAgreesWithValidator(dni);
      }
    }
  }
}
