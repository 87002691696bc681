/** The helpers of utils.py that carry logic: the random share code, the
    second/millisecond timestamp and the console line format. The clock,
    the random generator and the wall-clock date text are parameters. */
module Utils {

  /** Python's `string.ascii_lowercase`, `string.ascii_uppercase` and
      `string.ascii_letters`. */
  const AsciiLowercase: string := "abcdefghijklmnopqrstuvwxyz"
  const AsciiUppercase: string := "ABCDEFGHIJKLMNOPQRSTUVWXYZ"
  const AsciiLetters: string := AsciiLowercase + AsciiUppercase

  /** Python's `string.digits`. */
  const Digits: string := "0123456789"

  /** The alphabet `generate_random_code` draws from. */
  const Characters: string := AsciiLetters + Digits

  /** The default length of a generated code. */
  const DefaultCodeLength: int := 4

  predicate IsAsciiAlnum(c: char)
  {
    ('a' <= c <= 'z') || ('A' <= c <= 'Z') || ('0' <= c <= '9')
  }

  /** The character at position `k` of `Characters`, by arithmetic. */
  function AlphabetChar(k: nat): char
    requires k < 62
  {
    if k < 26 then ('a' as int + k) as char
    else if k < 52 then ('A' as int + k - 26) as char
    else ('0' as int + k - 52) as char
  }

  lemma LettersInOrder()
    ensures |AsciiLetters| == 52
    ensures forall k :: 0 <= k < 52 ==> AsciiLetters[k] == AlphabetChar(k)
  {
    forall k | 0 <= k < 26 ensures AsciiLowercase[k] == AlphabetChar(k) {
      if k == 0 {}
    }
    forall k | 0 <= k < 26 ensures AsciiUppercase[k] == AlphabetChar(26 + k) {
      if k == 0 {}
    }
    forall k | 0 <= k < 52 ensures AsciiLetters[k] == AlphabetChar(k) {
      if k < 26 {
        assert AsciiLetters[k] == AsciiLowercase[k];
      } else {
        assert AsciiLetters[k] == AsciiUppercase[k - 26];
      }
    }
  }

  lemma DigitsInOrder()
    ensures |Digits| == 10
    ensures forall k :: 0 <= k < 10 ==> Digits[k] == AlphabetChar(52 + k)
  {
    forall k | 0 <= k < 10 ensures Digits[k] == AlphabetChar(52 + k) {
      if k == 0 {}
    }
  }

  /** `Characters` lists the lower-case letters, the upper-case letters and
      the digits, each in order. */
  lemma AlphabetInOrder()
    ensures |Characters| == 62
    ensures forall k :: 0 <= k < 62 ==> Characters[k] == AlphabetChar(k)
  {
    LettersInOrder();
    DigitsInOrder();
    forall k | 0 <= k < 62 ensures Characters[k] == AlphabetChar(k) {
      if k < 52 {
        assert Characters[k] == AsciiLetters[k];
      } else {
        assert Characters[k] == Digits[k - 52];
      }
    }
  }

  /** The position of an ASCII letter or digit in `Characters`. */
  function AlphabetIndex(c: char): (k: nat)
    requires IsAsciiAlnum(c)
    ensures k < |Characters| && Characters[k] == c
  {
    AlphabetInOrder();
    if 'a' <= c <= 'z' then (c as int - 'a' as int) as nat
    else if 'A' <= c <= 'Z' then 26 + (c as int - 'A' as int) as nat
    else 52 + (c as int - '0' as int) as nat
  }

  /** The alphabet has 62 distinct characters, each an ASCII letter or digit. */
  lemma AlphabetIsAlnum()
    ensures |Characters| == 62
    ensures forall k :: 0 <= k < |Characters| ==> IsAsciiAlnum(Characters[k])
    ensures forall k :: 0 <= k < |Characters| ==> AlphabetIndex(Characters[k]) == k
  {
    AlphabetInOrder();
  }

  /** `generate_random_code(length)`: `length` characters, each chosen by
      `random.choice(characters)`. The random generator is the oracle
      `draw`: the i-th choice picks `Characters[draw(i) % 62]`. A length
      below one gives the empty code, as `range(length)` is then empty. */
  function GenerateRandomCode(length: int, draw: nat -> nat): (code: string)
    ensures |code| == if length > 0 then length else 0
    ensures forall i :: 0 <= i < |code| ==> IsAsciiAlnum(code[i])
    ensures forall i :: 0 <= i < |code| ==> code[i] == Characters[draw(i) % |Characters|]
  {
    AlphabetIsAlnum();
    seq(if length > 0 then length else 0, (i: int) requires 0 <= i => Characters[draw(i) % |Characters|])
  }

  /** Every string of ASCII letters and digits is a code the generator can
      produce: nothing in the alphabet is out of reach. */
  lemma EveryCodeReachable(code: string)
    requires forall i :: 0 <= i < |code| ==> IsAsciiAlnum(code[i])
    ensures exists draw: nat -> nat :: GenerateRandomCode(|code|, draw) == code
  {
    var draw := (i: nat) => if i < |code| then AlphabetIndex(code[i]) else 0;
    var r := GenerateRandomCode(|code|, draw);
    assert |r| == |code|;
    forall i | 0 <= i < |code| ensures r[i] == code[i] {
      var k := AlphabetIndex(code[i]);
      assert draw(i) == k;
      assert k % |Characters| == k;
    }
    assert r == code;
  }

  /** Python's `int(x)` on a float: truncation toward zero. */
  function Trunc(x: real): (t: int)
    ensures x >= 0.0 ==> t as real <= x < t as real + 1.0
    ensures x < 0.0 ==> t as real - 1.0 < x <= t as real
  {
    if x >= 0.0 then x.Floor else -((-x).Floor)
  }

  /** `get_timestamp(length)` at clock reading `now` (seconds since the
      epoch, as `time.time()` returns them): milliseconds for length 13,
      seconds otherwise, both cut to the whole second. */
  function GetTimestamp(length: int, now: real): (t: int)
    ensures length != 13 ==> t == Trunc(now)
    ensures length == 13 ==> t % 1000 == 0 && t / 1000 == Trunc(now)
  {
    if length == 13 then Trunc(now) * 1000 else Trunc(now)
  }

  /** The 13-digit stamp is the 10-digit one times 1000, and it lies within
      one second below the exact clock reading in milliseconds. */
  lemma TimestampMillisAreWholeSeconds(now: real)
    requires now >= 0.0
    ensures GetTimestamp(13, now) == GetTimestamp(10, now) * 1000
    ensures GetTimestamp(13, now) as real <= now * 1000.0 < GetTimestamp(13, now) as real + 1000.0
  {
    var t := Trunc(now);
    assert t as real <= now < t as real + 1.0;
    assert (t * 1000) as real == t as real * 1000.0;
  }

  /** colorama's `Fore.RED` and `Style.RESET_ALL`. */
  const Red: string := "\U{1B}[31m"
  const ResetAll: string := "\U{1B}[0m"

  /** The text `custom_print(message, error_msg)` writes, at the wall-clock
      date text `datetime` (what `get_datetime()` returns). */
  function CustomPrintText(message: string, errorMsg: bool, datetime: string): (line: string)
    ensures !errorMsg ==> line == "[" + datetime + "] " + message
    ensures errorMsg ==> line == Red + CustomPrintText(message, false, datetime) + ResetAll
  {
    var plain := "[" + datetime + "] " + message;
    if errorMsg then Red + plain + ResetAll else plain
  }

  /** Both variants end with the message (before the reset code for an
      error), and the error variant differs only by the colour codes. */
  lemma CustomPrintFraming(message: string, datetime: string)
    ensures var plain := CustomPrintText(message, false, datetime);
      plain[0] == '[' && plain[|plain| - |message|..] == message
      && plain[|datetime| + 1..|datetime| + 3] == "] "
    ensures var err := CustomPrintText(message, true, datetime);
      err[|Red|..|err| - |ResetAll|] == CustomPrintText(message, false, datetime)
  {
    var plain := CustomPrintText(message, false, datetime);
    assert plain == "[" + datetime + "] " + message;
    var err := CustomPrintText(message, true, datetime);
    assert err == Red + plain + ResetAll;
  }
}
