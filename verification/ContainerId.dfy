/** The check of container ids: owner code, category, serial number and check digit, as ISO 6346
    has them in its Annex A. */
module ContainerId {
  import opened Cargo
  import opened CraneText

  const ISO_ID_SIZE := 11
  const CHECK_DIGIT_INDEX := 10
  const MODULUS := 11

  predicate IsCapital(ch: char) {
    'A' <= ch <= 'Z'
  }

  function LetterValue(ch: char): nat
    requires IsCapital(ch)
  {
    if ch == 'A' then 10
    else if ch <= 'K' then 12 + (ch as int - 'B' as int)
    else if ch <= 'U' then 23 + (ch as int - 'L' as int)
    else 34 + (ch as int - 'V' as int)
  }

  /** The value of a character. What is neither a letter nor a digit counts by its distance from 0. */
  function CharValue(ch: char): int {
    if IsCapital(ch) then LetterValue(ch) else ch as int - '0' as int
  }

  function Power(k: nat): nat {
    if k == 0 then 1 else 2 * Power(k - 1)
  }

  /** The first n characters, each weighted with a power of two. */
  function WeightedSum(id: string, n: nat): int
    requires n <= |id|
  {
    if n == 0 then 0 else WeightedSum(id, n - 1) + CharValue(id[n - 1]) * Power(n - 1)
  }

  /** The remainder of a division that truncates toward zero. */
  function Remainder(sum: int): int {
    if sum >= 0 then sum % MODULUS else -(-sum % MODULUS)
  }

  function CheckDigit(id: string): int
    requires |id| >= CHECK_DIGIT_INDEX
  {
    var digit := Remainder(WeightedSum(id, CHECK_DIGIT_INDEX));
    if digit == 10 then 0 else digit
  }

  /** All before the serial number, which has only to begin with a number. */
  predicate IsFormed(id: string) {
    && |id| >= CHECK_DIGIT_INDEX
    && (forall k :: 0 <= k < 3 ==> IsCapital(id[k]))
    && id[3] in "UJZ"
    && Stoi(id[4..CHECK_DIGIT_INDEX]).Some?
  }

  predicate VerifyId(id: string) {
    && |id| == ISO_ID_SIZE && IsFormed(id)
    && Stoi(id[CHECK_DIGIT_INDEX..]) == Some(CheckDigit(id))
  }

  method SumUpTo(id: string, n: nat) returns (sum: int)
    requires n <= |id|
    ensures sum == WeightedSum(id, n)
  {
    sum := 0;
    var power := 1;
    for index := 0 to n
      invariant sum == WeightedSum(id, index) && power == Power(index)
    {
      sum := sum + CharValue(id[index]) * power;
      power := 2 * power;
    }
  }

  /** The checks of the form of an id. */
  method CheckForm(id: string) returns (ok: bool)
    requires |id| == ISO_ID_SIZE
    ensures ok == (IsFormed(id) && Stoi(id[CHECK_DIGIT_INDEX..]).Some?)
  {
    for index := 0 to 3
      invariant forall k :: 0 <= k < index ==> IsCapital(id[k])
    {
      if id[index] < 'A' || id[index] > 'Z' {
        return false;
      }
    }
    if id[3] != 'U' && id[3] != 'J' && id[3] != 'Z' {
      return false;
    }
    assert id[3] in "UJZ";
    if Stoi(id[4..10]).None? || Stoi(id[10..]).None? {
      return false;
    }
    return true;
  }

  /** The checks one after the other. */
  method CheckId(id: string) returns (ok: bool)
    requires |id| == ISO_ID_SIZE
    ensures ok == VerifyId(id)
  {
    var formed := CheckForm(id);
    if !formed {
      return false;
    }
    var sum := SumUpTo(id, CHECK_DIGIT_INDEX);
    var digit := Remainder(sum);
    if digit == 10 {
      digit := 0;
    }
    return digit == Stoi(id[10..]).value;
  }

  // ----- what the check is worth -----

  /** The letters count from 10 to 38 and leave out the multiples of the modulus. */
  lemma LettersSkipMultiples()
    ensures forall a, b :: IsCapital(a) && IsCapital(b) && a < b ==> LetterValue(a) < LetterValue(b)
    ensures forall v :: (exists ch :: IsCapital(ch) && LetterValue(ch) == v) <==> 10 <= v <= 38 && v % MODULUS != 0
  {
    forall v | 10 <= v <= 38 && v % MODULUS != 0
      ensures exists ch :: IsCapital(ch) && LetterValue(ch) == v
    {
      var ch := if v == 10 then 'A'
                else if v < 22 then ('B' as int + v - 12) as char
                else if v < 33 then ('L' as int + v - 23) as char
                else ('V' as int + v - 34) as char;
      assert IsCapital(ch) && LetterValue(ch) == v;
    }
  }

  lemma OneCharNumber(ch: char)
    ensures Stoi([ch]) == if IsDigit(ch) then Some(DigitValue(ch)) else None
  {
    assert [ch][1..] == "";
    assert [ch][..0] == "";
    if IsDigit(ch) {
      assert DigitPrefix([ch]) == [ch];
      assert ValueOf([ch]) == 10 * ValueOf("") + DigitValue(ch);
    }
  }

  lemma {:induction false} SumOfFront(front: string, rest: string, n: nat)
    requires n <= |front|
    ensures WeightedSum(front + rest, n) == WeightedSum(front, n)
  {
    if n > 0 {
      SumOfFront(front, rest, n - 1);
    }
  }

  lemma FrontAlike(front: string, rest: string, n: nat)
    requires |front| == n == CHECK_DIGIT_INDEX
    ensures WeightedSum(front + rest, n) == WeightedSum(front, n)
    ensures (front + rest)[4..n] == front[4..n] && (front + rest)[n..] == rest
  {
    SumOfFront(front, rest, n);
  }

  /** An id that is formed as it should be, with a sum that is not negative, is completed by exactly
      one character, which is a digit. */
  lemma OneDigitCompletes(front: string, ch: char)
    requires |front| == CHECK_DIGIT_INDEX && IsFormed(front) && WeightedSum(front, CHECK_DIGIT_INDEX) >= 0
    ensures 0 <= CheckDigit(front) < 10
    ensures VerifyId(front + [ch]) <==> ch == DigitChar(CheckDigit(front))
  {
    FrontAlike(front, [ch], CHECK_DIGIT_INDEX);
    OneCharNumber(ch);
  }

  /** Digits that differ weigh differently. */
  lemma WeightsDiffer(k: nat, i: nat)
    requires 1 <= k <= 9 && 4 <= i < CHECK_DIGIT_INDEX
    ensures (k * Power(i)) % MODULUS != 0
  {
    assert Power(4) == 16 by {
      assert Power(2) == 4;
    }
    assert Power(6) == 64 && Power(8) == 256;
    match i
    case 4 => assert k * Power(i) == 16 * k;
    case 5 => assert k * Power(i) == 32 * k;
    case 6 => assert k * Power(i) == 64 * k;
    case 7 => assert k * Power(i) == 128 * k;
    case 8 => assert k * Power(i) == 256 * k;
    case 9 => assert k * Power(i) == 512 * k;
  }

  lemma {:induction false} SumChanged(id: string, i: nat, ch: char, n: nat)
    requires i < |id| && n <= |id|
    ensures WeightedSum(id[i := ch], n) ==
            WeightedSum(id, n) + if i < n then (CharValue(ch) - CharValue(id[i])) * Power(i) else 0
  {
    if n > 0 {
      SumChanged(id, i, ch, n - 1);
      if i == n - 1 {
        assert (CharValue(ch) - CharValue(id[i])) * Power(i) == CharValue(ch) * Power(i) - CharValue(id[i]) * Power(i);
      }
    }
  }

  /** The serial number is made of digits only. */
  predicate DigitsOnly(id: string) {
    |id| == ISO_ID_SIZE && forall k :: 4 <= k < CHECK_DIGIT_INDEX ==> IsDigit(id[k])
  }

  lemma CharIsNat(id: string, k: nat)
    requires IsFormed(id) && DigitsOnly(id) && k < CHECK_DIGIT_INDEX
    ensures CharValue(id[k]) >= 0
  {
    assert id[3] in ['U', 'J', 'Z'];
  }

  lemma ProductIsNat(a: nat, b: nat)
    ensures a * b >= 0
  {
  }

  lemma {:induction false} SumIsNat(id: string, n: nat)
    requires IsFormed(id) && DigitsOnly(id) && n <= CHECK_DIGIT_INDEX
    ensures WeightedSum(id, n) >= 0
  {
    if n > 0 {
      SumIsNat(id, n - 1);
      CharIsNat(id, n - 1);
      ProductIsNat(CharValue(id[n - 1]), Power(n - 1));
    }
  }

  lemma DigitsAreNumber(s: string)
    requires s != "" && forall k :: 0 <= k < |s| ==> IsDigit(s[k])
    ensures Stoi(s).Some?
  {
    assert IsDigit(s[0]);
    assert SkipSpaces(s) == s && DigitPrefix(s) == s;
  }

  lemma Shifted(sum: nat, d: nat)
    requires d % MODULUS != 0
    ensures Remainder(sum) != Remainder(sum + d)
  {
  }

  /** Two sums that differ by a weighted digit have different remainders. */
  lemma RemaindersDiffer(small: nat, large: nat, k: nat, i: nat, d: int)
    requires 1 <= k <= 9 && 4 <= i < CHECK_DIGIT_INDEX && d == k * Power(i) && large == small + d
    ensures Remainder(small) != Remainder(large)
  {
    WeightsDiffer(k, i);
    ProductIsNat(k, Power(i));
    Shifted(small, d);
  }

  lemma Negated(x: int, p: int)
    ensures (-x) * p == -(x * p)
  {
  }

  lemma RemainderMoves(sum: nat, sum': nat, x: int, i: nat, p: nat)
    requires -10 < x < 10 && x != 0 && 4 <= i < CHECK_DIGIT_INDEX && p == Power(i) && sum' == sum + x * p
    ensures Remainder(sum) != Remainder(sum')
  {
    if x > 0 {
      RemaindersDiffer(sum, sum', x, i, x * p);
    } else {
      Negated(x, p);
      RemaindersDiffer(sum', sum, -x, i, (-x) * p);
    }
  }

  lemma StaysFormed(id: string, i: nat, ch: char)
    requires IsFormed(id) && DigitsOnly(id) && 4 <= i < CHECK_DIGIT_INDEX && IsDigit(ch)
    ensures IsFormed(id[i := ch]) && DigitsOnly(id[i := ch])
  {
    DigitsAreNumber(id[i := ch][4..CHECK_DIGIT_INDEX]);
  }

  lemma ChangedSum(id: string, i: nat, ch: char, n: nat)
    requires 4 <= i < n == CHECK_DIGIT_INDEX <= |id| && IsDigit(id[i]) && IsDigit(ch) && ch != id[i]
    requires WeightedSum(id, n) >= 0 && WeightedSum(id[i := ch], n) >= 0
    ensures Remainder(WeightedSum(id, n)) != Remainder(WeightedSum(id[i := ch], n))
  {
    SumChanged(id, i, ch, n);
    var sum, sum' := WeightedSum(id, n), WeightedSum(id[i := ch], n);
    RemainderMoves(sum, sum', DigitValue(ch) - DigitValue(id[i]), i, Power(i));
  }

  /** One wrong digit in the serial number goes unnoticed exactly when the sum leaves 0 with the one
      digit and 10 with the other, for which the check digit is the same. */
  lemma WrongDigitPassesExactly(id: string, i: nat, ch: char)
    requires VerifyId(id) && DigitsOnly(id) && 4 <= i < CHECK_DIGIT_INDEX && IsDigit(ch) && ch != id[i]
    ensures var r, r' :=
            Remainder(WeightedSum(id, CHECK_DIGIT_INDEX)), Remainder(WeightedSum(id[i := ch], CHECK_DIGIT_INDEX));
            VerifyId(id[i := ch]) <==> (r == 0 && r' == 10) || (r == 10 && r' == 0)
  {
    StaysFormed(id, i, ch);
    SumIsNat(id, CHECK_DIGIT_INDEX);
    SumIsNat(id[i := ch], CHECK_DIGIT_INDEX);
    ChangedSum(id, i, ch, CHECK_DIGIT_INDEX);
    assert id[i := ch][CHECK_DIGIT_INDEX..] == id[CHECK_DIGIT_INDEX..];
  }

  // ----- checking one id -----

  lemma SumNext(id: string, n: nat, sum: int, p: nat)
    requires n < |id| && sum == WeightedSum(id, n) && p == Power(n)
    ensures WeightedSum(id, n + 1) == sum + CharValue(id[n]) * p && Power(n + 1) == 2 * p
  {
  }

  /** The sum, term by term. */
  lemma SumIs(id: string, c: seq<int>)
    requires |id| >= |c| == CHECK_DIGIT_INDEX && forall k :: 0 <= k < |c| ==> c[k] == CharValue(id[k])
    ensures WeightedSum(id, CHECK_DIGIT_INDEX) ==
            c[0] + 2 * c[1] + 4 * c[2] + 8 * c[3] + 16 * c[4] + 32 * c[5] + 64 * c[6] + 128 * c[7] + 256 * c[8] +
                512 * c[9]
  {
    var s0 := 0;
    SumNext(id, 0, s0, 1);
    var s1 := s0 + CharValue(id[0]) * 1;
    SumNext(id, 1, s1, 2);
    var s2 := s1 + CharValue(id[1]) * 2;
    SumNext(id, 2, s2, 4);
    var s3 := s2 + CharValue(id[2]) * 4;
    SumNext(id, 3, s3, 8);
    var s4 := s3 + CharValue(id[3]) * 8;
    SumNext(id, 4, s4, 16);
    var s5 := s4 + CharValue(id[4]) * 16;
    SumNext(id, 5, s5, 32);
    var s6 := s5 + CharValue(id[5]) * 32;
    SumNext(id, 6, s6, 64);
    var s7 := s6 + CharValue(id[6]) * 64;
    SumNext(id, 7, s7, 128);
    var s8 := s7 + CharValue(id[7]) * 128;
    SumNext(id, 8, s8, 256);
    var s9 := s8 + CharValue(id[8]) * 256;
    SumNext(id, 9, s9, 512);
    var s10 := s9 + CharValue(id[9]) * 512;
  }

  predicate IsPlainId(id: string) {
    DigitsOnly(id) && IsDigit(id[CHECK_DIGIT_INDEX]) && id[3] == 'U' && forall k :: 0 <= k < 4 ==> IsCapital(id[k])
  }

  /** An id of three letters, a category and seven digits passes when the last digit is what the sum
      asks for. */
  lemma PlainIdPasses(id: string, sum: nat)
    requires IsPlainId(id)
    requires sum == WeightedSum(id, CHECK_DIGIT_INDEX)
    ensures VerifyId(id) <==> DigitValue(id[CHECK_DIGIT_INDEX]) == sum % MODULUS % 10
  {
    assert id[3] in "UJZ";
    DigitsAreNumber(id[4..CHECK_DIGIT_INDEX]);
    OneCharNumber(id[CHECK_DIGIT_INDEX]);
    assert id[CHECK_DIGIT_INDEX..] == [id[CHECK_DIGIT_INDEX]];
  }

  /** Which ids pass of those whose serial number is made of digits: three capital letters, one of
      three categories, and the check digit that the weighted sum asks for. */
  lemma VerifyIdExactly(id: string, c: seq<int>)
    requires DigitsOnly(id)
    requires |c| == 10 && forall k :: 0 <= k < 10 ==> c[k] == CharValue(id[k])
    ensures VerifyId(id) <==>
            && (forall k :: 0 <= k < 3 ==> 'A' <= id[k] <= 'Z')
            && (id[3] == 'U' || id[3] == 'J' || id[3] == 'Z')
            && id[10] as int - 48 ==
               (c[0] + 2 * c[1] + 4 * c[2] + 8 * c[3] + 16 * c[4] + 32 * c[5] + 64 * c[6] + 128 * c[7] + 256 * c[8] +
                   512 * c[9]) % 11 % 10
    ensures forall k :: 4 <= k < 10 ==> c[k] == id[k] as int - 48
  {
    SumIs(id, c);
    DigitsAreNumber(id[4..CHECK_DIGIT_INDEX]);
    assert id[CHECK_DIGIT_INDEX..] == [id[CHECK_DIGIT_INDEX]];
    OneCharNumber(id[CHECK_DIGIT_INDEX]);
    CategoryIs(id[3]);
    if IsFormed(id) {
      SumIsNat(id, CHECK_DIGIT_INDEX);
    }
  }

  lemma CategoryIs(ch: char)
    ensures ch in "UJZ" <==> ch == 'U' || ch == 'J' || ch == 'Z'
  {
    assert "UJZ" == ['U', 'J', 'Z'];
  }
}
