/**
 * Pythagorean numerology: name normalisation, letter values, digit sums,
 * reduction to a single digit (keeping master numbers), the inversion
 * d |-> 10 - d, and the signature assembled from a name and/or a birth date.
 */
module Numerology {
  import opened Wrappers
  import opened Text

  /** `NumerologyConfig`: the master numbers kept unreduced and the inversion flag. */
  datatype NumerologyConfig = NumerologyConfig(keepMasterNumbers: set<int>, applyInversion: bool)

  const DefaultConfig := NumerologyConfig({11, 22, 33}, true)

  /** The `ValueError`s this module raises. */
  datatype NumerologyError =
    | InvertOutOfRange(d: int)
    | ZeroNotAllowed
    | UnsupportedCharacter(c: char)
    | InvalidDate(year: int, month: int, day: int)

  // ---------------------------------------------------------------------------
  // Normalisation
  // ---------------------------------------------------------------------------

  predicate AllUpper(s: string) {
    forall i :: 0 <= i < |s| ==> IsAsciiUpper(s[i])
  }

  /** `normalize_name`: upper-case, then drop every character outside `A`..`Z`. */
  function NormalizeName(name: string): (r: string)
    ensures AllUpper(r)
    ensures |r| <= |name|
  {
    if name == [] then []
    else
      var c := UpperChar(name[0]);
      (if IsAsciiUpper(c) then [c] else []) + NormalizeName(name[1..])
  }

  /** Normalisation distributes over concatenation: it works character by character. */
  lemma {:induction false} NormalizeNameAppend(a: string, b: string)
    ensures NormalizeName(a + b) == NormalizeName(a) + NormalizeName(b)
  {
    if a == [] {
      assert a + b == b;
    } else {
      assert (a + b)[0] == a[0] && (a + b)[1..] == a[1..] + b;
      NormalizeNameAppend(a[1..], b);
      var c := UpperChar(a[0]);
      var h: string := if IsAsciiUpper(c) then [c] else [];
      calc {
        NormalizeName(a + b);
        h + NormalizeName(a[1..] + b);
        h + (NormalizeName(a[1..]) + NormalizeName(b));
        (h + NormalizeName(a[1..])) + NormalizeName(b);
        NormalizeName(a) + NormalizeName(b);
      }
    }
  }

  /** A string made of `A`..`Z` only is its own normal form. */
  lemma {:induction false} NormalizeNameFixesUpper(s: string)
    requires AllUpper(s)
    ensures NormalizeName(s) == s
  {
    if s != [] {
      NormalizeNameFixesUpper(s[1..]);
    }
  }

  /** `normalize_name` is idempotent. */
  lemma NormalizeNameIdempotent(name: string)
    ensures NormalizeName(NormalizeName(name)) == NormalizeName(name)
  {
    NormalizeNameFixesUpper(NormalizeName(name));
  }

  /** "O'Connor" normalises to "OCONNOR". */
  lemma NormalizeNameExample()
    ensures NormalizeName("O'Connor") == "OCONNOR"
  {
    NormalizeNameConnor();
    NormalizeNameCons('\'', "Connor");
    NormalizeNameCons('O', "'Connor");
  }

  /** "Connor" normalises to "CONNOR". */
  lemma NormalizeNameConnor()
    ensures NormalizeName("Connor") == "CONNOR"
  {
    NormalizeNameNor();
    NormalizeNameCons('n', "nor");
    NormalizeNameCons('o', "nnor");
    NormalizeNameCons('C', "onnor");
  }

  /** "nor" normalises to "NOR". */
  lemma NormalizeNameNor()
    ensures NormalizeName("nor") == "NOR"
  {
    NormalizeNameCons('r', "");
    NormalizeNameCons('o', "r");
    NormalizeNameCons('n', "or");
  }

  /** One character in front: it contributes its upper-case form when that is a letter, nothing otherwise. */
  lemma NormalizeNameCons(c: char, rest: string)
    ensures NormalizeName([c] + rest) == (if IsAsciiUpper(UpperChar(c)) then [UpperChar(c)] else []) + NormalizeName(rest)
  {
    assert ([c] + rest)[0] == c && ([c] + rest)[1..] == rest;
  }

  // ---------------------------------------------------------------------------
  // Inversion
  // ---------------------------------------------------------------------------

  /** `invert_digit`: 0 stays 0, 1..9 mirror to 10 - d, anything else is rejected. */
  function InvertDigit(d: int): (r: Result<int, NumerologyError>)
    ensures r.Success? <==> 0 <= d <= 9
    ensures r.Success? ==> 0 <= r.value <= 9
    ensures r.Success? && d == 0 ==> r.value == 0
    ensures r.Success? && d != 0 ==> r.value + d == 10
    ensures r.Failure? ==> r.error == InvertOutOfRange(d)
  {
    if d == 0 then Success(0)
    else if 1 <= d <= 9 then Success(10 - d)
    else Failure(InvertOutOfRange(d))
  }

  /** Inversion is an involution on 0..9. */
  lemma InvertDigitInvolution(d: int)
    requires 0 <= d <= 9
    ensures InvertDigit(d).Success? && InvertDigit(InvertDigit(d).value) == Success(d)
  {
  }

  // ---------------------------------------------------------------------------
  // Digit sums
  // ---------------------------------------------------------------------------

  function Abs(n: int): nat {
    if n < 0 then -n else n
  }

  /** The decimal digits of `n`, most significant first: the characters of `str(n)`. */
  function Digits(n: nat): (r: seq<int>)
    ensures |r| >= 1
    ensures forall i :: 0 <= i < |r| ==> 0 <= r[i] <= 9
    ensures n > 0 ==> r[0] != 0
  {
    if n < 10 then [n] else Digits(n / 10) + [n % 10]
  }

  /** The number a digit sequence denotes. */
  function FromDigits(ds: seq<int>): int {
    if ds == [] then 0 else FromDigits(ds[..|ds| - 1]) * 10 + ds[|ds| - 1]
  }

  /** Reading the digits back gives the number. */
  lemma {:induction false} DigitsRoundTrip(n: nat)
    ensures FromDigits(Digits(n)) == n
  {
    if n >= 10 {
      var ds := Digits(n);
      assert ds[..|ds| - 1] == Digits(n / 10);
      DigitsRoundTrip(n / 10);
    }
  }

  /** Python's `sum` over a sequence of integers. */
  function Sum(xs: seq<int>): int {
    if xs == [] then 0 else Sum(xs[..|xs| - 1]) + xs[|xs| - 1]
  }

  lemma {:induction false} SumAppend(a: seq<int>, b: seq<int>)
    ensures Sum(a + b) == Sum(a) + Sum(b)
    decreases |b|
  {
    if b == [] {
      assert a + b == a;
    } else {
      assert (a + b)[..|a + b| - 1] == a + b[..|b| - 1];
      assert (a + b)[|a + b| - 1] == b[|b| - 1];
      SumAppend(a, b[..|b| - 1]);
    }
  }

  /** `sum_digits`: the sum of the decimal digits of `abs(n)`, peeled off from the right. */
  function SumDigits(n: int): nat
    decreases Abs(n), if n < 0 then 1 else 0
  {
    if n < 0 then SumDigits(-n) else if n < 10 then n else SumDigits(n / 10) + n % 10
  }

  /** The digit sum is the sum over the characters of `str(abs(n))`. */
  lemma {:induction false} SumDigitsOfDigits(n: nat)
    ensures SumDigits(n) == Sum(Digits(n))
  {
    if n >= 10 {
      SumDigitsOfDigits(n / 10);
      var ds := Digits(n);
      assert ds[..|ds| - 1] == Digits(n / 10);
    }
  }

  lemma ModNineStep(q: int, d: int, s: int)
    requires s % 9 == q % 9
    ensures (s + d) % 9 == (10 * q + d) % 9
  {
    assert 10 * q + d == (q + d) + 9 * q;
  }

  /** The digit sum stays positive and shrinks every number of two or more digits. */
  lemma {:induction false} SumDigitsFacts(n: nat)
    ensures SumDigits(n) <= n
    ensures n >= 10 ==> SumDigits(n) < n
    ensures n >= 1 ==> SumDigits(n) >= 1
  {
    if n >= 10 {
      SumDigitsFacts(n / 10);
    }
  }

  /** The digit sum keeps the residue mod 9 (casting out nines). */
  lemma {:induction false} SumDigitsResidue(n: nat)
    ensures SumDigits(n) % 9 == n % 9
  {
    if n >= 10 {
      SumDigitsResidue(n / 10);
      ModNineStep(n / 10, n % 10, SumDigits(n / 10));
    }
  }

  // ---------------------------------------------------------------------------
  // Reduction
  // ---------------------------------------------------------------------------

  /** The value `reduce_number` reaches from `x >= 1`: stop at a master number or below 10. */
  function Reduce(x: nat, masters: set<int>): (r: nat)
    requires x >= 1
    ensures r >= 1
    ensures r in masters || r <= 9
    decreases x
  {
    SumDigitsFacts(x);
    if x in masters then x
    else if x < 10 then x
    else Reduce(SumDigits(x), masters)
  }

  /** Reduction keeps the residue mod 9. */
  lemma {:induction false} ReduceResidue(x: nat, masters: set<int>)
    requires x >= 1
    ensures Reduce(x, masters) % 9 == x % 9
    decreases x
  {
    SumDigitsFacts(x);
    if x !in masters && x >= 10 {
      SumDigitsResidue(x);
      ReduceResidue(SumDigits(x), masters);
    }
  }

  /** Without master numbers the reduction is the digital root 1 + (x - 1) mod 9. */
  lemma ReduceIsDigitalRoot(x: nat)
    requires x >= 1
    ensures Reduce(x, {}) == 1 + (x - 1) % 9
  {
    ReduceResidue(x, {});
    DigitalRootUnique(x, Reduce(x, {}));
  }

  /** Euclidean division by 9 has one quotient and one remainder. */
  lemma ModNineUnique(x: int, q: int, m: int)
    requires x == 9 * q + m && 0 <= m < 9
    ensures x % 9 == m && x / 9 == q
  {
  }

  /** The only value in 1..9 with the residue of `x` mod 9 is `1 + (x - 1) mod 9`. */
  lemma DigitalRootUnique(x: int, r: int)
    requires x >= 1 && 1 <= r <= 9 && r % 9 == x % 9
    ensures r == 1 + (x - 1) % 9
  {
    var q := (x - 1) / 9;
    var m := (x - 1) % 9;
    if m == 8 {
      ModNineUnique(x, q + 1, 0);
    } else {
      ModNineUnique(x, q, m + 1);
    }
  }

  /** Reducing a reduced value changes nothing. */
  lemma ReduceIdempotent(x: nat, masters: set<int>)
    requires x >= 1
    ensures Reduce(Reduce(x, masters), masters) == Reduce(x, masters)
  {
  }

  /** A number below 10 is its own digit sum. */
  lemma SumDigitsSmall(n: nat)
    requires n < 10
    ensures SumDigits(n) == n
  {
  }

  /** Peeling the last digit: the digit sum of `n` is that of `n / 10` plus `n % 10`. */
  lemma SumDigitsStep(n: nat)
    requires n >= 10
    ensures SumDigits(n) == SumDigits(n / 10) + n % 10
  {
  }

  /** The test vectors: 31 -> 4, 11 -> 11, and 29 -> 11 or 2 with or without master numbers. */
  lemma ReduceExamples()
    ensures Reduce(31, {11, 22, 33}) == 4
    ensures Reduce(11, {11, 22, 33}) == 11
    ensures Reduce(29, {11, 22, 33}) == 11
    ensures Reduce(29, {}) == 2
  {
    SumDigitsStep(31); SumDigitsSmall(3);
    SumDigitsStep(29); SumDigitsSmall(2);
    SumDigitsStep(11); SumDigitsSmall(1);
  }

  /** 999 -> 27 -> 9. */
  lemma ReduceExample999()
    ensures Reduce(999, {11, 22, 33}) == 9
  {
    SumDigitsStep(999); SumDigitsStep(99); SumDigitsSmall(9);
    SumDigitsStep(27); SumDigitsSmall(2);
  }

  /**
   * `reduce_number`: 0 is rejected unless `allowZero`; otherwise the digit sum of
   * `abs(n)` is taken repeatedly until the value is a master number or below 10.
   */
  method ReduceNumber(n: int, masters: set<int>, allowZero: bool) returns (r: Result<nat, NumerologyError>)
    ensures n == 0 ==> r == if allowZero then Success(0) else Failure(ZeroNotAllowed)
    ensures n != 0 ==> r.Success? && 1 <= r.value && (r.value in masters || r.value <= 9)
    ensures n != 0 ==> r.value == Reduce(Abs(n), masters)
  {
    if n == 0 {
      if allowZero {
        return Success(0);
      }
      return Failure(ZeroNotAllowed);
    }
    var x: nat := Abs(n);
    while true
      invariant x >= 1
      invariant Reduce(x, masters) == Reduce(Abs(n), masters)
      decreases x
    {
      if x in masters {
        return Success(x);
      }
      if x < 10 {
        return Success(x);
      }
      SumDigitsFacts(x);
      x := SumDigits(x);
    }
  }

  // ---------------------------------------------------------------------------
  // Letter values
  // ---------------------------------------------------------------------------

  /** `count` consecutive letters starting at `first`. */
  function Run(first: char, count: nat): (r: string)
    requires first as int + count <= 0x80
    ensures |r| == count
    ensures forall i :: 0 <= i < count ==> r[i] as int == first as int + i
  {
    seq(count, i requires 0 <= i < count => (first as int + i) as char)
  }

  /** `_PYTHAGOREAN_MAP`: A..I to 1..9, J..R to 1..9, S..Z to 1..8. */
  const PythagoreanMap: map<char, int> :=
    (map c | c in Run('A', 9) :: c as int - 'A' as int + 1) +
    (map c | c in Run('J', 9) :: c as int - 'J' as int + 1) +
    (map c | c in Run('S', 8) :: c as int - 'S' as int + 1)

  lemma InRun(first: char, count: nat, c: char)
    requires first as int + count <= 0x80
    ensures c in Run(first, count) <==> first as int <= c as int < first as int + count
  {
    if first as int <= c as int < first as int + count {
      assert Run(first, count)[c as int - first as int] == c;
    }
  }

  /** The table holds exactly the 26 capitals, and the value of the letter at alphabet position i is (i mod 9) + 1. */
  lemma PythagoreanMapShape(c: char)
    ensures c in PythagoreanMap <==> IsAsciiUpper(c)
    ensures c in PythagoreanMap ==> PythagoreanMap[c] == (c as int - 'A' as int) % 9 + 1
  {
    InRun('A', 9, c);
    InRun('J', 9, c);
    InRun('S', 8, c);
  }

  /** `pythagorean_letter_value`: the table value of `ch.upper()`, rejecting anything that is not a letter. */
  function LetterValue(ch: char): (r: Result<int, NumerologyError>)
    ensures r.Success? <==> IsAsciiUpper(UpperChar(ch))
    ensures r.Success? ==> r.value == (UpperChar(ch) as int - 'A' as int) % 9 + 1
    ensures r.Success? ==> 1 <= r.value <= 9
    ensures r.Failure? ==> r.error == UnsupportedCharacter(UpperChar(ch))
  {
    var c := UpperChar(ch);
    PythagoreanMapShape(c);
    if c !in PythagoreanMap then Failure(UnsupportedCharacter(c)) else Success(PythagoreanMap[c])
  }

  /** The boundary values of the table, and a rejected character. */
  lemma LetterValueBoundaries()
    ensures LetterValue('A') == Success(1) && LetterValue('I') == Success(9)
    ensures LetterValue('J') == Success(1) && LetterValue('R') == Success(9)
    ensures LetterValue('S') == Success(1) && LetterValue('Z') == Success(8)
    ensures LetterValue('a') == Success(1)
    ensures LetterValue('!') == Failure(UnsupportedCharacter('!'))
  {
  }

  /** The letters S..Z never exceed 8. */
  lemma LetterValueThirdRun(ch: char)
    requires 'S' <= ch <= 'Z'
    ensures LetterValue(ch).Success? && 1 <= LetterValue(ch).value <= 8
  {
  }

  // ---------------------------------------------------------------------------
  // Name totals
  // ---------------------------------------------------------------------------

  /** `_VOWELS`. */
  predicate IsVowel(c: char) {
    c == 'A' || c == 'E' || c == 'I' || c == 'O' || c == 'U' || c == 'Y'
  }

  /** Which letters a total counts. */
  datatype LetterClass = AllLetters | Vowels | Consonants

  predicate InClass(c: char, cls: LetterClass) {
    match cls
    case AllLetters => true
    case Vowels => IsVowel(c)
    case Consonants => !IsVowel(c)
  }

  /** The value of a capital letter: its alphabet position mod 9, plus 1. */
  function Value(c: char): int
    requires IsAsciiUpper(c)
  {
    (c as int - 'A' as int) % 9 + 1
  }

  /** `Value` is what the letter table gives a capital. */
  lemma ValueIsLetterValue(c: char)
    requires IsAsciiUpper(c)
    ensures LetterValue(c) == Success(Value(c))
    ensures 1 <= Value(c) <= 9
  {
  }

  /** Sum of the letter values of the letters of class `cls` in a normalised name. */
  function ClassTotal(s: string, cls: LetterClass): (r: int)
    requires AllUpper(s)
    ensures r >= 0
    ensures r == 0 <==> forall i :: 0 <= i < |s| ==> !InClass(s[i], cls)
  {
    if s == [] then 0
    else (if InClass(s[0], cls) then Value(s[0]) else 0) + ClassTotal(s[1..], cls)
  }

  /** Every letter is either a vowel or a consonant. */
  lemma {:induction false} ClassTotalSplit(s: string)
    requires AllUpper(s)
    ensures ClassTotal(s, AllLetters) == ClassTotal(s, Vowels) + ClassTotal(s, Consonants)
  {
    if s != [] {
      ClassTotalSplit(s[1..]);
    }
  }

  /** `name_total`. */
  function NameTotal(name: string): int {
    ClassTotal(NormalizeName(name), AllLetters)
  }

  /** `name_total_vowels`. */
  function NameTotalVowels(name: string): int {
    ClassTotal(NormalizeName(name), Vowels)
  }

  /** `name_total_consonants`. */
  function NameTotalConsonants(name: string): int {
    ClassTotal(NormalizeName(name), Consonants)
  }

  /** The full total is the vowel total plus the consonant total, and it is 0 exactly for a name with no letters. */
  lemma NameTotalsPartition(name: string)
    ensures NameTotal(name) == NameTotalVowels(name) + NameTotalConsonants(name)
    ensures NameTotal(name) == 0 <==> NormalizeName(name) == []
  {
    ClassTotalSplit(NormalizeName(name));
    var s := NormalizeName(name);
    if s != [] {
      assert InClass(s[0], AllLetters);
    }
  }

  /** "ABC": total 6, vowels 1 (A), consonants 5 (B + C). */
  lemma NameTotalsExample()
    ensures NameTotal("ABC") == 6
    ensures NameTotalVowels("ABC") == 1
    ensures NameTotalConsonants("ABC") == 5
  {
    NormalizeNameFixesUpper("ABC");
    ClassTotalExample(Vowels);
    ClassTotalExample(Consonants);
    ClassTotalExample(AllLetters);
  }

  lemma ClassTotalExample(cls: LetterClass)
    ensures ClassTotal("ABC", cls) ==
      (if InClass('A', cls) then 1 else 0) + (if InClass('B', cls) then 2 else 0) + (if InClass('C', cls) then 3 else 0)
  {
    var s := "ABC";
    assert Value('A') == 1 && Value('B') == 2 && Value('C') == 3;
    assert s[1..] == "BC" && s[1..][1..] == "C" && s[1..][1..][1..] == [];
  }

  // ---------------------------------------------------------------------------
  // Dates
  // ---------------------------------------------------------------------------

  /** A birth date as the (year, month, day) triple `datetime.date` is built from. */
  datatype Date = Date(year: int, month: int, day: int)

  predicate IsLeapYear(y: int) {
    y % 4 == 0 && (y % 100 != 0 || y % 400 == 0)
  }

  function DaysInMonth(y: int, m: int): int
    requires 1 <= m <= 12
  {
    if m == 2 then (if IsLeapYear(y) then 29 else 28)
    else if m == 4 || m == 6 || m == 9 || m == 11 then 30
    else 31
  }

  /** What `datetime.date(y, m, d)` accepts (years 1..9999). */
  predicate ValidDate(dt: Date) {
    1 <= dt.year <= 9999 && 1 <= dt.month <= 12 && 1 <= dt.day <= DaysInMonth(dt.year, dt.month)
  }

  /** `f"{n:0{width}d}"` as digits: left-padded with zeros to `width`. */
  function PadDigits(n: nat, width: nat): (r: seq<int>)
    ensures Sum(r) == SumDigits(n)
  {
    var ds := Digits(n);
    var zeros := seq(if |ds| < width then width - |ds| else 0, _ => 0);
    SumDigitsOfDigits(n);
    SumAppend(zeros, ds);
    SumZeros(zeros);
    zeros + ds
  }

  lemma {:induction false} SumZeros(zs: seq<int>)
    requires forall i :: 0 <= i < |zs| ==> zs[i] == 0
    ensures Sum(zs) == 0
    decreases |zs|
  {
    if zs != [] {
      SumZeros(zs[..|zs| - 1]);
    }
  }

  /** The digits of `YYYYMMDD`. */
  function DateDigits(dt: Date): seq<int>
    requires ValidDate(dt)
  {
    PadDigits(dt.year, 4) + PadDigits(dt.month, 2) + PadDigits(dt.day, 2)
  }

  /** The life-path total: the digit sums of year, month and day together. */
  function LifePathTotal(dt: Date): (r: nat)
    requires ValidDate(dt)
    ensures r >= 1
  {
    SumDigitsFacts(dt.year);
    SumDigits(dt.year) + SumDigits(dt.month) + SumDigits(dt.day)
  }

  /** The life-path total is the digit sum of the zero-padded `YYYYMMDD`. */
  lemma LifePathTotalIsDateDigitSum(dt: Date)
    requires ValidDate(dt)
    ensures LifePathTotal(dt) == Sum(DateDigits(dt))
  {
    var y, m, d := PadDigits(dt.year, 4), PadDigits(dt.month, 2), PadDigits(dt.day, 2);
    SumAppend(y + m, d);
    SumAppend(y, m);
  }

  /** 1990-07-14: the digits of 19900714 sum to 31. */
  lemma LifePathTotalExample()
    ensures ValidDate(Date(1990, 7, 14)) && LifePathTotal(Date(1990, 7, 14)) == 31
  {
    SumDigitsStep(1990); SumDigitsStep(199); SumDigitsStep(19); SumDigitsSmall(1);
    SumDigitsSmall(7);
    SumDigitsStep(14);
  }

  // ---------------------------------------------------------------------------
  // Facets and the signature
  // ---------------------------------------------------------------------------

  /** One signature entry: `{"total"?: int, "pythagorean": int, "inverted"?: int}`. */
  datatype Facet = Facet(total: Option<int>, pythagorean: int, inverted: Option<int>)

  /** The `inverted` entry the builders attach: the mirror of a reduced value 1..9 under `apply_inversion`. */
  function InversionOf(reduced: int, cfg: NumerologyConfig): (r: Option<int>)
    ensures r.Some? <==> cfg.applyInversion && 1 <= reduced <= 9
    ensures r.Some? ==> 1 <= r.value <= 9 && InvertDigit(reduced) == Success(r.value)
  {
    if cfg.applyInversion && 1 <= reduced <= 9 then Some(10 - reduced) else None
  }

  predicate InversionRule(f: Facet, cfg: NumerologyConfig) {
    f.inverted == InversionOf(f.pythagorean, cfg)
  }

  /** The shared tail of the facet builders: attach `inverted` when the rule asks for it. */
  method AttachInversion(total: Option<int>, reduced: int, cfg: NumerologyConfig) returns (out: Facet)
    ensures out.total == total && out.pythagorean == reduced
    ensures InversionRule(out, cfg)
  {
    out := Facet(total, reduced, None);
    if cfg.applyInversion && 1 <= reduced <= 9 {
      var inv := InvertDigit(reduced);
      out := out.(inverted := Some(inv.value));
    }
  }

  /** `date(y, m, d)` as `_parse_date` builds it from a triple. */
  function ParseDate(y: int, m: int, d: int): (r: Result<Date, NumerologyError>)
    ensures r.Success? <==> ValidDate(Date(y, m, d))
    ensures r.Success? ==> r.value == Date(y, m, d)
    ensures r.Failure? ==> r.error == InvalidDate(y, m, d)
  {
    if ValidDate(Date(y, m, d)) then Success(Date(y, m, d)) else Failure(InvalidDate(y, m, d))
  }

  /** The life-path facet of a valid date. */
  function LifePathFacet(dob: Date, cfg: NumerologyConfig): Facet
    requires ValidDate(dob)
  {
    var total := LifePathTotal(dob);
    var reduced := Reduce(total, cfg.keepMasterNumbers);
    Facet(Some(total), reduced, InversionOf(reduced, cfg))
  }

  /** The birth-day facet of a valid date. */
  function BirthDayFacet(dob: Date, cfg: NumerologyConfig): Facet
    requires ValidDate(dob)
  {
    var reduced := Reduce(dob.day, cfg.keepMasterNumbers);
    Facet(None, reduced, InversionOf(reduced, cfg))
  }

  /** The expression facet of a name with at least one letter. */
  function ExpressionFacet(name: string, cfg: NumerologyConfig): Facet
    requires NormalizeName(name) != []
  {
    NameTotalsPartition(name);
    var total := NameTotal(name);
    var reduced := Reduce(total, cfg.keepMasterNumbers);
    Facet(Some(total), reduced, InversionOf(reduced, cfg))
  }

  /** The reduced value of a vowel or consonant total: 0 stands for "no such letters". */
  function ReducedOrZero(total: nat, masters: set<int>): int {
    if total == 0 then 0 else Reduce(total, masters)
  }

  /** The soul-urge facet: the vowel total, reduced unless it is 0. */
  function SoulUrgeFacet(name: string, cfg: NumerologyConfig): Facet {
    var total := NameTotalVowels(name);
    var reduced := ReducedOrZero(total, cfg.keepMasterNumbers);
    Facet(Some(total), reduced, InversionOf(reduced, cfg))
  }

  /** The personality facet: the consonant total, reduced unless it is 0. */
  function PersonalityFacet(name: string, cfg: NumerologyConfig): Facet {
    var total := NameTotalConsonants(name);
    var reduced := ReducedOrZero(total, cfg.keepMasterNumbers);
    Facet(Some(total), reduced, InversionOf(reduced, cfg))
  }

  /** `life_path_number`: reduce the digit sum of `YYYYMMDD`; an invalid date raises. */
  method LifePathNumber(dob: Date, cfg: NumerologyConfig) returns (r: Result<Facet, NumerologyError>)
    ensures r.Success? <==> ValidDate(dob)
    ensures r.Failure? ==> r.error == InvalidDate(dob.year, dob.month, dob.day)
    ensures r.Success? ==> r.value == LifePathFacet(dob, cfg)
  {
    var dt := ParseDate(dob.year, dob.month, dob.day);
    if dt.Failure? {
      return Failure(dt.error);
    }
    var total := LifePathTotal(dt.value);
    var reduced := ReduceNumber(total, cfg.keepMasterNumbers, false);
    var out := AttachInversion(Some(total), reduced.value, cfg);
    return Success(out);
  }

  /** `birth_day_number`: reduce the day of the month (no `total` key). */
  method BirthDayNumber(dob: Date, cfg: NumerologyConfig) returns (r: Result<Facet, NumerologyError>)
    ensures r.Success? <==> ValidDate(dob)
    ensures r.Failure? ==> r.error == InvalidDate(dob.year, dob.month, dob.day)
    ensures r.Success? ==> r.value == BirthDayFacet(dob, cfg)
  {
    var dt := ParseDate(dob.year, dob.month, dob.day);
    if dt.Failure? {
      return Failure(dt.error);
    }
    var reduced := ReduceNumber(dt.value.day, cfg.keepMasterNumbers, false);
    var out := AttachInversion(None, reduced.value, cfg);
    return Success(out);
  }

  /** `expression_number`: reduce the full letter total; a name with no letters totals 0, which `reduce_number` rejects. */
  method ExpressionNumber(name: string, cfg: NumerologyConfig) returns (r: Result<Facet, NumerologyError>)
    ensures r.Failure? <==> NormalizeName(name) == []
    ensures r.Failure? ==> r.error == ZeroNotAllowed
    ensures r.Success? ==> r.value == ExpressionFacet(name, cfg)
  {
    NameTotalsPartition(name);
    var total := NameTotal(name);
    var reduced := ReduceNumber(total, cfg.keepMasterNumbers, false);
    if reduced.Failure? {
      return Failure(reduced.error);
    }
    var out := AttachInversion(Some(total), reduced.value, cfg);
    return Success(out);
  }

  /** `soul_urge_number`: reduce the vowel total, or 0 when the name has no vowel. */
  method SoulUrgeNumber(name: string, cfg: NumerologyConfig) returns (f: Facet)
    ensures f == SoulUrgeFacet(name, cfg)
  {
    var total := NameTotalVowels(name);
    var reduced := 0;
    if total != 0 {
      var rr := ReduceNumber(total, cfg.keepMasterNumbers, false);
      reduced := rr.value;
    }
    f := AttachInversion(Some(total), reduced, cfg);
  }

  /** `personality_number`: reduce the consonant total, or 0 when the name has no consonant. */
  method PersonalityNumber(name: string, cfg: NumerologyConfig) returns (f: Facet)
    ensures f == PersonalityFacet(name, cfg)
  {
    var total := NameTotalConsonants(name);
    var reduced := 0;
    if total != 0 {
      var rr := ReduceNumber(total, cfg.keepMasterNumbers, false);
      reduced := rr.value;
    }
    f := AttachInversion(Some(total), reduced, cfg);
  }

  /** The keys of a signature. */
  datatype FacetName = LifePath | BirthDay | Expression | SoulUrge | Personality

  type Signature = map<FacetName, Facet>

  /** The facets a birth date contributes. */
  const DateFacetNames: set<FacetName> := {LifePath, BirthDay}

  /** The facets a name contributes. */
  const NameFacetNames: set<FacetName> := {Expression, SoulUrge, Personality}

  /** The facets of a valid birth date. */
  function DateFacets(dob: Date, cfg: NumerologyConfig): Signature
    requires ValidDate(dob)
  {
    map[LifePath := LifePathFacet(dob, cfg), BirthDay := BirthDayFacet(dob, cfg)]
  }

  /** The facets of a name with at least one letter. */
  function NameFacets(name: string, cfg: NumerologyConfig): Signature
    requires NormalizeName(name) != []
  {
    map[Expression := ExpressionFacet(name, cfg), SoulUrge := SoulUrgeFacet(name, cfg), Personality := PersonalityFacet(name, cfg)]
  }

  /** What `build_signature` returns or raises, as a value. */
  function SignatureOf(name: Option<string>, dob: Option<Date>, cfg: NumerologyConfig): Result<Signature, NumerologyError> {
    if dob.Some? && !ValidDate(dob.value) then
      Failure(InvalidDate(dob.value.year, dob.value.month, dob.value.day))
    else if name.Some? && NormalizeName(name.value) == [] then
      Failure(ZeroNotAllowed)
    else
      Success((if dob.Some? then DateFacets(dob.value, cfg) else map[]) +
              (if name.Some? then NameFacets(name.value, cfg) else map[]))
  }

  /**
   * `build_signature`: the date facets when a date is given, then the name facets
   * when a name is given; an invalid date or a name without letters raises.
   */
  method BuildSignature(name: Option<string>, dob: Option<Date>, cfg: NumerologyConfig)
    returns (r: Result<Signature, NumerologyError>)
    ensures r == SignatureOf(name, dob, cfg)
  {
    var sig: Signature := map[];
    if dob.Some? {
      var lp := LifePathNumber(dob.value, cfg);
      if lp.Failure? {
        return Failure(lp.error);
      }
      sig := sig[LifePath := lp.value];
      var bd := BirthDayNumber(dob.value, cfg);
      sig := sig[BirthDay := bd.value];
      assert sig == DateFacets(dob.value, cfg);
    }
    ghost var dates := sig;
    if name.Some? {
      var ex := ExpressionNumber(name.value, cfg);
      if ex.Failure? {
        return Failure(ex.error);
      }
      sig := sig[Expression := ex.value];
      var su := SoulUrgeNumber(name.value, cfg);
      sig := sig[SoulUrge := su];
      var pe := PersonalityNumber(name.value, cfg);
      sig := sig[Personality := pe];
      MergeNameFacets(dates, ex.value, su, pe);
      assert sig == dates + NameFacets(name.value, cfg);
    } else {
      assert sig == dates + map[];
    }
    SignatureSuccess(name, dob, cfg);
    return Success(sig);
  }

  /** Assigning the three name facets one after another is merging them in. */
  lemma MergeNameFacets(sig: Signature, ex: Facet, su: Facet, pe: Facet)
    ensures sig[Expression := ex][SoulUrge := su][Personality := pe] ==
      sig + map[Expression := ex, SoulUrge := su, Personality := pe]
  {
  }

  /** The signature is refused exactly for an invalid date or a name without letters, and the date is checked first. */
  lemma SignatureFailure(name: Option<string>, dob: Option<Date>, cfg: NumerologyConfig)
    ensures SignatureOf(name, dob, cfg).Failure? <==>
      (dob.Some? && !ValidDate(dob.value)) || (name.Some? && NormalizeName(name.value) == [])
    ensures dob.Some? && !ValidDate(dob.value) ==>
      SignatureOf(name, dob, cfg) == Failure(InvalidDate(dob.value.year, dob.value.month, dob.value.day))
    ensures (dob.None? || ValidDate(dob.value)) && name.Some? && NormalizeName(name.value) == [] ==>
      SignatureOf(name, dob, cfg) == Failure(ZeroNotAllowed)
  {
  }

  /** The keys present are `life_path`/`birth_day` exactly when a date is given and the name facets exactly when a name is given. */
  lemma SignatureKeys(name: Option<string>, dob: Option<Date>, cfg: NumerologyConfig)
    requires SignatureOf(name, dob, cfg).Success?
    ensures SignatureOf(name, dob, cfg).value.Keys ==
      (if dob.Some? then DateFacetNames else {}) + (if name.Some? then NameFacetNames else {})
  {
  }

  /** A reduced value as `reduce_number` leaves it: 1..9 or a kept master number. */
  predicate IsReduced(v: int, masters: set<int>) {
    1 <= v && (v <= 9 || v in masters)
  }

  /** A facet as the signature may hold it: inversion rule kept, value reduced, and 0 only for the soul urge or personality. */
  predicate FacetReduced(f: Facet, k: FacetName, cfg: NumerologyConfig) {
    && InversionRule(f, cfg)
    && (f.pythagorean == 0 || IsReduced(f.pythagorean, cfg.keepMasterNumbers))
    && (f.pythagorean == 0 ==> k == SoulUrge || k == Personality)
  }

  /** The date facets are reduced and never 0. */
  lemma DateFacetsReduced(dob: Date, cfg: NumerologyConfig, k: FacetName)
    requires ValidDate(dob) && k in DateFacetNames
    ensures FacetReduced(DateFacets(dob, cfg)[k], k, cfg)
  {
    if k == LifePath {
      var f := LifePathFacet(dob, cfg);
      assert IsReduced(f.pythagorean, cfg.keepMasterNumbers);
    } else {
      var f := BirthDayFacet(dob, cfg);
      assert IsReduced(f.pythagorean, cfg.keepMasterNumbers);
    }
  }

  /** The expression facet is reduced and never 0; the soul urge and personality are reduced or 0. */
  lemma NameFacetsReduced(name: string, cfg: NumerologyConfig, k: FacetName)
    requires NormalizeName(name) != [] && k in NameFacetNames
    ensures FacetReduced(NameFacets(name, cfg)[k], k, cfg)
  {
    if k == Expression {
      var f := ExpressionFacet(name, cfg);
      assert IsReduced(f.pythagorean, cfg.keepMasterNumbers);
    }
  }

  /**
   * Every facet obeys the inversion rule, and its reduced value is 0 (only for an
   * absent vowel or consonant total) or a value 1..9 or a kept master number.
   */
  lemma SignatureFacetsReduced(name: Option<string>, dob: Option<Date>, cfg: NumerologyConfig, k: FacetName)
    requires SignatureOf(name, dob, cfg).Success? && k in SignatureOf(name, dob, cfg).value
    ensures FacetReduced(SignatureOf(name, dob, cfg).value[k], k, cfg)
  {
    SignatureKeys(name, dob, cfg);
    if k in DateFacetNames {
      SignatureDateFacet(name, dob, cfg, k);
      DateFacetsReduced(dob.value, cfg, k);
    } else {
      SignatureNameFacet(name, dob, cfg, k);
      NameFacetsReduced(name.value, cfg, k);
    }
  }

  /** A successful signature is the date facets (when a date is given) merged with the name facets (when a name is given). */
  lemma SignatureParts(name: Option<string>, dob: Option<Date>, cfg: NumerologyConfig)
    requires SignatureOf(name, dob, cfg).Success?
    ensures dob.Some? ==> ValidDate(dob.value)
    ensures name.Some? ==> NormalizeName(name.value) != []
    ensures SignatureOf(name, dob, cfg).value ==
      (if dob.Some? then DateFacets(dob.value, cfg) else map[]) + (if name.Some? then NameFacets(name.value, cfg) else map[])
  {
  }

  /** With a valid date (if any) and a name with letters (if any), the signature is built from both parts. */
  lemma SignatureSuccess(name: Option<string>, dob: Option<Date>, cfg: NumerologyConfig)
    requires dob.Some? ==> ValidDate(dob.value)
    requires name.Some? ==> NormalizeName(name.value) != []
    ensures SignatureOf(name, dob, cfg) ==
      Success((if dob.Some? then DateFacets(dob.value, cfg) else map[]) + (if name.Some? then NameFacets(name.value, cfg) else map[]))
  {
  }

  /** With a date, each date facet of the signature is that of the date. */
  lemma SignatureDateFacet(name: Option<string>, dob: Option<Date>, cfg: NumerologyConfig, k: FacetName)
    requires SignatureOf(name, dob, cfg).Success? && dob.Some? && k in DateFacetNames
    ensures ValidDate(dob.value)
    ensures SignatureOf(name, dob, cfg).value[k] == DateFacets(dob.value, cfg)[k]
  {
    SignatureParts(name, dob, cfg);
    var names: Signature := if name.Some? then NameFacets(name.value, cfg) else map[];
    assert names.Keys <= NameFacetNames;
    MergeLeft(DateFacets(dob.value, cfg), names, k);
  }

  /** A key only the left map holds keeps its left value in a merge. */
  lemma MergeLeft(a: Signature, b: Signature, k: FacetName)
    requires k in a && k !in b
    ensures (a + b)[k] == a[k]
  {
  }

  /** With a name, each name facet of the signature is that of the name. */
  lemma SignatureNameFacet(name: Option<string>, dob: Option<Date>, cfg: NumerologyConfig, k: FacetName)
    requires SignatureOf(name, dob, cfg).Success? && name.Some? && k in NameFacetNames
    ensures NormalizeName(name.value) != []
    ensures SignatureOf(name, dob, cfg).value[k] == NameFacets(name.value, cfg)[k]
  {
    SignatureParts(name, dob, cfg);
  }

  /** The soul-urge value is 0 exactly when the normalised name has no vowel. */
  lemma SoulUrgeZeroIffNoVowel(name: string, cfg: NumerologyConfig)
    ensures SoulUrgeFacet(name, cfg).pythagorean == 0 ==>
      forall i :: 0 <= i < |NormalizeName(name)| ==> !IsVowel(NormalizeName(name)[i])
    ensures (forall i :: 0 <= i < |NormalizeName(name)| ==> !IsVowel(NormalizeName(name)[i])) ==>
      SoulUrgeFacet(name, cfg).pythagorean == 0
  {
    var s := NormalizeName(name);
    var t := ClassTotal(s, Vowels);
    assert ReducedOrZero(t, cfg.keepMasterNumbers) == 0 <==> t == 0;
    assert forall i :: 0 <= i < |s| ==> (InClass(s[i], Vowels) <==> IsVowel(s[i]));
  }

  /** The personality value is 0 exactly when the normalised name has no consonant. */
  lemma PersonalityZeroIffNoConsonant(name: string, cfg: NumerologyConfig)
    ensures PersonalityFacet(name, cfg).pythagorean == 0 ==>
      forall i :: 0 <= i < |NormalizeName(name)| ==> IsVowel(NormalizeName(name)[i])
    ensures (forall i :: 0 <= i < |NormalizeName(name)| ==> IsVowel(NormalizeName(name)[i])) ==>
      PersonalityFacet(name, cfg).pythagorean == 0
  {
    var s := NormalizeName(name);
    var t := ClassTotal(s, Consonants);
    assert ReducedOrZero(t, cfg.keepMasterNumbers) == 0 <==> t == 0;
    assert forall i :: 0 <= i < |s| ==> (InClass(s[i], Consonants) <==> !IsVowel(s[i]));
  }

  /** The documented vector: life path of 1990-07-14 totals 31 and reduces to 4, inverted 6. */
  lemma LifePathFacetExample()
    ensures ValidDate(Date(1990, 7, 14))
    ensures LifePathFacet(Date(1990, 7, 14), DefaultConfig) == Facet(Some(31), 4, Some(6))
  {
    LifePathTotalExample();
    assert Reduce(31, {11, 22, 33}) == 4 by { SumDigitsStep(31); SumDigitsSmall(3); }
  }

  /** The birth day 14 reduces to 5, inverted 5. */
  lemma BirthDayFacetExample()
    ensures ValidDate(Date(1990, 7, 14))
    ensures BirthDayFacet(Date(1990, 7, 14), DefaultConfig) == Facet(None, 5, Some(5))
  {
    SumDigitsStep(14); SumDigitsSmall(1);
  }

  /** "ABC" has expression 6 (inverted 4), soul urge 1 (inverted 9), personality 5 (inverted 5). */
  lemma NameFacetExample()
    ensures NormalizeName("ABC") != []
    ensures ExpressionFacet("ABC", DefaultConfig) == Facet(Some(6), 6, Some(4))
    ensures SoulUrgeFacet("ABC", DefaultConfig) == Facet(Some(1), 1, Some(9))
    ensures PersonalityFacet("ABC", DefaultConfig) == Facet(Some(5), 5, Some(5))
  {
    NameTotalsExample();
  }
}
