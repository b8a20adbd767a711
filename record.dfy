/**
 * The birth record submitted to the registration service and the
 * declarative constraints its request model places on each field.
 */
module Record {

  /** One submitted birth record, field for field as the request model declares it. */
  datatype BirthData = BirthData(
    fatherId: int,
    fatherIdType: string,
    fatherFullName: string,
    motherId: int,
    motherIdType: string,
    motherName: string,
    hospitalName: string,
    birthDate: string)

  /** The fields of a record, used to report which constraints a record breaks. */
  datatype Field =
    | FatherId | FatherIdType | FatherFullName
    | MotherId | MotherIdType | MotherName
    | HospitalName | BirthDate

  // Inclusive bounds on both parent ids (ge / le on the two integer fields).
  const MinParentId: int := 10000000
  const MaxParentId: int := 999999999999

  // Inclusive bounds on the length of the three free-text fields.
  const MinTextLength: nat := 2
  const MaxTextLength: nat := 100

  predicate ParentIdInRange(id: int) {
    MinParentId <= id <= MaxParentId
  }

  predicate TextLengthOk(s: string) {
    MinTextLength <= |s| <= MaxTextLength
  }

  // ---------------------------------------------------------------------
  // The birth-date pattern `^\d{4}-\d{2}-\d{2}$`, as a tiny regular
  // expression language: a pattern is a sequence of single-character atoms.
  // ---------------------------------------------------------------------

  datatype Atom = AnyDigit | Literal(c: char)

  predicate IsDigit(c: char) {
    '0' <= c <= '9'
  }

  predicate AtomMatches(a: Atom, c: char) {
    match a
    case AnyDigit => IsDigit(c)
    case Literal(l) => c == l
  }

  /** The pattern between the anchors: four digits, '-', two digits, '-', two digits. */
  function DatePattern(): seq<Atom> {
    [AnyDigit, AnyDigit, AnyDigit, AnyDigit, Literal('-'),
     AnyDigit, AnyDigit, Literal('-'),
     AnyDigit, AnyDigit]
  }

  /** The whole of `s` is matched by the atoms of `p`, one character per atom. */
  predicate MatchesExactly(p: seq<Atom>, s: string) {
    |s| == |p| && forall i | 0 <= i < |p| :: AtomMatches(p[i], s[i])
  }

  /**
   * A match of `^p$` from the start of `s`: the `$` anchor of Python's
   * regular expressions also matches just before one final newline.
   */
  predicate AnchoredMatch(p: seq<Atom>, s: string) {
    MatchesExactly(p, s) || (|s| > 0 && s[|s| - 1] == '\n' && MatchesExactly(p, s[..|s| - 1]))
  }

  predicate BirthDateOk(s: string) {
    AnchoredMatch(DatePattern(), s)
  }

  /** The `dddd-dd-dd` shape written out position by position; no calendar meaning. */
  predicate IsDateShape(s: string) {
    |s| == 10 && s[4] == '-' && s[7] == '-' &&
    forall i | 0 <= i < 10 && i != 4 && i != 7 :: IsDigit(s[i])
  }

  /** The date check accepts exactly the `dddd-dd-dd` strings, optionally followed by one newline. */
  lemma BirthDateOkShape(s: string)
    ensures BirthDateOk(s) <==>
      IsDateShape(s) || (|s| == 11 && s[10] == '\n' && IsDateShape(s[..10]))
  {
  }

  /** No calendar check: impossible months and days pass, a slash-separated date does not. */
  lemma NoCalendarCheck()
    ensures BirthDateOk("2024-99-99")
    ensures BirthDateOk("0000-00-00")
    ensures BirthDateOk("2024-01-31\n")
    ensures !BirthDateOk("2024/01/31")
    ensures !BirthDateOk("24-01-31")
  {
    BirthDateOkShape("2024-99-99");
    BirthDateOkShape("0000-00-00");
    BirthDateOkShape("2024-01-31\n");
    assert "2024-01-31\n"[..10] == "2024-01-31";
    BirthDateOkShape("2024/01/31");
    BirthDateOkShape("24-01-31");
  }

  // ---------------------------------------------------------------------
  // The whole-record validator.
  // ---------------------------------------------------------------------

  /** The record satisfies every field constraint of the request model. */
  predicate Accepts(d: BirthData) {
    ParentIdInRange(d.fatherId) && TextLengthOk(d.fatherFullName) &&
    ParentIdInRange(d.motherId) && TextLengthOk(d.motherName) &&
    TextLengthOk(d.hospitalName) && BirthDateOk(d.birthDate)
  }

  /** The fields whose constraint the record breaks, as the validation error lists them. */
  function Violations(d: BirthData): (errs: set<Field>)
    ensures errs == {} <==> Accepts(d)
    ensures FatherIdType !in errs && MotherIdType !in errs
    ensures FatherId in errs <==> !ParentIdInRange(d.fatherId)
    ensures MotherId in errs <==> !ParentIdInRange(d.motherId)
    ensures FatherFullName in errs <==> !TextLengthOk(d.fatherFullName)
    ensures MotherName in errs <==> !TextLengthOk(d.motherName)
    ensures HospitalName in errs <==> !TextLengthOk(d.hospitalName)
    ensures BirthDate in errs <==> !BirthDateOk(d.birthDate)
  {
    (if ParentIdInRange(d.fatherId) then {} else {FatherId}) +
    (if TextLengthOk(d.fatherFullName) then {} else {FatherFullName}) +
    (if ParentIdInRange(d.motherId) then {} else {MotherId}) +
    (if TextLengthOk(d.motherName) then {} else {MotherName}) +
    (if TextLengthOk(d.hospitalName) then {} else {HospitalName}) +
    (if BirthDateOk(d.birthDate) then {} else {BirthDate})
  }

  /** The two id-type fields are free strings: changing them never changes the verdict. */
  lemma IdTypesUnconstrained(d: BirthData, fatherType: string, motherType: string)
    ensures Accepts(d) <==> Accepts(d.(fatherIdType := fatherType, motherIdType := motherType))
  {
  }

  // ---------------------------------------------------------------------
  // The id range in terms of decimal digits.
  // ---------------------------------------------------------------------

  function Pow10(k: nat): (p: nat)
    ensures p >= 1
  {
    if k == 0 then 1 else 10 * Pow10(k - 1)
  }

  /** The number of decimal digits of `n`, without leading zeros. */
  function DecimalLength(n: nat): (k: nat)
    ensures k >= 1
  {
    if n < 10 then 1 else 1 + DecimalLength(n / 10)
  }

  /** `n` has at most `k` digits exactly when it is below 10^k. */
  lemma {:induction false} DecimalLengthAtMost(n: nat, k: nat)
    requires k >= 1
    ensures DecimalLength(n) <= k <==> n < Pow10(k)
    decreases n
  {
    if n >= 10 {
      if k == 1 {
        assert Pow10(1) == 10;
      } else {
        DecimalLengthAtMost(n / 10, k - 1);
        assert n / 10 < Pow10(k - 1) <==> n < 10 * Pow10(k - 1);
      }
    } else {
      assert Pow10(k) == 10 * Pow10(k - 1);
    }
  }

  /** The accepted parent ids are exactly the numbers of 8 to 12 decimal digits. */
  lemma ParentIdDigits(id: int)
    ensures ParentIdInRange(id) <==> id >= 0 && 8 <= DecimalLength(id) <= 12
  {
    assert Pow10(7) == MinParentId by {
      assert Pow10(1) == 10 && Pow10(2) == 100 && Pow10(3) == 1000;
      assert Pow10(4) == 10000 && Pow10(5) == 100000 && Pow10(6) == 1000000;
    }
    assert Pow10(12) == MaxParentId + 1 by {
      assert Pow10(8) == 100000000 && Pow10(9) == 1000000000;
      assert Pow10(10) == 10000000000 && Pow10(11) == 100000000000;
    }
    if id >= 0 {
      DecimalLengthAtMost(id, 7);
      DecimalLengthAtMost(id, 12);
    }
  }
}
