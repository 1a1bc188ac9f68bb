/**
 * The volunteer registration form (client/src/pages/Volunteer.tsx): the schema's
 * field predicates, the age check through `parseInt(val, 10)`, and the checkbox
 * toggle that edits the availability and skills selections.
 */
module Volunteer {
  import opened Wrappers
  import opened Seqs

  // ---------------------------------------------------------------------------
  // parseInt(s, 10)

  /** The white-space characters `parseInt` skips before the number. */
  predicate IsWhiteSpace(c: char)
  {
    c == ' ' || c == '\t' || c == '\n' || c == '\r' || c == '\U{000B}' || c == '\U{000C}'
    || c == '\U{00A0}' || c == '\U{FEFF}' || c == '\U{2028}' || c == '\U{2029}'
  }

  predicate IsDigit(c: char) { '0' <= c <= '9' }

  function DigitValue(c: char): (v: nat)
    requires IsDigit(c)
    ensures v < 10
  {
    c as int - '0' as int
  }

  /** `s` without its leading white space. */
  function TrimStart(s: string): (r: string)
    ensures |r| <= |s|
    ensures r == [] || !IsWhiteSpace(r[0])
  {
    if s != [] && IsWhiteSpace(s[0]) then TrimStart(s[1..]) else s
  }

  /** The longest prefix of `s` made of decimal digits. */
  function DigitPrefix(s: string): (d: string)
    ensures |d| <= |s|
    ensures forall i :: 0 <= i < |d| ==> IsDigit(d[i])
  {
    if s != [] && IsDigit(s[0]) then [s[0]] + DigitPrefix(s[1..]) else []
  }

  /** `DigitPrefix` is the longest prefix of digits: it is a prefix, and what follows is not a digit. */
  lemma {:induction false} DigitPrefixIsLongest(s: string)
    ensures DigitPrefix(s) == s[..|DigitPrefix(s)|]
    ensures |DigitPrefix(s)| < |s| ==> !IsDigit(s[|DigitPrefix(s)|])
  {
    if s != [] && IsDigit(s[0]) {
      DigitPrefixIsLongest(s[1..]);
      var d := DigitPrefix(s[1..]);
      assert DigitPrefix(s) == [s[0]] + d;
      assert s[..|d| + 1] == [s[0]] + s[1..][..|d|];
    }
  }

  /** The value of a string of decimal digits. */
  function DigitsValue(d: string): nat
    requires forall i :: 0 <= i < |d| ==> IsDigit(d[i])
  {
    if d == [] then 0 else DigitsValue(d[..|d| - 1]) * 10 + DigitValue(d[|d| - 1])
  }

  /** The numeral after an optional leading sign. */
  function StripSign(t: string): string
  {
    if t != [] && (t[0] == '-' || t[0] == '+') then t[1..] else t
  }

  /**
   * `parseInt(s, 10)`; `None` is NaN. Text whose first non-blank character is a digit
   * always gives a number, and only a leading minus sign gives a negative one.
   */
  function ParseInt(s: string): (r: Option<int>)
    ensures r.Some? ==> TrimStart(s) != []
    ensures r.Some? && r.value < 0 ==> TrimStart(s)[0] == '-'
    ensures TrimStart(s) != [] && IsDigit(TrimStart(s)[0]) ==> r.Some? && r.value >= 0
  {
    var t := TrimStart(s);
    var d := DigitPrefix(StripSign(t));
    if d == [] then None
    else if t[0] == '-' then Some(0 - DigitsValue(d))
    else Some(DigitsValue(d))
  }

  function DigitChar(n: nat): (c: char)
    requires n < 10
    ensures IsDigit(c)
  {
    ('0' as int + n) as char
  }

  /** The decimal numeral of `n`, as `String(n)` writes it. */
  function Decimal(n: nat): (s: string)
    ensures s != [] && forall i :: 0 <= i < |s| ==> IsDigit(s[i])
  {
    if n < 10 then [DigitChar(n)] else Decimal(n / 10) + [DigitChar(n % 10)]
  }

  lemma {:induction false} DecimalValue(n: nat)
    ensures DigitsValue(Decimal(n)) == n
  {
    if n >= 10 {
      DecimalValue(n / 10);
      var s := Decimal(n);
      assert s[..|s| - 1] == Decimal(n / 10);
    }
  }

  lemma {:induction false} AllDigitsPrefix(s: string)
    requires forall i :: 0 <= i < |s| ==> IsDigit(s[i])
    ensures DigitPrefix(s) == s
  {
    if s != [] {
      AllDigitsPrefix(s[1..]);
    }
  }

  /** A plain string of digits parses to its value. */
  lemma ParseDigits(s: string)
    requires s != [] && forall i :: 0 <= i < |s| ==> IsDigit(s[i])
    ensures ParseInt(s) == Some(DigitsValue(s))
  {
    assert IsDigit(s[0]);
    var t := TrimStart(s);
    assert t == s;
    assert StripSign(t) == s;
    AllDigitsPrefix(s);
    var d := DigitPrefix(StripSign(t));
    assert d == s;
    assert t[0] != '-';
  }

  /** `parseInt` reads back every numeral `String(n)` writes. */
  lemma ParseDecimal(n: nat)
    ensures ParseInt(Decimal(n)) == Some(n)
  {
    ParseDigits(Decimal(n));
    DecimalValue(n);
  }

  /** The age refinement: the parsed number is defined and at least 18. */
  predicate AgeAccepted(age: string)
    ensures AgeAccepted(age) ==> TrimStart(age) != [] && TrimStart(age)[0] != '-'
  {
    match ParseInt(age)
    case None => false
    case Some(n) => n >= 18
  }

  /** A plain numeral is accepted exactly when its value is at least 18. */
  lemma AgeOfNumeral(n: nat)
    ensures AgeAccepted(Decimal(n)) <==> n >= 18
  {
    ParseDecimal(n);
  }

  /** `parseInt` is lenient: text after the digits is ignored. */
  lemma AgeWithTrailingText()
    ensures ParseInt(" 21 years") == Some(21)
    ensures AgeAccepted(" 21 years")
  {
    var s := " 21 years";
    assert s[1..] == "21 years";
    var t := TrimStart(s);
    assert t == "21 years";
    assert StripSign(t) == t;
    assert t[1..] == "1 years";
    assert t[1..][1..] == " years";
    assert DigitPrefix(" years") == [];
    assert DigitPrefix("1 years") == "1";
    var d := DigitPrefix(t);
    assert d == "21";
    assert d[..1] == "2";
    assert DigitsValue("2") == 2 by { assert "2"[..0] == ""; }
    assert DigitsValue(d) == 21;
  }

  /** Text with no digits, and a negative number, are rejected. */
  lemma AgeRejections()
    ensures !AgeAccepted("")
    ensures !AgeAccepted("eighteen")
    ensures !AgeAccepted("-30")
  {
    assert TrimStart("") == "" && DigitPrefix("") == "";
    assert TrimStart("eighteen") == "eighteen";
    assert StripSign("eighteen") == "eighteen";
    assert DigitPrefix("eighteen") == [];
    var t := TrimStart("-30");
    assert t == "-30";
    assert StripSign(t) == "30";
    AllDigitsPrefix("30");
    assert DigitPrefix(StripSign(t)) == "30";
    assert t[0] == '-';
  }

  // ---------------------------------------------------------------------------
  // The form

  datatype VolunteerForm = VolunteerForm(
    name: string,
    email: string,
    phone: string,
    age: string,
    location: string,
    availability: seq<string>,
    skills: seq<string>,
    experience: string,
    motivation: string,
    emergencyContact: string,
    agreeTerms: bool)

  /** The fields a validation message can be attached to. */
  datatype Field = Name | Email | Phone | Age | Location | Availability | Skills
                 | Motivation | EmergencyContact | AgreeTerms

  const AllFields: seq<Field> :=
    [Name, Email, Phone, Age, Location, Availability, Skills, Motivation, EmergencyContact, AgreeTerms]

  /**
   * Whether `field` fails its rule in `volunteerFormSchema`. `emailValid` is the verdict
   * of the schema library's email check, which this model takes as given.
   */
  predicate Fails(f: VolunteerForm, emailValid: bool, field: Field)
  {
    match field
    case Name => |f.name| < 2
    case Email => !emailValid
    case Phone => |f.phone| < 10
    case Age => !AgeAccepted(f.age)
    case Location => |f.location| < 3
    case Availability => |f.availability| == 0
    case Skills => |f.skills| == 0
    case Motivation => |f.motivation| < 20
    case EmergencyContact => |f.emergencyContact| < 10
    case AgreeTerms => !f.agreeTerms
  }

  /** The fields that carry a validation message. */
  function Errors(f: VolunteerForm, emailValid: bool): (errs: set<Field>)
    ensures forall field :: field in errs <==> Fails(f, emailValid, field)
  {
    set field | field in AllFields && Fails(f, emailValid, field)
  }

  /** The form is submitted exactly when every rule holds. */
  lemma AcceptedIff(f: VolunteerForm, emailValid: bool)
    ensures Errors(f, emailValid) == {} <==>
      |f.name| >= 2 && emailValid && |f.phone| >= 10 && AgeAccepted(f.age) &&
      |f.location| >= 3 && |f.availability| > 0 && |f.skills| > 0 &&
      |f.motivation| >= 20 && |f.emergencyContact| >= 10 && f.agreeTerms
  {
    var errs := Errors(f, emailValid);
    if errs == {} {
      forall field: Field ensures !Fails(f, emailValid, field) {
        assert field !in errs;
      }
      assert !Fails(f, emailValid, Name) && !Fails(f, emailValid, Email) && !Fails(f, emailValid, Phone);
      assert !Fails(f, emailValid, Age) && !Fails(f, emailValid, Location);
      assert !Fails(f, emailValid, Availability) && !Fails(f, emailValid, Skills);
      assert !Fails(f, emailValid, Motivation) && !Fails(f, emailValid, EmergencyContact);
      assert !Fails(f, emailValid, AgreeTerms);
    } else {
      var field :| field in errs;
      assert Fails(f, emailValid, field);
    }
  }

  /** The experience field is optional: it never affects validation. */
  lemma ExperienceIsOptional(f: VolunteerForm, emailValid: bool, experience: string)
    ensures Errors(f.(experience := experience), emailValid) == Errors(f, emailValid)
  {
    var g := f.(experience := experience);
    forall field: Field ensures Fails(g, emailValid, field) == Fails(f, emailValid, field) {
    }
  }

  /** Without ticking the terms box the form is never accepted. */
  lemma TermsRequired(f: VolunteerForm, emailValid: bool)
    requires !f.agreeTerms
    ensures AgreeTerms in Errors(f, emailValid)
  {
  }

  const DefaultForm: VolunteerForm := VolunteerForm("", "", "", "", "", [], [], "", "", "", false)

  /** The form's default values fail every rule except, possibly, the email check. */
  lemma DefaultFormRejected(emailValid: bool)
    ensures forall field :: field != Email ==> field in Errors(DefaultForm, emailValid)
  {
    AgeRejections();
  }

  // ---------------------------------------------------------------------------
  // Checkbox selections

  /** The filter callback `value => value !== id`. */
  function IsNot(id: string): string -> bool
  {
    (v: string) => v != id
  }

  /** The selection after the checkbox for `id` changes to `checked`. */
  function Toggled(current: seq<string>, id: string, checked: bool): (r: seq<string>)
    ensures checked ==> r == current + [id]
    ensures !checked ==> id !in r && |r| <= |current|
  {
    if checked then current + [id]
    else FilterSound(current, IsNot(id)); Filter(current, IsNot(id))
  }

  /**
   * Unchecking removes every occurrence of the id and keeps every other id as often
   * as it was selected, in the original order.
   */
  lemma UncheckKeepsOthers(current: seq<string>, id: string)
    ensures forall v :: multiset(Toggled(current, id, false))[v]
                     == (if v != id then multiset(current)[v] else 0)
    ensures forall i :: 0 <= i < |current| && current[i] != id ==> current[i] in Toggled(current, id, false)
    ensures IsSubsequence(Toggled(current, id, false), current)
  {
    var p := IsNot(id);
    FilterMultiset(current, p);
    forall i | 0 <= i < |current| && current[i] != id
      ensures current[i] in Toggled(current, id, false)
    {
      FilterKeeps(current, p, i);
    }
    FilterIsSubsequence(current, p);
  }

  /** Checking then unchecking an option that was not selected restores the selection. */
  lemma CheckThenUncheck(current: seq<string>, id: string)
    requires id !in current
    ensures Toggled(Toggled(current, id, true), id, false) == current
  {
    var p := IsNot(id);
    FilterAppend(current, [id], p);
    FilterAll(current, p);
    assert Filter([id], p) == [];
  }
}
